// The HTTP clients of the two services, reduced to their observable contract
// (internal/sonarr/client.go, internal/radarr/client.go). A server is a value
// that fixes, for every call the engine can make, the status code it answers
// with and the payload it returns; request building, headers and JSON are
// not modelled.

module Clients {
  import opened Types

  /** Why a client call failed. */
  datatype ClientError =
    | NoIdsProvided            // a search command with an empty id list is refused before sending
    | RequestFailed(status: int) // the service answered with a status the client does not accept

  const StatusOK := 200
  const StatusCreated := 201

  /** Command names the two clients put in their search requests. */
  const EpisodeSearchCommand := "EpisodeSearch"
  const MoviesSearchCommand := "MoviesSearch"

  /** How a service answers the k-th search command sent to it during one scan. */
  datatype CommandSink = CommandSink(status: nat -> int, reply: nat -> CommandResponse)

  /** The episode tracker as the engine sees it. */
  datatype SonarrServer = SonarrServer(
    seriesStatus: int,
    series: seq<Series>,
    episodeStatus: int -> int,
    episodes: int -> seq<Episode>,
    commands: CommandSink)

  /** The movie tracker as the engine sees it. */
  datatype RadarrServer = RadarrServer(
    movieStatus: int,
    movies: seq<MovieWithFile>,
    commands: CommandSink)

  /** One search command the engine sent, and what came back. */
  datatype SentCommand = Sent(request: CommandRequest, outcome: Result<CommandResponse, ClientError>)

  /** A GET succeeds only when the service answers 200. */
  function Get<T>(status: int, payload: T): (r: Result<T, ClientError>)
    ensures r.Ok? <==> status == StatusOK
    ensures r.Ok? ==> r.value == payload
    ensures r.Err? ==> r.error == RequestFailed(status)
  {
    if status != StatusOK then Err(RequestFailed(status)) else Ok(payload)
  }

  /** GET /api/v3/series: the listing, or the failing status. */
  function GetSeries(srv: SonarrServer): (r: Result<seq<Series>, ClientError>)
    ensures r.Ok? <==> srv.seriesStatus == StatusOK
    ensures r.Ok? ==> r.value == srv.series
    ensures r.Err? ==> r.error == RequestFailed(srv.seriesStatus)
  {
    Get(srv.seriesStatus, srv.series)
  }

  /** GET /api/v3/episode for one series: that series' episodes, or the failing status. */
  function GetEpisodes(srv: SonarrServer, seriesId: int): (r: Result<seq<Episode>, ClientError>)
    ensures r.Ok? <==> srv.episodeStatus(seriesId) == StatusOK
    ensures r.Ok? ==> r.value == srv.episodes(seriesId)
    ensures r.Err? ==> r.error == RequestFailed(srv.episodeStatus(seriesId))
  {
    Get(srv.episodeStatus(seriesId), srv.episodes(seriesId))
  }

  /** GET /api/v3/movie: the movie listing, or the failing status. */
  function GetMovies(srv: RadarrServer): (r: Result<seq<MovieWithFile>, ClientError>)
    ensures r.Ok? <==> srv.movieStatus == StatusOK
    ensures r.Ok? ==> r.value == srv.movies
    ensures r.Err? ==> r.error == RequestFailed(srv.movieStatus)
  {
    Get(srv.movieStatus, srv.movies)
  }

  /** The k-th search command of a scan: an empty id list is refused without
      contacting the service; otherwise the POST is accepted on 200 or 201. */
  function TriggerSearch(sink: CommandSink, k: nat, ids: seq<int>): (r: Result<CommandResponse, ClientError>)
    ensures ids == [] ==> r == Err(NoIdsProvided)
    ensures ids != [] ==> (r.Ok? <==> sink.status(k) == StatusOK || sink.status(k) == StatusCreated)
    ensures ids != [] && r.Ok? ==> r.value == sink.reply(k)
  {
    if |ids| == 0 then Err(NoIdsProvided)
    else if sink.status(k) != StatusCreated && sink.status(k) != StatusOK then Err(RequestFailed(sink.status(k)))
    else Ok(sink.reply(k))
  }
}
