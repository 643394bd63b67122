// Data model of the score checker: the records exchanged with the two media
// services and the run configuration (internal/types/types.go).

module Types {

  /** A Go pointer field that may be nil. */
  datatype Option<T> = None | Some(value: T)

  /** A Go `(value, error)` pair: exactly one of the two is meaningful. */
  datatype Result<T, E> = Ok(value: T) | Err(error: E)

  /** An `io.Writer` the program hands to its loggers; only its identity matters here. */
  datatype Writer = Stdout | Stderr | Buffer(id: nat)

  /** Connection details of one service instance. */
  datatype ServiceConfig = ServiceConfig(name: string, baseUrl: string, apiKey: string)

  /** Application configuration. `interval` is a Go `time.Duration` in nanoseconds.
      `logLevel` is set by the loader although the Go struct does not declare it. */
  datatype Config = Config(
    sonarrInstances: seq<ServiceConfig>,
    radarrInstances: seq<ServiceConfig>,
    triggerSearch: bool,
    batchSize: int,
    interval: int,
    logLevel: string)

  /** A TV series as listed by the episode tracker. */
  datatype Series = Series(id: int, title: string)

  /** The file attached to an episode, with its custom format score. */
  datatype EpisodeFile = EpisodeFile(id: int, customFormatScore: int)

  datatype Episode = Episode(
    id: int,
    seriesId: int,
    title: string,
    seasonNumber: int,
    episodeNumber: int,
    hasFile: bool,
    episodeFile: Option<EpisodeFile>)

  /** The body of a search command: its name and the item identifiers it covers. */
  datatype CommandRequest = CommandRequest(name: string, ids: seq<int>)

  /** What a service answers to an accepted command. */
  datatype CommandResponse = CommandResponse(id: int, name: string, commandName: string, status: string)

  datatype LowScoreEpisode = LowScoreEpisode(series: Series, episode: Episode, customFormatScore: int)

  datatype MovieFile = MovieFile(id: int, customFormatScore: int)

  datatype MovieWithFile = MovieWithFile(
    id: int,
    title: string,
    year: int,
    hasFile: bool,
    movieFile: Option<MovieFile>)

  datatype LowScoreMovie = LowScoreMovie(movie: MovieWithFile, customFormatScore: int)
}
