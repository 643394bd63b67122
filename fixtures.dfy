// The fixture data of internal/testhelpers/testhelpers.go and the expectations
// the test files state about it, as facts about the model: two series with
// scores -10 and 5, and -5; three movies with scores -15, 10 and no file; a
// mock command endpoint that answers 201 with a queued command when it is
// given a response and 400 otherwise.

module Fixtures {
  import opened Types
  import opened Clients
  import opened SearchTrigger
  import opened Scan
  import opened Logger
  import C = Config

  const BreakingBad := Series(1, "Breaking Bad")
  const BetterCallSaul := Series(2, "Better Call Saul")

  const Pilot := Episode(101, 1, "Pilot", 1, 1, true, Some(EpisodeFile(201, -10)))
  const CatsInTheBag := Episode(102, 1, "Cat's in the Bag...", 1, 2, true, Some(EpisodeFile(202, 5)))
  const Uno := Episode(201, 2, "Uno", 1, 1, true, Some(EpisodeFile(301, -5)))

  const EpisodeSearchQueued := CommandResponse(123, "EpisodeSearch", "EpisodeSearch", "queued")
  const MoviesSearchQueued := CommandResponse(456, "MoviesSearch", "MoviesSearch", "queued")

  const TheMatrix := MovieWithFile(1, "The Matrix", 1999, true, Some(MovieFile(101, -15)))
  const Inception := MovieWithFile(2, "Inception", 2010, true, Some(MovieFile(102, 10)))
  const Interstellar := MovieWithFile(3, "Interstellar", 2014, false, None)

  /** The mock command endpoint: 201 and the response when it has one, 400 otherwise. */
  function MockCommands(response: Option<CommandResponse>): CommandSink {
    CommandSink(k => if response.Some? then StatusCreated else 400,
                k => if response.Some? then response.value else CommandResponse(0, "", "", ""))
  }

  /** The mock episode tracker: series 1 and 2 are known, any other id is 404. */
  function MockSonarr(series: seq<Series>, response: Option<CommandResponse>): SonarrServer {
    SonarrServer(StatusOK, series,
      id => if id == 1 || id == 2 then StatusOK else 404,
      id => if id == 1 then [Pilot, CatsInTheBag] else if id == 2 then [Uno] else [],
      MockCommands(response))
  }

  function MockRadarr(movies: seq<MovieWithFile>, response: Option<CommandResponse>): RadarrServer {
    RadarrServer(StatusOK, movies, MockCommands(response))
  }

  const FixtureSeries := [BreakingBad, BetterCallSaul]
  const FirstMatch := LowScoreEpisode(BreakingBad, Pilot, -10)
  const SecondMatch := LowScoreEpisode(BetterCallSaul, Uno, -5)

  /** The matches of the fixture: Pilot in the first series, Uno in the second. */
  lemma FixtureMatches(response: Option<CommandResponse>)
    ensures var srv := MockSonarr(FixtureSeries, response);
      AllEpisodeMatches(srv, FixtureSeries[..1]) == [FirstMatch] &&
      AllEpisodeMatches(srv, FixtureSeries) == [FirstMatch, SecondMatch]
  {
    var srv := MockSonarr(FixtureSeries, response);
    assert [Pilot][..0] == [];
    assert SeriesMatches(BreakingBad, [Pilot]) == [FirstMatch];
    assert [Pilot, CatsInTheBag][..1] == [Pilot];
    assert SeriesMatches(BreakingBad, [Pilot, CatsInTheBag]) == [FirstMatch];
    assert [Uno][..0] == [];
    assert SeriesMatches(BetterCallSaul, [Uno]) == [SecondMatch];
    assert SeriesHits(srv, BreakingBad) == [FirstMatch];
    assert SeriesHits(srv, BetterCallSaul) == [SecondMatch];
    var ss := FixtureSeries;
    assert ss[..1] == [BreakingBad];
    assert ss[..1][..0] == [];
    assert AllEpisodeMatches(srv, ss[..1]) == [FirstMatch];
    assert ss[..|ss| - 1] == ss[..1];
  }

  /** Batch size 5: both low-score episodes, in discovery order, both series
      fetched, and with searching on one command for both. */
  lemma EpisodesAtBatchFive(triggerSearch: bool)
    ensures var srv := MockSonarr(FixtureSeries, if triggerSearch then Some(EpisodeSearchQueued) else None);
      ScanEpisodesAsWritten(srv, triggerSearch, 5) == EpisodeScan(
        Ok([FirstMatch, SecondMatch]),
        [1, 2],
        if triggerSearch then [Sent(CommandRequest(EpisodeSearchCommand, [101, 201]), Ok(EpisodeSearchQueued))] else [])
  {
    var response := if triggerSearch then Some(EpisodeSearchQueued) else None;
    var srv := MockSonarr(FixtureSeries, response);
    var ss := FixtureSeries;
    FixtureMatches(response);
    assert ss[..2] == ss;
    assert StopFrom(srv, ss, 5, 2) == 2;
    assert StopFrom(srv, ss, 5, 1) == 2;
    assert StopPoint(srv, ss, 5) == 2;
    assert EpisodeIds([FirstMatch, SecondMatch]) == [101, 201];
    assert Chunks([101, 201]) == [[101, 201]];
  }

  /** Batch size 1 with searching on: one match and one series fetched; as
      written no command is sent, while the corrected scan sends it. */
  lemma EpisodesAtBatchOne()
    ensures var srv := MockSonarr(FixtureSeries, Some(EpisodeSearchQueued));
      ScanEpisodesCorrected(srv, true, 1) == EpisodeScan(
        Ok([FirstMatch]), [1],
        [Sent(CommandRequest(EpisodeSearchCommand, [101]), Ok(EpisodeSearchQueued))]) &&
      ScanEpisodesAsWritten(srv, true, 1) == EpisodeScan(Ok([FirstMatch]), [1], [])
  {
    var srv := MockSonarr(FixtureSeries, Some(EpisodeSearchQueued));
    var ss := FixtureSeries;
    FixtureMatches(Some(EpisodeSearchQueued));
    assert StopPoint(srv, ss, 1) == 1;
    assert Cap(1, [FirstMatch, SecondMatch]) == [FirstMatch];
    assert EpisodeIds([FirstMatch]) == [101];
    assert Chunks([101]) == [[101]];
  }

  /** An empty series listing: nothing found, nothing fetched, nothing sent. */
  lemma NoSeries(triggerSearch: bool, batchSize: int)
    ensures ScanEpisodesAsWritten(MockSonarr([], None), triggerSearch, batchSize) == EpisodeScan(Ok([]), [], [])
  {
    NothingToSearch(MockCommands(None), EpisodeSearchCommand);
  }

  /** Only The Matrix qualifies, whatever the cap (5, 0 for unlimited, or 1);
      with searching on it is searched alone. */
  lemma MoviesFixture(triggerSearch: bool, batchSize: int)
    requires batchSize in {0, 1, 5}
    ensures var srv := MockRadarr([TheMatrix, Inception, Interstellar], if triggerSearch then Some(MoviesSearchQueued) else None);
      ScanMovies(srv, triggerSearch, batchSize) == MovieScan(
        Ok([LowScoreMovie(TheMatrix, -15)]),
        if triggerSearch then [Sent(CommandRequest(MoviesSearchCommand, [1]), Ok(MoviesSearchQueued))] else [])
  {
    var ms := [TheMatrix, Inception, Interstellar];
    assert [TheMatrix][..0] == [];
    assert AllMovieMatches([TheMatrix]) == [LowScoreMovie(TheMatrix, -15)];
    assert [TheMatrix, Inception][..1] == [TheMatrix];
    assert AllMovieMatches([TheMatrix, Inception]) == [LowScoreMovie(TheMatrix, -15)];
    assert ms[..2] == [TheMatrix, Inception];
    assert AllMovieMatches(ms) == [LowScoreMovie(TheMatrix, -15)];
    assert MovieIds([LowScoreMovie(TheMatrix, -15)]) == [1];
    assert Chunks([1]) == [[1]];
  }

  /** Two maps without names are called "default" and "instance1". */
  lemma TwoUnnamedInstances(url1: string, key1: string, url2: string, key2: string)
    ensures var raws := [map["baseurl" := C.Str(url1), "apikey" := C.Str(key1)],
                         map["baseurl" := C.Str(url2), "apikey" := C.Str(key2)]];
      C.BuildInstances(C.Sonarr, raws) ==
        Ok([ServiceConfig("default", url1, key1), ServiceConfig("instance1", url2, key2)])
  {
    var m1 := map["baseurl" := C.Str(url1), "apikey" := C.Str(key1)];
    var m2 := map["baseurl" := C.Str(url2), "apikey" := C.Str(key2)];
    var raws := [m1, m2];
    C.DefaultNameExamples();
    C.BuildInstancesOk(C.Sonarr, raws);
    assert C.Complete(raws[0]) && C.Complete(raws[1]);
    assert C.InstanceName(0, raws[0]) == "default";
    assert C.InstanceName(1, raws[1]) == "instance1";
    var built := C.BuildInstances(C.Sonarr, raws).value;
    assert built[0] == ServiceConfig("default", url1, key1);
    assert built[1] == ServiceConfig("instance1", url2, key2);
    assert |built| == 2;
    assert built == [ServiceConfig("default", url1, key1), ServiceConfig("instance1", url2, key2)];
    assert C.BuildInstances(C.Sonarr, raws) == Ok(built);
    assert raws == [map["baseurl" := C.Str(url1), "apikey" := C.Str(key1)],
                    map["baseurl" := C.Str(url2), "apikey" := C.Str(key2)]];
  }

  /** The four names parse to their levels. */
  lemma ParseCanonicalNames()
    ensures ParseLogLevel("ERROR") == ERROR && ParseLogLevel("INFO") == INFO
    ensures ParseLogLevel("DEBUG") == DEBUG && ParseLogLevel("VERBOSE") == VERBOSE
  {
    LevelNameRoundTrip(ERROR);
    LevelNameRoundTrip(INFO);
    LevelNameRoundTrip(DEBUG);
    LevelNameRoundTrip(VERBOSE);
  }

  /** Case does not matter: "info" and "Debug". */
  lemma ParseMixedCase()
    ensures ParseLogLevel("info") == INFO && ParseLogLevel("Debug") == DEBUG
  {
    assert ToUpper("info") == "INFO";
    assert ToUpper("Debug") == "DEBUG";
  }

  /** An unknown name and the empty string give INFO. */
  lemma ParseUnknownNames()
    ensures ParseLogLevel("INVALID") == INFO && ParseLogLevel("") == INFO
  {
    assert ToUpper("INVALID") == "INVALID";
  }
}
