// The scan-and-collect engine of internal/app/app.go: walk a service's
// catalog in listing order, keep every item whose file has a negative custom
// format score, stop at the per-run batch size, and search for what was kept.

module Scan {
  import opened Types
  import opened Clients
  import opened SearchTrigger

  // ---------------------------------------------------------------- filter

  /** The low-score predicate on an episode: it has a file, the file is known, and its score is negative. */
  predicate IsLowScoreEpisode(e: Episode) {
    e.hasFile && e.episodeFile.Some? && e.episodeFile.value.customFormatScore < 0
  }

  /** The same predicate on a movie. */
  predicate IsLowScoreMovie(m: MovieWithFile) {
    m.hasFile && m.movieFile.Some? && m.movieFile.value.customFormatScore < 0
  }

  // ------------------------------------------------------ discovery order

  /** The matches among one series' episodes, in listing order. */
  function SeriesMatches(s: Series, eps: seq<Episode>): seq<LowScoreEpisode>
    decreases |eps|
  {
    if eps == [] then []
    else
      var e := eps[|eps| - 1];
      SeriesMatches(s, eps[..|eps| - 1]) +
        if IsLowScoreEpisode(e) then [LowScoreEpisode(s, e, e.episodeFile.value.customFormatScore)] else []
  }

  /** The matches of one series; a series whose episode listing fails contributes none. */
  function SeriesHits(srv: SonarrServer, s: Series): seq<LowScoreEpisode> {
    match GetEpisodes(srv, s.id)
    case Err(_) => []
    case Ok(eps) => SeriesMatches(s, eps)
  }

  /** Every match of a series listing, series by series, in discovery order. */
  function AllEpisodeMatches(srv: SonarrServer, ss: seq<Series>): seq<LowScoreEpisode>
    decreases |ss|
  {
    if ss == [] then [] else AllEpisodeMatches(srv, ss[..|ss| - 1]) + SeriesHits(srv, ss[|ss| - 1])
  }

  /** Every match of a movie listing, in listing order. */
  function AllMovieMatches(ms: seq<MovieWithFile>): seq<LowScoreMovie>
    decreases |ms|
  {
    if ms == [] then []
    else
      var m := ms[|ms| - 1];
      AllMovieMatches(ms[..|ms| - 1]) +
        if IsLowScoreMovie(m) then [LowScoreMovie(m, m.movieFile.value.customFormatScore)] else []
  }

  /** `m` is what the engine records for episode `m.episode` of series `s`. */
  predicate EpisodeMatchOf(srv: SonarrServer, s: Series, m: LowScoreEpisode) {
    GetEpisodes(srv, s.id).Ok? && m.episode in GetEpisodes(srv, s.id).value &&
    m.series == s && IsLowScoreEpisode(m.episode) &&
    m.customFormatScore == m.episode.episodeFile.value.customFormatScore
  }

  lemma {:induction false} SeriesMatchesAppend(s: Series, a: seq<Episode>, b: seq<Episode>)
    ensures SeriesMatches(s, a + b) == SeriesMatches(s, a) + SeriesMatches(s, b)
    decreases |b|
  {
    if b != [] {
      var b' := b[..|b| - 1];
      assert (a + b)[..|a + b| - 1] == a + b';
      SeriesMatchesAppend(s, a, b');
    } else {
      assert a + b == a;
    }
  }

  lemma {:induction false} AllEpisodeMatchesAppend(srv: SonarrServer, a: seq<Series>, b: seq<Series>)
    ensures AllEpisodeMatches(srv, a + b) == AllEpisodeMatches(srv, a) + AllEpisodeMatches(srv, b)
    decreases |b|
  {
    if b != [] {
      var b' := b[..|b| - 1];
      assert (a + b)[..|a + b| - 1] == a + b';
      AllEpisodeMatchesAppend(srv, a, b');
    } else {
      assert a + b == a;
    }
  }

  lemma {:induction false} AllMovieMatchesAppend(a: seq<MovieWithFile>, b: seq<MovieWithFile>)
    ensures AllMovieMatches(a + b) == AllMovieMatches(a) + AllMovieMatches(b)
    decreases |b|
  {
    if b != [] {
      var b' := b[..|b| - 1];
      assert (a + b)[..|a + b| - 1] == a + b';
      AllMovieMatchesAppend(a, b');
    } else {
      assert a + b == a;
    }
  }

  /** The matches of one series are exactly its low-score episodes, each with its file's score. */
  lemma {:induction false} SeriesMatchesExact(s: Series, eps: seq<Episode>, m: LowScoreEpisode)
    ensures m in SeriesMatches(s, eps) <==>
      m.series == s && m.episode in eps && IsLowScoreEpisode(m.episode) &&
      m.customFormatScore == m.episode.episodeFile.value.customFormatScore
    decreases |eps|
  {
    if eps != [] {
      var init := eps[..|eps| - 1];
      SeriesMatchesExact(s, init, m);
      assert eps == init + [eps[|eps| - 1]];
    }
  }

  /** Soundness and completeness of the episode scan: a record is among the matches
      of a listing exactly when it belongs to a listed series whose episodes could be
      fetched and is a low-score episode of it carrying its file's score. */
  lemma {:induction false} EpisodeMatchesExact(srv: SonarrServer, ss: seq<Series>, m: LowScoreEpisode)
    ensures m in AllEpisodeMatches(srv, ss) <==> m.series in ss && EpisodeMatchOf(srv, m.series, m)
    decreases |ss|
  {
    if ss != [] {
      var init := ss[..|ss| - 1];
      var last := ss[|ss| - 1];
      EpisodeMatchesExact(srv, init, m);
      assert ss == init + [last];
      if GetEpisodes(srv, last.id).Ok? {
        SeriesMatchesExact(last, GetEpisodes(srv, last.id).value, m);
      }
    }
  }

  /** Soundness and completeness of the movie scan. */
  lemma {:induction false} MovieMatchesExact(ms: seq<MovieWithFile>, m: LowScoreMovie)
    ensures m in AllMovieMatches(ms) <==>
      m.movie in ms && IsLowScoreMovie(m.movie) && m.customFormatScore == m.movie.movieFile.value.customFormatScore
    decreases |ms|
  {
    if ms != [] {
      var init := ms[..|ms| - 1];
      MovieMatchesExact(init, m);
      assert ms == init + [ms[|ms| - 1]];
    }
  }

  /** A series whose episode listing fails only drops that series' episodes. */
  lemma FailedSeriesSkipped(srv: SonarrServer, before: seq<Series>, s: Series, after: seq<Series>)
    requires GetEpisodes(srv, s.id).Err?
    ensures AllEpisodeMatches(srv, before + [s] + after) == AllEpisodeMatches(srv, before) + AllEpisodeMatches(srv, after)
  {
    var upTo := before + [s];
    assert upTo[..|upTo| - 1] == before;
    assert SeriesHits(srv, s) == [];
    assert AllEpisodeMatches(srv, upTo) == AllEpisodeMatches(srv, before);
    AllEpisodeMatchesAppend(srv, upTo, after);
  }

  // ------------------------------------------------------------ batch cap

  /** The counter check `BatchSize > 0 && processedCount >= BatchSize`. */
  predicate CapReached(batchSize: int, count: int) {
    batchSize > 0 && count >= batchSize
  }

  /** The first min(batchSize, |xs|) items when batchSize > 0; all of them otherwise. */
  function Cap<T>(batchSize: int, xs: seq<T>): (r: seq<T>)
    ensures |r| == if batchSize > 0 && batchSize < |xs| then batchSize else |xs|
    ensures r == xs[..|r|]
  {
    if batchSize > 0 && |xs| > batchSize then xs[..batchSize] else xs
  }

  // --------------------------------------------------------------- ids

  function EpisodeIds(ms: seq<LowScoreEpisode>): (ids: seq<int>)
    ensures |ids| == |ms|
    ensures forall i :: 0 <= i < |ms| ==> ids[i] == ms[i].episode.id
  {
    seq(|ms|, i requires 0 <= i < |ms| => ms[i].episode.id)
  }

  function MovieIds(ms: seq<LowScoreMovie>): (ids: seq<int>)
    ensures |ids| == |ms|
    ensures forall i :: 0 <= i < |ms| ==> ids[i] == ms[i].movie.id
  {
    seq(|ms|, i requires 0 <= i < |ms| => ms[i].movie.id)
  }

  function SeriesIds(ss: seq<Series>): (ids: seq<int>)
    ensures |ids| == |ss|
    ensures forall i :: 0 <= i < |ss| ==> ids[i] == ss[i].id
  {
    seq(|ss|, i requires 0 <= i < |ss| => ss[i].id)
  }

  // ---------------------------------------------------- where the scan stops

  /** How many series have had their episodes fetched when the scan ends,
      counting from series j on. */
  function StopFrom(srv: SonarrServer, ss: seq<Series>, batchSize: int, j: nat): (stop: nat)
    requires j <= |ss|
    ensures j <= stop <= |ss|
    decreases |ss| - j
  {
    if j == |ss| then |ss|
    else if CapReached(batchSize, |AllEpisodeMatches(srv, ss[..j + 1])|) then j + 1
    else StopFrom(srv, ss, batchSize, j + 1)
  }

  function StopPoint(srv: SonarrServer, ss: seq<Series>, batchSize: int): (stop: nat)
    ensures stop <= |ss|
  {
    StopFrom(srv, ss, batchSize, 0)
  }

  /** The scan fetches series up to and including the one in which the cap is
      reached and none after it: before the stop the cap is never reached, and a
      scan that stops early has reached it. */
  lemma {:induction false} StopFromMeaning(srv: SonarrServer, ss: seq<Series>, batchSize: int, j: nat)
    requires j <= |ss|
    requires forall i :: 0 <= i <= j ==> !CapReached(batchSize, |AllEpisodeMatches(srv, ss[..i])|)
    ensures StopFrom(srv, ss, batchSize, j) < |ss| ==>
      CapReached(batchSize, |AllEpisodeMatches(srv, ss[..StopFrom(srv, ss, batchSize, j)])|)
    ensures forall i :: 0 <= i < StopFrom(srv, ss, batchSize, j) ==>
      !CapReached(batchSize, |AllEpisodeMatches(srv, ss[..i])|)
    decreases |ss| - j
  {
    if j < |ss| && !CapReached(batchSize, |AllEpisodeMatches(srv, ss[..j + 1])|) {
      StopFromMeaning(srv, ss, batchSize, j + 1);
    }
  }

  lemma StopPointMeaning(srv: SonarrServer, ss: seq<Series>, batchSize: int)
    ensures StopPoint(srv, ss, batchSize) < |ss| ==>
      CapReached(batchSize, |AllEpisodeMatches(srv, ss[..StopPoint(srv, ss, batchSize)])|)
    ensures forall i :: 0 <= i < StopPoint(srv, ss, batchSize) ==>
      !CapReached(batchSize, |AllEpisodeMatches(srv, ss[..i])|)
  {
    assert ss[..0] == [];
    StopFromMeaning(srv, ss, batchSize, 0);
  }

  // ------------------------------------------------------- what a scan does

  /** The outcome of one episode scan: the matches or the listing error, the
      series whose episodes were fetched, and the search commands sent. */
  datatype EpisodeScan = EpisodeScan(
    result: Result<seq<LowScoreEpisode>, ClientError>,
    fetched: seq<int>,
    commands: seq<SentCommand>)

  /** The outcome of one movie scan. */
  datatype MovieScan = MovieScan(result: Result<seq<LowScoreMovie>, ClientError>, commands: seq<SentCommand>)

  /** findLowScoreEpisodes as written: reaching the cap returns before any search is triggered. */
  function ScanEpisodesAsWritten(srv: SonarrServer, triggerSearch: bool, batchSize: int): EpisodeScan {
    match GetSeries(srv)
    case Err(e) => EpisodeScan(Err(e), [], [])
    case Ok(series) =>
      var all := AllEpisodeMatches(srv, series);
      var matches := Cap(batchSize, all);
      EpisodeScan(
        Ok(matches),
        SeriesIds(series[..StopPoint(srv, series, batchSize)]),
        if !triggerSearch || CapReached(batchSize, |all|) then []
        else SearchLog(srv.commands, EpisodeSearchCommand, EpisodeIds(matches)))
  }

  /** The episode scan as the movie path and the tests intend it: the cap only
      stops the scan, and the matches collected are still searched. */
  function ScanEpisodesCorrected(srv: SonarrServer, triggerSearch: bool, batchSize: int): EpisodeScan {
    match GetSeries(srv)
    case Err(e) => EpisodeScan(Err(e), [], [])
    case Ok(series) =>
      var matches := Cap(batchSize, AllEpisodeMatches(srv, series));
      EpisodeScan(
        Ok(matches),
        SeriesIds(series[..StopPoint(srv, series, batchSize)]),
        if triggerSearch then SearchLog(srv.commands, EpisodeSearchCommand, EpisodeIds(matches)) else [])
  }

  /** findLowScoreMovies: the cap breaks out of the movie loop, and what was collected is searched. */
  function ScanMovies(srv: RadarrServer, triggerSearch: bool, batchSize: int): MovieScan {
    match GetMovies(srv)
    case Err(e) => MovieScan(Err(e), [])
    case Ok(movies) =>
      var matches := Cap(batchSize, AllMovieMatches(movies));
      MovieScan(Ok(matches), if triggerSearch then SearchLog(srv.commands, MoviesSearchCommand, MovieIds(matches)) else [])
  }

  // --------------------------------------------------------- properties

  /** Every returned episode match has a negative score equal to its file's score,
      and comes from a listed series; a failed listing returns the error alone. */
  lemma EpisodeScanSound(srv: SonarrServer, triggerSearch: bool, batchSize: int)
    ensures GetSeries(srv).Err? ==> ScanEpisodesAsWritten(srv, triggerSearch, batchSize) == EpisodeScan(Err(GetSeries(srv).error), [], [])
    ensures ScanEpisodesAsWritten(srv, triggerSearch, batchSize).result.Ok? ==>
      forall m :: m in ScanEpisodesAsWritten(srv, triggerSearch, batchSize).result.value ==>
        m.customFormatScore < 0 && m.episode.hasFile && m.episode.episodeFile.Some? &&
        m.customFormatScore == m.episode.episodeFile.value.customFormatScore &&
        m.series in GetSeries(srv).value
  {
    if GetSeries(srv).Ok? {
      var all := AllEpisodeMatches(srv, GetSeries(srv).value);
      forall m | m in Cap(batchSize, all)
        ensures m.customFormatScore < 0 && m.episode.hasFile && m.episode.episodeFile.Some? &&
          m.customFormatScore == m.episode.episodeFile.value.customFormatScore &&
          m.series in GetSeries(srv).value
      {
        assert m in all;
        EpisodeMatchesExact(srv, GetSeries(srv).value, m);
      }
    }
  }

  /** The batch cap: with batchSize > 0 the result is the first min(batchSize, eligible)
      eligible episodes in discovery order; otherwise every eligible episode. */
  lemma EpisodeScanCapped(srv: SonarrServer, triggerSearch: bool, batchSize: int)
    requires GetSeries(srv).Ok?
    ensures var all := AllEpisodeMatches(srv, GetSeries(srv).value);
      var matches := ScanEpisodesAsWritten(srv, triggerSearch, batchSize).result.value;
      matches == all[..|matches|] &&
      (batchSize <= 0 ==> matches == all) &&
      (batchSize > 0 ==> |matches| == Min(batchSize, |all|))
  {
  }

  /** Searching as written: nothing is sent when searching is off, nothing
      matched, or the cap was reached; otherwise the commands carry the match
      ids in match order, ten at most each. */
  lemma EpisodeSearchAsWritten(srv: SonarrServer, triggerSearch: bool, batchSize: int)
    requires GetSeries(srv).Ok?
    ensures var all := AllEpisodeMatches(srv, GetSeries(srv).value);
      var scan := ScanEpisodesAsWritten(srv, triggerSearch, batchSize);
      (!triggerSearch || scan.result.value == [] || CapReached(batchSize, |all|) ==> scan.commands == []) &&
      (triggerSearch && !CapReached(batchSize, |all|) ==> Flatten(RequestIds(scan.commands)) == EpisodeIds(scan.result.value)) &&
      (forall k :: 0 <= k < |scan.commands| ==> 1 <= |scan.commands[k].request.ids| <= ChunkSize)
  {
    var all := AllEpisodeMatches(srv, GetSeries(srv).value);
    if triggerSearch && !CapReached(batchSize, |all|) {
      SearchLogShape(srv.commands, EpisodeSearchCommand, EpisodeIds(Cap(batchSize, all)));
    }
  }

  /** Searching in the corrected scan: nothing is sent unless searching is enabled
      and something matched; when enabled, the commands carry the match ids in
      match order, ten at most each, whether or not the cap was reached. */
  lemma EpisodeSearchCoversMatches(srv: SonarrServer, triggerSearch: bool, batchSize: int)
    requires GetSeries(srv).Ok?
    ensures var scan := ScanEpisodesCorrected(srv, triggerSearch, batchSize);
      (!triggerSearch || scan.result.value == [] ==> scan.commands == []) &&
      (triggerSearch ==> Flatten(RequestIds(scan.commands)) == EpisodeIds(scan.result.value)) &&
      (forall k :: 0 <= k < |scan.commands| ==> 1 <= |scan.commands[k].request.ids| <= ChunkSize)
  {
    var scan := ScanEpisodesCorrected(srv, triggerSearch, batchSize);
    if triggerSearch {
      SearchLogShape(srv.commands, EpisodeSearchCommand, EpisodeIds(scan.result.value));
    }
  }

  /** The same for movies. */
  lemma MovieSearchCoversMatches(srv: RadarrServer, triggerSearch: bool, batchSize: int)
    requires GetMovies(srv).Ok?
    ensures var scan := ScanMovies(srv, triggerSearch, batchSize);
      (!triggerSearch || scan.result.value == [] ==> scan.commands == []) &&
      (triggerSearch ==> Flatten(RequestIds(scan.commands)) == MovieIds(scan.result.value)) &&
      (forall k :: 0 <= k < |scan.commands| ==> 1 <= |scan.commands[k].request.ids| <= ChunkSize)
  {
    var scan := ScanMovies(srv, triggerSearch, batchSize);
    if triggerSearch {
      SearchLogShape(srv.commands, MoviesSearchCommand, MovieIds(scan.result.value));
    }
  }

  /** Every returned movie match has a negative score equal to its file's score, the
      result is the first min(batchSize, eligible) eligible movies (all when batchSize <= 0),
      and a failed listing returns the error alone. */
  lemma MovieScanMeaning(srv: RadarrServer, triggerSearch: bool, batchSize: int)
    ensures GetMovies(srv).Err? ==> ScanMovies(srv, triggerSearch, batchSize) == MovieScan(Err(GetMovies(srv).error), [])
    ensures GetMovies(srv).Ok? ==>
      var all := AllMovieMatches(GetMovies(srv).value);
      var matches := ScanMovies(srv, triggerSearch, batchSize).result.value;
      matches == all[..|matches|] &&
      (batchSize <= 0 ==> matches == all) &&
      (batchSize > 0 ==> |matches| == Min(batchSize, |all|)) &&
      forall m :: m in matches ==>
        m.customFormatScore < 0 && m.movie.hasFile && m.movie.movieFile.Some? &&
        m.customFormatScore == m.movie.movieFile.value.customFormatScore && m.movie in GetMovies(srv).value
  {
    if GetMovies(srv).Ok? {
      var all := AllMovieMatches(GetMovies(srv).value);
      forall m | m in Cap(batchSize, all)
        ensures m.customFormatScore < 0 && m.movie.hasFile && m.movie.movieFile.Some? &&
          m.customFormatScore == m.movie.movieFile.value.customFormatScore && m.movie in GetMovies(srv).value
      {
        assert m in all;
        MovieMatchesExact(GetMovies(srv).value, m);
      }
    }
  }

  /** As written, reaching the cap with searching enabled sends no command at all,
      although every returned match is a low-score episode waiting for a search. */
  lemma AsWrittenCapSkipsSearch(srv: SonarrServer, batchSize: int)
    requires GetSeries(srv).Ok?
    requires CapReached(batchSize, |AllEpisodeMatches(srv, GetSeries(srv).value)|)
    ensures var scan := ScanEpisodesAsWritten(srv, true, batchSize);
      scan.commands == [] && |scan.result.value| == batchSize > 0
    ensures |ScanEpisodesCorrected(srv, true, batchSize).commands| > 0
  {
    var matches := ScanEpisodesCorrected(srv, true, batchSize).result.value;
    SearchLogShape(srv.commands, EpisodeSearchCommand, EpisodeIds(matches));
  }

  /** Below the cap, or with searching disabled, the as-written scan and the
      corrected one agree. */
  lemma AsWrittenAgreesBelowCap(srv: SonarrServer, triggerSearch: bool, batchSize: int)
    requires GetSeries(srv).Ok? ==> !triggerSearch || !CapReached(batchSize, |AllEpisodeMatches(srv, GetSeries(srv).value)|)
    ensures ScanEpisodesAsWritten(srv, triggerSearch, batchSize) == ScanEpisodesCorrected(srv, triggerSearch, batchSize)
  {
  }

  // ---------------------------------------------------------- the loops

  predicate IsPrefix<T(==)>(a: seq<T>, b: seq<T>) {
    |a| <= |b| && a == b[..|a|]
  }

  lemma EpisodeIdsAppend(ms: seq<LowScoreEpisode>, m: LowScoreEpisode)
    ensures EpisodeIds(ms + [m]) == EpisodeIds(ms) + [m.episode.id]
  {
  }

  lemma MovieIdsAppend(ms: seq<LowScoreMovie>, m: LowScoreMovie)
    ensures MovieIds(ms + [m]) == MovieIds(ms) + [m.movie.id]
  {
  }

  lemma SeriesIdsStep(ss: seq<Series>, si: nat)
    requires si < |ss|
    ensures SeriesIds(ss[..si + 1]) == SeriesIds(ss[..si]) + [ss[si].id]
  {
  }

  /** One more episode examined. */
  lemma SeriesMatchesStep(s: Series, eps: seq<Episode>, ei: nat)
    requires ei < |eps|
    ensures SeriesMatches(s, eps[..ei + 1]) == SeriesMatches(s, eps[..ei]) +
      if IsLowScoreEpisode(eps[ei]) then [LowScoreEpisode(s, eps[ei], eps[ei].episodeFile.value.customFormatScore)] else []
  {
    assert eps[..ei + 1][..ei] == eps[..ei];
  }

  /** One more series examined: its episodes are added, and the stop point moves on
      unless the cap was reached. */
  lemma SeriesStep(srv: SonarrServer, ss: seq<Series>, batchSize: int, si: nat)
    requires si < |ss|
    ensures AllEpisodeMatches(srv, ss[..si + 1]) == AllEpisodeMatches(srv, ss[..si]) + SeriesHits(srv, ss[si])
    ensures !CapReached(batchSize, |AllEpisodeMatches(srv, ss[..si + 1])|) ==>
      StopFrom(srv, ss, batchSize, si) == StopFrom(srv, ss, batchSize, si + 1)
    ensures CapReached(batchSize, |AllEpisodeMatches(srv, ss[..si + 1])|) ==>
      StopFrom(srv, ss, batchSize, si) == si + 1
  {
    assert ss[..si + 1][..si] == ss[..si];
  }

  /** When the count reaches the cap part-way through a series, what has been
      collected is the capped result and the stop point is just past that series. */
  lemma CapHitInSeries(srv: SonarrServer, ss: seq<Series>, batchSize: int, si: nat, eps: seq<Episode>, k: nat)
    requires si < |ss| && GetEpisodes(srv, ss[si].id) == Ok(eps) && k <= |eps|
    requires CapReached(batchSize, |AllEpisodeMatches(srv, ss[..si]) + SeriesMatches(ss[si], eps[..k])|)
    requires |AllEpisodeMatches(srv, ss[..si]) + SeriesMatches(ss[si], eps[..k])| == batchSize
    ensures var part := AllEpisodeMatches(srv, ss[..si]) + SeriesMatches(ss[si], eps[..k]);
      part == Cap(batchSize, AllEpisodeMatches(srv, ss)) &&
      CapReached(batchSize, |AllEpisodeMatches(srv, ss)|) &&
      StopFrom(srv, ss, batchSize, si) == si + 1
  {
    PartialScanIsPrefix(srv, ss, si, eps, k);
    SeriesStep(srv, ss, batchSize, si);
  }

  /** The partial scan is a prefix of the full one: the series already done plus
      the first k episodes of the series in hand. */
  lemma PartialScanIsPrefix(srv: SonarrServer, ss: seq<Series>, si: nat, eps: seq<Episode>, k: nat)
    requires si < |ss| && GetEpisodes(srv, ss[si].id) == Ok(eps) && k <= |eps|
    ensures var part := AllEpisodeMatches(srv, ss[..si]) + SeriesMatches(ss[si], eps[..k]);
      IsPrefix(part, AllEpisodeMatches(srv, ss[..si + 1])) && IsPrefix(part, AllEpisodeMatches(srv, ss))
  {
    assert ss[..si + 1][..si] == ss[..si];
    assert eps == eps[..k] + eps[k..];
    SeriesMatchesAppend(ss[si], eps[..k], eps[k..]);
    assert ss == ss[..si + 1] + ss[si + 1..];
    AllEpisodeMatchesAppend(srv, ss[..si + 1], ss[si + 1..]);
  }

  /** The inner loop of findLowScoreEpisodes over one series' episodes. It stops as
      soon as the count reaches the cap (`reached`), after `examined` episodes. */
  method CollectFromSeries(s: Series, eps: seq<Episode>, triggerSearch: bool, batchSize: int,
                           matches0: seq<LowScoreEpisode>, toSearch0: seq<int>)
    returns (matches: seq<LowScoreEpisode>, toSearch: seq<int>, examined: nat, reached: bool)
    requires !CapReached(batchSize, |matches0|)
    requires toSearch0 == if triggerSearch then EpisodeIds(matches0) else []
    ensures examined <= |eps|
    ensures matches == matches0 + SeriesMatches(s, eps[..examined])
    ensures toSearch == if triggerSearch then EpisodeIds(matches) else []
    ensures reached ==> |matches| == batchSize && CapReached(batchSize, |matches|)
    ensures !reached ==> examined == |eps| && !CapReached(batchSize, |matches|)
  {
    matches, toSearch := matches0, toSearch0;
    var processedCount := |matches0|;
    var ei := 0;
    while ei < |eps|
      invariant 0 <= ei <= |eps|
      invariant matches == matches0 + SeriesMatches(s, eps[..ei])
      invariant processedCount == |matches| && !CapReached(batchSize, processedCount)
      invariant toSearch == if triggerSearch then EpisodeIds(matches) else []
    {
      var episode := eps[ei];
      SeriesMatchesStep(s, eps, ei);
      if episode.hasFile && episode.episodeFile.Some? {
        if episode.episodeFile.value.customFormatScore < 0 {
          var found := LowScoreEpisode(s, episode, episode.episodeFile.value.customFormatScore);
          EpisodeIdsAppend(matches, found);
          matches := matches + [found];
          if triggerSearch {
            toSearch := toSearch + [episode.id];
          }
          processedCount := processedCount + 1;
          if batchSize > 0 && processedCount >= batchSize {
            return matches, toSearch, ei + 1, true;
          }
        }
      }
      ei := ei + 1;
    }
    assert eps[..ei] == eps;
    examined, reached := ei, false;
  }

  /** The nested series/episode loops of findLowScoreEpisodes, up to the cap. */
  method CollectLowScoreEpisodes(srv: SonarrServer, series: seq<Series>, triggerSearch: bool, batchSize: int)
    returns (matches: seq<LowScoreEpisode>, toSearch: seq<int>, fetched: seq<int>, capped: bool)
    ensures capped <==> CapReached(batchSize, |AllEpisodeMatches(srv, series)|)
    ensures matches == Cap(batchSize, AllEpisodeMatches(srv, series))
    ensures toSearch == if triggerSearch then EpisodeIds(matches) else []
    ensures fetched == SeriesIds(series[..StopPoint(srv, series, batchSize)])
  {
    matches, toSearch, fetched := [], [], [];
    var si := 0;
    while si < |series|
      invariant 0 <= si <= |series|
      invariant matches == AllEpisodeMatches(srv, series[..si])
      invariant !CapReached(batchSize, |matches|)
      invariant toSearch == if triggerSearch then EpisodeIds(matches) else []
      invariant fetched == SeriesIds(series[..si])
      invariant StopFrom(srv, series, batchSize, si) == StopPoint(srv, series, batchSize)
    {
      var s := series[si];
      SeriesStep(srv, series, batchSize, si);
      SeriesIdsStep(series, si);
      fetched := fetched + [s.id];
      var episodes := GetEpisodes(srv, s.id);
      if episodes.Ok? {
        var examined, reached;
        matches, toSearch, examined, reached := CollectFromSeries(s, episodes.value, triggerSearch, batchSize, matches, toSearch);
        if reached {
          CapHitInSeries(srv, series, batchSize, si, episodes.value, examined);
          return matches, toSearch, fetched, true;
        }
        assert episodes.value[..examined] == episodes.value;
      }
      si := si + 1;
    }
    assert series[..si] == series;
    capped := false;
  }

  /** findLowScoreEpisodes as written. */
  method FindLowScoreEpisodes(srv: SonarrServer, triggerSearch: bool, batchSize: int)
    returns (r: Result<seq<LowScoreEpisode>, ClientError>, fetched: seq<int>, commands: seq<SentCommand>)
    ensures EpisodeScan(r, fetched, commands) == ScanEpisodesAsWritten(srv, triggerSearch, batchSize)
  {
    var listing := GetSeries(srv);
    if listing.Err? {
      return Err(listing.error), [], [];
    }
    var matches, toSearch, capped;
    matches, toSearch, fetched, capped := CollectLowScoreEpisodes(srv, listing.value, triggerSearch, batchSize);
    if capped {
      return Ok(matches), fetched, [];
    }
    NothingToSearch(srv.commands, EpisodeSearchCommand);
    commands := [];
    if triggerSearch && |toSearch| > 0 {
      commands := TriggerInChunks(srv.commands, EpisodeSearchCommand, toSearch);
    }
    r := Ok(matches);
  }

  /** findLowScoreEpisodes with the cap falling through to the search, as in the movie path. */
  method FindLowScoreEpisodesAndSearch(srv: SonarrServer, triggerSearch: bool, batchSize: int)
    returns (r: Result<seq<LowScoreEpisode>, ClientError>, fetched: seq<int>, commands: seq<SentCommand>)
    ensures EpisodeScan(r, fetched, commands) == ScanEpisodesCorrected(srv, triggerSearch, batchSize)
  {
    var listing := GetSeries(srv);
    if listing.Err? {
      return Err(listing.error), [], [];
    }
    var matches, toSearch, capped;
    matches, toSearch, fetched, capped := CollectLowScoreEpisodes(srv, listing.value, triggerSearch, batchSize);
    NothingToSearch(srv.commands, EpisodeSearchCommand);
    commands := [];
    if triggerSearch && |toSearch| > 0 {
      commands := TriggerInChunks(srv.commands, EpisodeSearchCommand, toSearch);
    }
    r := Ok(matches);
  }

  /** findLowScoreMovies: one loop over the movies, `break` at the cap, then the search. */
  method FindLowScoreMovies(srv: RadarrServer, triggerSearch: bool, batchSize: int)
    returns (r: Result<seq<LowScoreMovie>, ClientError>, commands: seq<SentCommand>)
    ensures MovieScan(r, commands) == ScanMovies(srv, triggerSearch, batchSize)
  {
    var listing := GetMovies(srv);
    if listing.Err? {
      return Err(listing.error), [];
    }
    var movies := listing.value;
    var matches: seq<LowScoreMovie> := [];
    var toSearch: seq<int> := [];
    var processedCount := 0;
    var i := 0;
    while i < |movies|
      invariant 0 <= i <= |movies|
      invariant matches == AllMovieMatches(movies[..i])
      invariant processedCount == |matches| && !CapReached(batchSize, processedCount)
      invariant toSearch == if triggerSearch then MovieIds(matches) else []
    {
      var movie := movies[i];
      assert movies[..i + 1][..i] == movies[..i];
      if movie.hasFile && movie.movieFile.Some? {
        if movie.movieFile.value.customFormatScore < 0 {
          var found := LowScoreMovie(movie, movie.movieFile.value.customFormatScore);
          MovieIdsAppend(matches, found);
          matches := matches + [found];
          if triggerSearch {
            toSearch := toSearch + [movie.id];
          }
          processedCount := processedCount + 1;
          if batchSize > 0 && processedCount >= batchSize {
            assert movies == movies[..i + 1] + movies[i + 1..];
            AllMovieMatchesAppend(movies[..i + 1], movies[i + 1..]);
            assert matches == Cap(batchSize, AllMovieMatches(movies));
            break;
          }
        }
      }
      i := i + 1;
    }
    if i == |movies| {
      assert movies[..i] == movies;
    }
    assert matches == Cap(batchSize, AllMovieMatches(movies));
    NothingToSearch(srv.commands, MoviesSearchCommand);
    commands := [];
    if triggerSearch && |toSearch| > 0 {
      commands := TriggerInChunks(srv.commands, MoviesSearchCommand, toSearch);
    }
    r := Ok(matches);
  }
}
