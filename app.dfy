// The run orchestrator and the daemon loop of internal/app/app.go. A run
// loads the configuration, scans every Sonarr instance and then every Radarr
// instance in configuration order, and notes when none is configured. The
// daemon runs once at start and once per tick. Which server an instance
// reaches is a parameter (World), fixed for the duration of one run.

module App {
  import opened Types
  import opened Clients
  import C = Config
  import opened Scan

  /** The servers the configured instances connect to during one run. */
  datatype World = World(sonarr: ServiceConfig -> SonarrServer, radarr: ServiceConfig -> RadarrServer)

  /** What the scan of one instance did. A scan whose listing failed is
      reported with its error and nothing else, and the run goes on. */
  datatype InstanceReport =
    | SonarrReport(instance: ServiceConfig, episodes: EpisodeScan)
    | RadarrReport(instance: ServiceConfig, movies: MovieScan)

  /** One run: the instance reports in processing order, and whether the
      "no instances configured" notice is printed. */
  datatype RunReport = RunReport(reports: seq<InstanceReport>, noneConfigured: bool)

  /** Why the daemon never gets to its first run: the configuration is fatal,
      or the ticker refuses a non-positive interval. */
  datatype DaemonError = ConfigFailed(error: C.LoadError) | NonPositiveInterval(interval: int)

  /** The episode scan a run uses: the program's, or the corrected one of
      FindLowScoreEpisodesAndSearch. */
  function EpisodeScanOf(corrected: bool, srv: SonarrServer, triggerSearch: bool, batchSize: int): EpisodeScan {
    if corrected then ScanEpisodesCorrected(srv, triggerSearch, batchSize)
    else ScanEpisodesAsWritten(srv, triggerSearch, batchSize)
  }

  function SonarrReports(cfg: Config, world: World, insts: seq<ServiceConfig>, corrected: bool): (rs: seq<InstanceReport>)
    ensures |rs| == |insts|
    decreases |insts|
  {
    if insts == [] then []
    else
      var inst := insts[|insts| - 1];
      SonarrReports(cfg, world, insts[..|insts| - 1], corrected) +
        [SonarrReport(inst, EpisodeScanOf(corrected, world.sonarr(inst), cfg.triggerSearch, cfg.batchSize))]
  }

  function RadarrReports(cfg: Config, world: World, insts: seq<ServiceConfig>): (rs: seq<InstanceReport>)
    ensures |rs| == |insts|
    decreases |insts|
  {
    if insts == [] then []
    else
      var inst := insts[|insts| - 1];
      RadarrReports(cfg, world, insts[..|insts| - 1]) +
        [RadarrReport(inst, ScanMovies(world.radarr(inst), cfg.triggerSearch, cfg.batchSize))]
  }

  /** One run over a loaded configuration, with the given episode scan. */
  function RunWith(cfg: Config, world: World, corrected: bool): RunReport {
    RunReport(
      SonarrReports(cfg, world, cfg.sonarrInstances, corrected) + RadarrReports(cfg, world, cfg.radarrInstances),
      cfg.sonarrInstances == [] && cfg.radarrInstances == [])
  }

  /** One run of the program. */
  function Run(cfg: Config, world: World): RunReport {
    RunWith(cfg, world, false)
  }

  /** A run as the episode scan is meant to behave: the Sonarr instances scanned
      by the corrected scan, the rest unchanged. */
  function CorrectedRun(cfg: Config, world: World): RunReport {
    RunWith(cfg, world, true)
  }

  /** Whether the episode scan of this server stops at the cap. */
  predicate ReachesCap(srv: SonarrServer, batchSize: int) {
    GetSeries(srv).Ok? && CapReached(batchSize, |AllEpisodeMatches(srv, GetSeries(srv).value)|)
  }

  /** RunOnce: a fatal configuration ends the process before any scan. */
  function RunOnceSpec(settings: C.Settings, world: World): Result<RunReport, C.LoadError> {
    match C.LoadSpec(settings)
    case Err(e) => Err(e)
    case Ok(cfg) => Ok(Run(cfg, world))
  }

  /** The runs of the daemon, one per world in order. */
  function Runs(cfg: Config, worlds: seq<World>): (runs: seq<RunReport>)
    ensures |runs| == |worlds|
    decreases |worlds|
  {
    if worlds == [] then [] else Runs(cfg, worlds[..|worlds| - 1]) + [Run(cfg, worlds[|worlds| - 1])]
  }

  /** RunDaemon observed over the first run and the runs of the given ticks. */
  function DaemonSpec(settings: C.Settings, first: World, ticks: seq<World>): Result<seq<RunReport>, DaemonError> {
    match C.LoadSpec(settings)
    case Err(e) => Err(ConfigFailed(e))
    case Ok(cfg) =>
      if cfg.interval <= 0 then Err(NonPositiveInterval(cfg.interval))
      else Ok(Runs(cfg, [first] + ticks))
  }

  // ------------------------------------------------------------ properties

  /** The k-th Sonarr report is the scan of the k-th Sonarr instance. */
  lemma {:induction false} SonarrReportsAt(cfg: Config, world: World, insts: seq<ServiceConfig>, corrected: bool)
    ensures |SonarrReports(cfg, world, insts, corrected)| == |insts|
    ensures forall k :: 0 <= k < |insts| ==>
      SonarrReports(cfg, world, insts, corrected)[k] ==
        SonarrReport(insts[k], EpisodeScanOf(corrected, world.sonarr(insts[k]), cfg.triggerSearch, cfg.batchSize))
    decreases |insts|
  {
    if insts != [] {
      SonarrReportsAt(cfg, world, insts[..|insts| - 1], corrected);
    }
  }

  /** The k-th Radarr report is the scan of the k-th Radarr instance. */
  lemma {:induction false} RadarrReportsAt(cfg: Config, world: World, insts: seq<ServiceConfig>)
    ensures |RadarrReports(cfg, world, insts)| == |insts|
    ensures forall k :: 0 <= k < |insts| ==>
      RadarrReports(cfg, world, insts)[k] ==
        RadarrReport(insts[k], ScanMovies(world.radarr(insts[k]), cfg.triggerSearch, cfg.batchSize))
    decreases |insts|
  {
    if insts != [] {
      RadarrReportsAt(cfg, world, insts[..|insts| - 1]);
    }
  }

  /** A run scans every configured instance exactly once: all Sonarr instances in
      configuration order, then all Radarr instances; the notice is printed
      exactly when neither kind is configured. */
  lemma RunMeaning(cfg: Config, world: World)
    ensures var run := Run(cfg, world);
      var n := |cfg.sonarrInstances|;
      |run.reports| == n + |cfg.radarrInstances| &&
      (run.noneConfigured <==> run.reports == []) &&
      (forall k :: 0 <= k < n ==>
        run.reports[k] == SonarrReport(cfg.sonarrInstances[k],
          ScanEpisodesAsWritten(world.sonarr(cfg.sonarrInstances[k]), cfg.triggerSearch, cfg.batchSize))) &&
      (forall k :: 0 <= k < |cfg.radarrInstances| ==>
        run.reports[n + k] == RadarrReport(cfg.radarrInstances[k],
          ScanMovies(world.radarr(cfg.radarrInstances[k]), cfg.triggerSearch, cfg.batchSize)))
  {
    SonarrReportsAt(cfg, world, cfg.sonarrInstances, false);
    RadarrReportsAt(cfg, world, cfg.radarrInstances);
  }

  /** A fatal configuration stops RunOnce before any scan; otherwise it is the
      run over the loaded configuration. */
  lemma RunOnceMeaning(settings: C.Settings, world: World)
    ensures C.LoadSpec(settings).Err? ==> RunOnceSpec(settings, world) == Err(C.LoadSpec(settings).error)
    ensures C.LoadSpec(settings).Ok? ==> RunOnceSpec(settings, world) == Ok(Run(C.LoadSpec(settings).value, world))
  {
  }

  /** For one server: the scan as written and the corrected one differ exactly
      when the cap is reached with searching on, and then only in the commands. */
  lemma CorrectedScanDiffersOnlyAtCap(srv: SonarrServer, triggerSearch: bool, batchSize: int)
    ensures ScanEpisodesAsWritten(srv, triggerSearch, batchSize) == ScanEpisodesCorrected(srv, triggerSearch, batchSize) <==>
      !(triggerSearch && ReachesCap(srv, batchSize))
    ensures triggerSearch && ReachesCap(srv, batchSize) ==>
      var corrected := ScanEpisodesCorrected(srv, true, batchSize);
      ScanEpisodesAsWritten(srv, true, batchSize) == EpisodeScan(corrected.result, corrected.fetched, []) &&
      |corrected.commands| > 0
  {
    if triggerSearch && ReachesCap(srv, batchSize) {
      AsWrittenCapSkipsSearch(srv, batchSize);
    } else {
      AsWrittenAgreesBelowCap(srv, triggerSearch, batchSize);
    }
  }

  /** The run as written and the corrected run differ only in the report of a
      Sonarr instance whose scan reaches the cap with searching on: there the
      run as written has no commands while the corrected run has some. */
  lemma CorrectedRunDiffersOnlyAtCap(cfg: Config, world: World)
    ensures |CorrectedRun(cfg, world).reports| == |Run(cfg, world).reports|
    ensures CorrectedRun(cfg, world).noneConfigured == Run(cfg, world).noneConfigured
    ensures forall k :: 0 <= k < |Run(cfg, world).reports| ==>
      (Run(cfg, world).reports[k] == CorrectedRun(cfg, world).reports[k] <==>
        !(k < |cfg.sonarrInstances| && cfg.triggerSearch &&
          ReachesCap(world.sonarr(cfg.sonarrInstances[k]), cfg.batchSize)))
  {
    var insts := cfg.sonarrInstances;
    var n := |insts|;
    var asWritten := SonarrReports(cfg, world, insts, false);
    var corrected := SonarrReports(cfg, world, insts, true);
    var radarr := RadarrReports(cfg, world, cfg.radarrInstances);
    SonarrReportsAt(cfg, world, insts, false);
    SonarrReportsAt(cfg, world, insts, true);
    assert Run(cfg, world).reports == asWritten + radarr;
    assert CorrectedRun(cfg, world).reports == corrected + radarr;
    forall k | 0 <= k < n
      ensures asWritten[k] == corrected[k] <==> !(cfg.triggerSearch && ReachesCap(world.sonarr(insts[k]), cfg.batchSize))
    {
      CorrectedScanDiffersOnlyAtCap(world.sonarr(insts[k]), cfg.triggerSearch, cfg.batchSize);
    }
  }

  /** Failure isolation between instances: whatever the k-th Sonarr instance's
      server does, the reports of all other instances stay the same. */
  lemma SonarrInstanceIsolated(cfg: Config, w1: World, w2: World, k: nat)
    requires k < |cfg.sonarrInstances|
    requires forall c :: c != cfg.sonarrInstances[k] ==> w1.sonarr(c) == w2.sonarr(c)
    requires w1.radarr == w2.radarr
    ensures |Run(cfg, w1).reports| == |Run(cfg, w2).reports|
    ensures forall j :: 0 <= j < |cfg.sonarrInstances| && cfg.sonarrInstances[j] != cfg.sonarrInstances[k] ==>
      Run(cfg, w1).reports[j] == Run(cfg, w2).reports[j]
    ensures forall j :: |cfg.sonarrInstances| <= j < |Run(cfg, w1).reports| ==>
      Run(cfg, w1).reports[j] == Run(cfg, w2).reports[j]
  {
    SonarrReportsAt(cfg, w1, cfg.sonarrInstances, false);
    SonarrReportsAt(cfg, w2, cfg.sonarrInstances, false);
    RadarrReportsAt(cfg, w1, cfg.radarrInstances);
    RadarrReportsAt(cfg, w2, cfg.radarrInstances);
  }

  /** An instance whose series listing fails is reported with that error and
      no fetches or searches. */
  lemma FailedInstanceReported(cfg: Config, world: World, k: nat)
    requires k < |cfg.sonarrInstances|
    requires GetSeries(world.sonarr(cfg.sonarrInstances[k])).Err?
    ensures Run(cfg, world).reports[k] == SonarrReport(cfg.sonarrInstances[k],
      EpisodeScan(Err(GetSeries(world.sonarr(cfg.sonarrInstances[k])).error), [], []))
  {
    SonarrReportsAt(cfg, world, cfg.sonarrInstances, false);
  }

  /** The k-th daemon run is the run over the k-th world. */
  lemma {:induction false} RunsAt(cfg: Config, worlds: seq<World>)
    ensures |Runs(cfg, worlds)| == |worlds|
    ensures forall k :: 0 <= k < |worlds| ==> Runs(cfg, worlds)[k] == Run(cfg, worlds[k])
    decreases |worlds|
  {
    if worlds != [] {
      RunsAt(cfg, worlds[..|worlds| - 1]);
    }
  }

  /** The first run is over the first world and run k + 1 over the k-th tick's world. */
  lemma DaemonRunsInOrder(cfg: Config, first: World, ticks: seq<World>)
    ensures |Runs(cfg, [first] + ticks)| == |ticks| + 1
    ensures Runs(cfg, [first] + ticks)[0] == Run(cfg, first)
    ensures forall k :: 0 <= k < |ticks| ==> Runs(cfg, [first] + ticks)[k + 1] == Run(cfg, ticks[k])
  {
    var worlds := [first] + ticks;
    RunsAt(cfg, worlds);
    assert worlds[0] == first;
    forall k | 0 <= k < |ticks|
      ensures Runs(cfg, worlds)[k + 1] == Run(cfg, ticks[k])
    {
      assert worlds[k + 1] == ticks[k];
    }
  }

  /** The daemon runs once before any tick and once per tick, each run being
      exactly a RunOnce; it never starts when the configuration is fatal or the
      interval is not positive. */
  lemma DaemonMeaning(settings: C.Settings, first: World, ticks: seq<World>)
    ensures DaemonSpec(settings, first, ticks).Ok? <==>
      C.LoadSpec(settings).Ok? && C.LoadSpec(settings).value.interval > 0
    ensures DaemonSpec(settings, first, ticks).Ok? ==>
      var runs := DaemonSpec(settings, first, ticks).value;
      |runs| == |ticks| + 1 &&
      Ok(runs[0]) == RunOnceSpec(settings, first) &&
      forall k :: 0 <= k < |ticks| ==> Ok(runs[k + 1]) == RunOnceSpec(settings, ticks[k])
  {
    if C.LoadSpec(settings).Ok? && C.LoadSpec(settings).value.interval > 0 {
      var cfg := C.LoadSpec(settings).value;
      DaemonRunsInOrder(cfg, first, ticks);
      RunOnceMeaning(settings, first);
      forall k | 0 <= k < |ticks|
        ensures RunOnceSpec(settings, ticks[k]) == Ok(Run(cfg, ticks[k]))
      {
        RunOnceMeaning(settings, ticks[k]);
      }
    }
  }

  // ------------------------------------------------------------ the loops

  /** The Sonarr loop of RunOnce: each instance in order, a failed one reported and skipped. */
  method ScanSonarrInstances(cfg: Config, world: World) returns (reports: seq<InstanceReport>)
    ensures reports == SonarrReports(cfg, world, cfg.sonarrInstances, false)
  {
    reports := [];
    var i := 0;
    while i < |cfg.sonarrInstances|
      invariant 0 <= i <= |cfg.sonarrInstances|
      invariant reports == SonarrReports(cfg, world, cfg.sonarrInstances[..i], false)
    {
      var instance := cfg.sonarrInstances[i];
      var result, fetched, commands := FindLowScoreEpisodes(world.sonarr(instance), cfg.triggerSearch, cfg.batchSize);
      assert cfg.sonarrInstances[..i + 1][..i] == cfg.sonarrInstances[..i];
      reports := reports + [SonarrReport(instance, EpisodeScan(result, fetched, commands))];
      i := i + 1;
    }
    assert cfg.sonarrInstances[..i] == cfg.sonarrInstances;
  }

  /** The Radarr loop of RunOnce. */
  method ScanRadarrInstances(cfg: Config, world: World) returns (reports: seq<InstanceReport>)
    ensures reports == RadarrReports(cfg, world, cfg.radarrInstances)
  {
    reports := [];
    var j := 0;
    while j < |cfg.radarrInstances|
      invariant 0 <= j <= |cfg.radarrInstances|
      invariant reports == RadarrReports(cfg, world, cfg.radarrInstances[..j])
    {
      var instance := cfg.radarrInstances[j];
      var result, commands := FindLowScoreMovies(world.radarr(instance), cfg.triggerSearch, cfg.batchSize);
      assert cfg.radarrInstances[..j + 1][..j] == cfg.radarrInstances[..j];
      reports := reports + [RadarrReport(instance, MovieScan(result, commands))];
      j := j + 1;
    }
    assert cfg.radarrInstances[..j] == cfg.radarrInstances;
  }

  /** RunOnce: load, then the Sonarr loop, then the Radarr loop, then the notice. */
  method RunOnce(settings: C.Settings, world: World) returns (r: Result<RunReport, C.LoadError>)
    ensures r == RunOnceSpec(settings, world)
  {
    var loaded := C.Load(settings);
    if loaded.Err? {
      return Err(loaded.error);
    }
    var cfg := loaded.value;
    var sonarrReports := ScanSonarrInstances(cfg, world);
    var radarrReports := ScanRadarrInstances(cfg, world);
    r := Ok(RunReport(sonarrReports + radarrReports, |cfg.sonarrInstances| == 0 && |cfg.radarrInstances| == 0));
  }

  /** RunDaemon over a finite stretch of ticks: load, start the ticker, run once,
      then run once per tick. */
  method RunDaemon(settings: C.Settings, first: World, ticks: seq<World>) returns (r: Result<seq<RunReport>, DaemonError>)
    ensures r == DaemonSpec(settings, first, ticks)
  {
    var loaded := C.Load(settings);
    if loaded.Err? {
      return Err(ConfigFailed(loaded.error));
    }
    var cfg := loaded.value;
    if cfg.interval <= 0 {
      return Err(NonPositiveInterval(cfg.interval));
    }
    var run := RunOnce(settings, first);
    var runs := [run.value];
    var t := 0;
    while t < |ticks|
      invariant 0 <= t <= |ticks|
      invariant runs == Runs(cfg, [first] + ticks[..t])
    {
      run := RunOnce(settings, ticks[t]);
      assert ([first] + ticks[..t + 1])[..t + 1] == [first] + ticks[..t];
      runs := runs + [run.value];
      t := t + 1;
    }
    assert ticks[..t] == ticks;
    r := Ok(runs);
  }
}
