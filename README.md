# score-checker, modelled in Dafny

score-checker polls two media trackers: Sonarr (TV series and episodes) and Radarr (movies). It looks for library items whose file has a negative *custom format score*. It reports them and, when `TriggerSearch` is set, asks the tracker to search again for a better release. The number of items handled per run is capped by `BatchSize`, where a value of 0 or less means no cap. The program runs once or as a daemon that repeats on a fixed interval.

The model covers the engine in `internal/app/app.go`, the leveled logger in `internal/logger/logger.go`, and the configuration logic in `internal/config/config.go`. That logic is the construction of the instance lists and the slog handler's level gate.

Files:

- `types.dfy` (module `Types`): the records of `internal/types/types.go`, plus `Option`, `Result` and an opaque `Writer`.
- `clients.dfy` (module `Clients`): the two HTTP clients reduced to their contract. A server is a value: the status and payload of every listing, and the status and reply of the k-th search command. A GET succeeds only on 200. A command with no identifiers is refused without being sent. A command is accepted on 200 or 201.
- `search.dfy` (module `SearchTrigger`): the loop that sends the identifiers in sub-batches of ten. `SearchLog` is its specification, and `SearchLogShape` states what the sub-batches amount to.
- `scan.dfy` (module `Scan`): `findLowScoreEpisodes` and `findLowScoreMovies` as imperative methods, each proved equal to a specification function. The specifications are `ScanEpisodesCorrected`, `ScanEpisodesAsWritten` and `ScanMovies`, defined from `AllEpisodeMatches`/`AllMovieMatches` (every match, in discovery order), `Cap` and `SearchLog`.
- `app.dfy` (module `App`): `RunOnce` and `RunDaemon`. Which server an instance reaches is the parameter `World`. The daemon is observed over the first run plus a finite sequence of ticks. A run uses the episode scan as written; `CorrectedRun` is the same run with the corrected episode scan of the Findings, and `CorrectedRunDiffersOnlyAtCap` states where the two differ.
- `logger.dfy` (module `Logger`):
  - the level parser and level names, as pure functions;
  - class `Logging`, whose fields are the package globals `defaultLogger` and the lines written so far.
- `config.dfy` (module `Config`):
  - class `CustomHandler`;
  - `LoadInstances`, the instance-building loop, proved against `BuildInstances`;
  - `Load`, proved against `LoadSpec`.

  The values the configuration library decodes are an input (`Settings`). `log.Fatalf` becomes an `Err` result.
- `fixtures.dfy` (module `Fixtures`): the data from `internal/testhelpers/testhelpers.go`, and the expectations the test files state about it.

## Model

| member | source | states |
|---|---|---|
| `Clients.Get` | internal/sonarr/client.go:62 | a listing succeeds exactly when the status is 200, and then returns the payload; any other status is a `RequestFailed` carrying that status |
| `Clients.TriggerSearch` | internal/sonarr/client.go:110-151 | an empty identifier list is refused with `NoIdsProvided`; otherwise the command succeeds exactly on 200 or 201, with the service's reply |
| `Clients.GetSeries` | internal/sonarr/client.go:75-87 | the series listing is returned exactly when the service answers 200; any other status fails with that status |
| `Clients.GetEpisodes` | internal/sonarr/client.go:90-106 | the episodes of the requested series are returned exactly when the service answers 200 for that series; any other status fails with that status |
| `Clients.GetMovies` | internal/radarr/client.go:74-87 | the movie listing is returned exactly when the service answers 200; any other status fails with that status |
| `SearchTrigger.TriggerInChunks` | internal/app/app.go:69-82 | the chunk loop sends exactly `SearchLog`: one command per sub-batch, in order, each carrying the answer to that command; a failed command does not stop the loop |
| `SearchTrigger.ChunkCount` | internal/app/app.go:69-71 | K identifiers make ceil(K/10) sub-batches |
| `SearchTrigger.ChunkAt` | internal/app/app.go:70-73 | sub-batch k is the slice `ids[10k : min(10k+10, K)]` the loop cuts |
| `SearchTrigger.ChunkSizes` | internal/app/app.go:69-73 | every sub-batch holds 1 to 10 identifiers, and all but the last hold exactly 10 |
| `SearchTrigger.FlattenChunks` | internal/app/app.go:69-82 | the sub-batches concatenate back to the identifier list, so nothing is lost, repeated or reordered |
| `SearchTrigger.SearchLogShape` | internal/app/app.go:64-83 | a search sends ceil(K/10) commands of the given name; together they carry the identifiers in order; none carries more than ten or is refused as empty; each outcome is the client's answer to that command |
| `SearchTrigger.SearchIgnoresAnswers` | internal/app/app.go:74-78 | which identifiers go in which command does not depend on how the service answers |
| `SearchTrigger.NothingToSearch` | internal/app/app.go:65 | no identifiers, no command |
| `Scan.IsLowScoreEpisode` | internal/app/app.go:40-41 | the episode filter: the episode has a file, the file record is present, and its custom format score is negative. `Scan.SeriesMatchesExact` and `Scan.EpisodeMatchesExact` tie the matches to it |
| `Scan.IsLowScoreMovie` | internal/app/app.go:105-106 | the movie filter: the movie has a file, the file record is present, and its custom format score is negative. `Scan.MovieMatchesExact` ties the matches to it |
| `Scan.SeriesMatchesExact` | internal/app/app.go:39-46 | a record is among a series' matches iff its episode is in the listing, has a file, has a known file and has a negative score, and the record carries that score |
| `Scan.EpisodeMatchesExact` | internal/app/app.go:29-62 | a record is among all episode matches iff its series is listed, that series' episodes could be fetched, and the episode qualifies as above |
| `Scan.MovieMatchesExact` | internal/app/app.go:102-125 | a record is among the movie matches iff its movie is listed, has a file, has a known file and has a negative score, and the record carries that score |
| `Scan.AllEpisodeMatchesAppend` | internal/app/app.go:29-62 | discovery order: the matches of a listing are the matches of its first part followed by those of the rest |
| `Scan.FailedSeriesSkipped` | internal/app/app.go:32-36 | a series whose episode listing fails only drops that series' episodes; the series before and after are scanned as usual |
| `Scan.Cap` | internal/app/app.go:53-58 | the capped result is the first min(BatchSize, n) items when BatchSize > 0, and all n otherwise |
| `Scan.EpisodeIds` | internal/app/app.go:49-51 | the reference for the pending identifier list: the match episodes' identifiers in match order. That the loop builds exactly this list is the `toSearch` ensures of `Scan.CollectFromSeries` and `Scan.CollectLowScoreEpisodes` |
| `Scan.MovieIds` | internal/app/app.go:113-115 | the reference for the movie pending list: the match movies' identifiers in match order. That the loop builds exactly this list is the loop invariant behind the ensures of `Scan.FindLowScoreMovies` |
| `Scan.StopPointMeaning` | internal/app/app.go:29-58 | the scan fetches episodes for every series up to the one in which the cap is reached, and for none after it |
| `Scan.EpisodeScanSound` | internal/app/app.go:17-46 | for the scan as written: a failed series listing gives the error and nothing else; every returned match has a file with a negative score equal to the record's score, from a listed series |
| `Scan.EpisodeScanCapped` | internal/app/app.go:53-58 | for the scan as written, the episode result is a prefix of all matches: exactly min(BatchSize, eligible) of them when BatchSize > 0, and all of them otherwise |
| `Scan.EpisodeSearchAsWritten` | internal/app/app.go:53-83 | as written, nothing is sent when searching is off, nothing matched, or the cap was reached; when searching is on and the cap was not reached, the commands carry the match identifiers in order, at most ten at a time |
| `Scan.EpisodeSearchCoversMatches` | internal/app/app.go:64-83 | for the corrected scan: nothing is sent when searching is off or nothing matched; when it is on, the commands carry the match identifiers in order, at most ten at a time, whether or not the cap was reached |
| `Scan.MovieSearchCoversMatches` | internal/app/app.go:127-146 | the same for movies |
| `Scan.MovieScanMeaning` | internal/app/app.go:90-125 | a failed movie listing gives the error alone; otherwise the result is the first min(BatchSize, eligible) eligible movies (all of them when BatchSize <= 0), each with its negative file score |
| `Scan.AsWrittenCapSkipsSearch` | internal/app/app.go:55-58 | as written, reaching the cap with searching on sends no command, although BatchSize matches are waiting; the corrected scan sends at least one |
| `Scan.AsWrittenAgreesBelowCap` | internal/app/app.go:53-86 | below the cap, or with searching off, the as-written and corrected episode scans agree |
| `Scan.CollectFromSeries` | internal/app/app.go:39-61 | the episode loop of one series appends that series' matches in order; it stops exactly when the count reaches the cap, and the pending identifiers always equal the match identifiers |
| `Scan.CollectLowScoreEpisodes` | internal/app/app.go:27-62 | the nested loops return the capped matches in discovery order, the identifiers of the series fetched up to the stop point, and whether the cap was reached |
| `Scan.FindLowScoreEpisodes` | internal/app/app.go:17-86 | findLowScoreEpisodes as written equals `ScanEpisodesAsWritten` |
| `Scan.FindLowScoreEpisodesAndSearch` | internal/app/app.go:17-86 | findLowScoreEpisodes with the cap falling through to the search equals `ScanEpisodesCorrected` |
| `Scan.FindLowScoreMovies` | internal/app/app.go:90-149 | findLowScoreMovies equals `ScanMovies`: the movie loop breaks at the cap and the collected movies are still searched |
| `App.SonarrReportsAt` | internal/app/app.go:213-226 | the k-th Sonarr report is the as-written episode scan (`ScanEpisodesAsWritten`) of the k-th configured Sonarr instance |
| `App.RadarrReportsAt` | internal/app/app.go:232-245 | the k-th Radarr report is the scan of the k-th configured Radarr instance |
| `App.RunMeaning` | internal/app/app.go:210-250 | a run scans every Sonarr instance in order with the as-written episode scan, then every Radarr instance with the movie scan; the notice appears iff neither kind is configured, i.e. iff the run scanned nothing |
| `App.RunOnceMeaning` | internal/app/app.go:200-201 | a fatal configuration stops RunOnce before any scan; otherwise RunOnce is the run over the loaded configuration |
| `App.SonarrInstanceIsolated` | internal/app/app.go:219-223 | whatever one Sonarr instance's server does, the reports of every other instance stay the same |
| `App.FailedInstanceReported` | internal/app/app.go:219-223 | an instance whose series listing fails is reported with that error, no fetches and no commands |
| `App.RunsAt` | internal/app/app.go:262-269 | the k-th daemon run is the run over the k-th world |
| `App.DaemonRunsInOrder` | internal/app/app.go:262-269 | the first run happens before any tick, and run k+1 belongs to tick k |
| `App.CorrectedScanDiffersOnlyAtCap` | internal/app/app.go:55-58 | for one server, the as-written and corrected episode scans are equal iff not (searching on and cap reached); when they differ, the as-written one has the same result and fetches but no commands, while the corrected one has at least one |
| `App.CorrectedRunDiffersOnlyAtCap` | internal/app/app.go:211-227 | the run as written and the corrected run have the same shape, and report k is the same in both iff it is not a Sonarr instance whose scan reaches the cap with searching on |
| `App.DaemonMeaning` | internal/app/app.go:254-270 | the daemon starts iff the configuration loads and the interval is positive; after n ticks it has done n+1 runs, each exactly a RunOnce |
| `App.ScanSonarrInstances` | internal/app/app.go:211-227 | the Sonarr loop, calling findLowScoreEpisodes as written, produces the Sonarr reports of the specification |
| `App.ScanRadarrInstances` | internal/app/app.go:230-246 | the Radarr loop produces the Radarr reports of the specification |
| `App.RunOnce` | internal/app/app.go:200-251 | RunOnce equals `RunOnceSpec` |
| `App.RunDaemon` | internal/app/app.go:254-270 | RunDaemon over a finite stretch of ticks equals `DaemonSpec` |
| `Logger.ToUpper` | internal/logger/logger.go:104 | upper-casing keeps the length and upper-cases every position |
| `Logger.LevelName` | internal/logger/logger.go:185-202 | GetLevel's name is one of the four names, and "INFO" for a level outside them |
| `Logger.ParseLogLevel` | internal/logger/logger.go:103-116 | the result is one of the four levels; a name that upper-cases to one of the four gives that level; anything else, including "", gives INFO |
| `Logger.LevelsOrdered` | internal/logger/logger.go:14-23 | ERROR < INFO < DEBUG < VERBOSE |
| `Logger.EmitsMonotone` | internal/logger/logger.go:142-182 | raising the level never suppresses a message that a lower level writes |
| `Logger.ParseIgnoresCase` | internal/logger/logger.go:103-116 | two names equal up to ASCII case parse to the same level |
| `Logger.LevelNameRoundTrip` | internal/logger/logger.go:185-202 | parsing the name of each level gives that level back |
| `Logger.KnownNameParses` | internal/logger/logger.go:103-116 | each of the four names is upper case already, and parses to the level with that name |
| `Logger.Logging.constructor` | internal/logger/logger.go:35 | at program start there is no logger and nothing has been written |
| `Logger.Logging.Init` | internal/logger/logger.go:38-48 | Init replaces any previous logger with a console logger at exactly the given level: errors to stderr, the rest to stdout, each with its prefix |
| `Logger.Logging.InitFromString` | internal/logger/logger.go:83-86 | InitFromString is Init at the parsed level |
| `Logger.Logging.SetOutput` | internal/logger/logger.go:119-126 | SetOutput points all four sub-loggers at the writer, and does nothing before Init |
| `Logger.Logging.Error` | internal/logger/logger.go:128-140 | Error writes one line with the error prefix whenever a logger exists, whatever its level |
| `Logger.Logging.Info` | internal/logger/logger.go:142-154 | Info writes one line iff a logger exists and its level is at least INFO |
| `Logger.Logging.Debug` | internal/logger/logger.go:156-168 | Debug writes one line iff a logger exists and its level is at least DEBUG |
| `Logger.Logging.Verbose` | internal/logger/logger.go:170-182 | Verbose writes one line iff a logger exists and its level is at least VERBOSE |
| `Logger.Logging.GetLevel` | internal/logger/logger.go:185-188 | GetLevel is "INFO" without a logger, and otherwise the current level's name |
| `Logger.Logging.Close` | internal/logger/logger.go:95-100 | Close reports the file's close error when a log file is open, and no error otherwise |
| `Logger.GetLevelAfterInit` | internal/logger/logger.go:83-86 | initialising from any of the four names and asking for the level gives that name back |
| `Logger.EmitAllLevels` | internal/logger/logger.go:129-182 | after Init(level) and SetOutput(buffer), the four emitters write exactly the lines their gates allow, each with its prefix and in call order |
| `Logger.UninitialisedIsSafe` | internal/logger/logger.go:95-100 | without Init the emitters and SetOutput write nothing, GetLevel is "INFO" and Close reports no error |
| `Config.CustomHandler.constructor` | internal/config/config.go:19-22 | the handler keeps its writer and level |
| `Config.CustomHandler.WithAttrs` | internal/config/config.go:38-40 | WithAttrs returns the very same handler |
| `Config.CustomHandler.WithGroup` | internal/config/config.go:42-44 | WithGroup returns the very same handler |
| `Config.CustomHandler.Enabled` | internal/config/config.go:24-26 | the level gate of the handler: a record passes when its level is at least the handler's. `Config.EnabledIsThreshold` states it as an iff, with its monotonicity |
| `Config.EnabledIsThreshold` | internal/config/config.go:24-26 | a record is handled iff its level is at least the handler's: enabled for a level means enabled for every higher one, and disabled below the handler's level |
| `Config.DebugHandlerEnablesAll` | internal/config/config.go:47-53 | the handler installed at debug level lets debug, info, warning and error records through |
| `Config.StringField` | internal/config/config.go:140 | the comma-ok assertion succeeds iff the key is present and holds a string, and then yields that string |
| `Config.RuneString` | internal/config/config.go:144 | `string(rune(c))` is one character: code c when c is a Unicode scalar value, U+FFFD otherwise |
| `Config.DefaultName` | internal/config/config.go:140-146 | a nameless map is "default" at index 0 and, at every index i > 0, "instance" followed by the character '0'+i, or by U+FFFD when '0'+i is not a Unicode scalar value |
| `Config.DefaultNameExamples` | internal/config/config.go:140-146 | the fallback names are "default", "instance1" … "instance9", and "instance:" for the eleventh map |
| `Config.InstanceFromRaw` | internal/config/config.go:140-162 | one decoded map becomes an instance exactly when it has string `baseurl` and `apikey` fields, with the name from `name` or the default name. A missing baseurl is reported first, then a missing apikey, each under the instance's display name |
| `Config.BuildInstancesOk` | internal/config/config.go:137-163 | the list builds iff every map has a string baseurl and apikey; it then holds one config per map, in order, with the fields copied and the name defaulted |
| `Config.BuildInstancesErr` | internal/config/config.go:148-156 | a failed list reports the first incomplete map: its missing baseurl if absent, its missing apikey otherwise, under its display name |
| `Config.FirstErrorStands` | internal/config/config.go:148-156 | a fatal map ends the loop: no later map changes the outcome |
| `Config.NoMapsNoInstances` | internal/config/config.go:137-139 | an empty or undecodable list gives zero instances |
| `Config.LoadInstances` | internal/config/config.go:137-163 | the instance loop yields exactly `BuildInstances`, or the first fatal error |
| `Config.LoadMeaning` | internal/config/config.go:104-197 | Load succeeds iff the interval parses and both lists build; it copies the scalars, builds the two lists independently by the same rules, and a Sonarr error wins |
| `Config.Load` | internal/config/config.go:104-197 | Load equals `LoadSpec` |
| `Fixtures.FixtureMatches` | internal/testhelpers/testhelpers.go:108-160 | the fixture's matches are Pilot (-10) in the first series and Uno (-5) in the second; episode 102 (score 5) is not a match |
| `Fixtures.EpisodesAtBatchFive` | internal/app/app_test.go:32-55 | at batch size 5 the fixture gives both matches and fetches both series; with searching on, one command for [101, 201] is accepted (the program's scan, which stays below the cap here) |
| `Fixtures.EpisodesAtBatchOne` | internal/app/app_test.go:68-79 | at batch size 1 with searching on there is one match and one series fetched; as written no command is sent, and the corrected scan sends [101] |
| `Fixtures.NoSeries` | internal/app/app_test.go:80-91 | in the program's scan, an empty series listing finds, fetches and sends nothing |
| `Fixtures.MoviesFixture` | internal/app/app_test.go:144-187 | at batch size 5, 0 or 1 only The Matrix qualifies; with searching on it alone is searched |
| `Fixtures.TwoUnnamedInstances` | internal/config/config_test.go:167-195 | two maps without names become "default" and "instance1" |
| `Fixtures.ParseCanonicalNames` | internal/logger/logger_test.go:16-19 | the four names parse to their levels |
| `Fixtures.ParseMixedCase` | internal/logger/logger_test.go:20-21 | "info" parses to INFO and "Debug" to DEBUG |
| `Fixtures.ParseUnknownNames` | internal/logger/logger_test.go:22-23 | "INVALID" and "" parse to INFO |

## Left out

- HTTP transport: URL building, headers, JSON encoding and decoding, and `http.Client`. A server is a value that fixes the status and payload of each call. An answer that cannot be decoded is not modelled.
- Console output: the `fmt.Printf` progress lines and `printLowScoreEpisodes`/`printLowScoreMovies` (internal/app/app.go:152-197). Which branch prints, found or not found, follows from whether the reported matches are empty. The printed text itself is not modelled.
- The `log.Printf` warnings of the engine (a failed episode listing, a failed search command): only their effect is modelled, that the item is skipped and the loop goes on.
- Timing: `time.NewTicker`, the wall clock and the timestamp of a scheduled run. The daemon is an unbounded loop; the model covers its first run plus any finite number of ticks.
- A non-positive interval is modelled as `NonPositiveInterval`. In Go, `time.NewTicker` panics on such an interval after the first log lines, so the daemon never runs.
- cmd/score-checker/main.go (cobra wiring, the signal goroutine, `os.Exit`) is not part of this model.
- The configuration library: defaults, environment and file loading, and `time.ParseDuration`. Their results are the `Settings` input.
- Load also writes `LogLevel` into the `Config` record. The Go struct in internal/types/types.go does not declare that field; the model adds it.
- Logger file output: `InitWithFile`, `InitFromStringWithFile`, `initLogger`, `initLoggerWithFile`. These create directories and open files. A logger's open file is modelled only as the error closing it would report.
- `customHandler.Handle`: it formats the timestamp and writes the line; that is output formatting.
- The `f` variants of the logger (`Errorf`, `Infof`, `Debugf`, `Verbosef`) have the same gates as their plain counterparts and are modelled by the same methods. The message is the already formatted string, and Printf formatting is not modelled.
- Logger.ToUpper: upper-cases ASCII letters only. Go's `strings.ToUpper` is Unicode-aware, so a non-ASCII name that Go would map onto one of the four level names parses to INFO in the model.
- Config.RuneString: the code is an unbounded integer, while Go's `rune(...)` conversion at internal/config/config.go:144 truncates it to 32 bits first. So a code of 2^32 or more gives U+FFFD in the model, where Go gives the character of the truncated code (U+FFFD only if that code is not a scalar value either).
- Config.DefaultName: inherits that bound. The first index where it differs from Go is i = 2^32 - 48: Go gives "instance\x00" and the model gives "instance" followed by U+FFFD. No configuration has that many instances.
- Log line timestamps: Go's loggers prefix each line with the date, time and microseconds (internal/logger/logger.go:39, 52). A modelled `Line` has only the writer, the prefix and the message.
- Error wrapping: app.go and the clients wrap errors with `fmt.Errorf("...: %w")` (for example internal/app/app.go:21, 94). The model keeps only the inner `ClientError`, so the wrapped message text is not modelled.
- Nothing is concurrent. The only goroutine, the signal handler, belongs to main.go.

## Findings

| source | as written | input that shows it | evidently intended | confidence | as-written member | corrected member |
|---|---|---|---|---|---|---|
| internal/app/app.go:55-58 | reaching the batch limit returns from findLowScoreEpisodes before the search block at lines 64-83, so the collected episodes are never searched | searching on, batch size 1, the series fixture of internal/testhelpers/testhelpers.go:108-160: one match (episode 101) and no command sent (`Scan.AsWrittenCapSkipsSearch`, `Fixtures.EpisodesAtBatchOne`) | the cap only stops the scan, and the collected episodes are still searched, as in the movie path (internal/app/app.go:119-128) and as internal/app/app_test.go:68-79 expects ("should still trigger search") | not executed | `Scan.FindLowScoreEpisodes` | `Scan.FindLowScoreEpisodesAndSearch` |

The run and the daemon follow the program as written, so `App.RunOnce` and `App.RunDaemon` call `Scan.FindLowScoreEpisodes`. `App.CorrectedRun` is the run under the corrected scan, and `App.CorrectedRunDiffersOnlyAtCap` states exactly which reports the correction changes.
