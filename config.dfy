// Configuration (internal/config/config.go): the slog handler's level gate and
// the construction of the two instance lists from the untyped maps the
// configuration library decodes. What the library reads from files and the
// environment is an input here (Settings); `log.Fatalf` is an Err result.

module Config {
  import opened Types

  /** The slog levels the handler compares (log/slog's constants). */
  const LevelDebug := -4
  const LevelInfo := 0
  const LevelWarn := 4
  const LevelError := 8

  /** A slog attribute; the handler ignores attributes. */
  datatype Attr = Attr(key: string, value: string)

  /** The handler that writes "date time LEVEL message" lines. */
  class CustomHandler {
    const writer: Writer
    const level: int

    constructor (writer: Writer, level: int)
      ensures this.writer == writer && this.level == level
    {
      this.writer := writer;
      this.level := level;
    }

    /** A record is handled exactly when its level is at least the handler's. */
    predicate Enabled(recordLevel: int)
    {
      recordLevel >= level
    }

    /** Attributes are dropped: the very same handler comes back. */
    method WithAttrs(attrs: seq<Attr>) returns (h: CustomHandler)
      ensures h == this
    {
      h := this;
    }

    /** Groups are dropped: the very same handler comes back. */
    method WithGroup(name: string) returns (h: CustomHandler)
      ensures h == this
    {
      h := this;
    }
  }

  /** A handler is enabled exactly for the levels at or above its own; so
      enabled for some level means enabled for every higher one. */
  lemma EnabledIsThreshold(h: CustomHandler, low: int, high: int)
    requires low <= high
    ensures h.Enabled(low) <==> low >= h.level
    ensures h.Enabled(low) ==> h.Enabled(high)
    ensures low < h.level ==> !h.Enabled(low)
  {
  }

  /** The handler installed at load time, at debug level, lets debug, info,
      warning and error records through. */
  method DebugHandlerEnablesAll(w: Writer) returns (debug: bool, info: bool, warn: bool, error: bool)
    ensures debug && info && warn && error
  {
    var h := new CustomHandler(w, LevelDebug);
    debug, info, warn, error := h.Enabled(LevelDebug), h.Enabled(LevelInfo), h.Enabled(LevelWarn), h.Enabled(LevelError);
  }

  /** Which of the two instance lists is being built (it only changes error messages). */
  datatype ServiceKind = Sonarr | Radarr

  /** A value in a decoded instance map: a string, or something else. */
  datatype RawValue = Str(s: string) | NonString

  /** One decoded instance map; a missing key is absent from the map. */
  type RawInstance = map<string, RawValue>

  /** The fatal configuration errors. */
  datatype LoadError =
    | InvalidInterval
    | MissingBaseUrl(kind: ServiceKind, name: string)
    | MissingApiKey(kind: ServiceKind, name: string)

  /** The comma-ok type assertion `m[key].(string)`. */
  function StringField(m: RawInstance, key: string): (r: Option<string>)
    ensures r.Some? <==> key in m && m[key].Str?
    ensures r.Some? ==> m[key] == Str(r.value)
  {
    if key in m && m[key].Str? then Some(m[key].s) else None
  }

  /** Go's `string(rune(code))`: the character with that code point, or U+FFFD
      when the code is not a Unicode scalar value. */
  function RuneString(code: int): (r: string)
    ensures |r| == 1
    ensures 0 <= code < 0xD800 || 0xE000 <= code < 0x11_0000 ==> r[0] as int == code
    ensures code < 0 || 0xD800 <= code < 0xE000 || 0x11_0000 <= code ==> r[0] == '�'
  {
    if 0 <= code < 0xD800 || 0xE000 <= code < 0x11_0000 then [code as char] else ['�']
  }

  /** The name given to the i-th instance when its map has no string "name". */
  function DefaultName(i: nat): (name: string)
    ensures i == 0 ==> name == "default"
    ensures i > 0 ==> |name| == 9 && name[..8] == "instance"
    ensures 0 < i && ('0' as int + i < 0xD800 || 0xE000 <= '0' as int + i < 0x11_0000) ==>
      name[8] as int == '0' as int + i
    ensures 0xD800 <= '0' as int + i < 0xE000 || 0x11_0000 <= '0' as int + i ==> name[8] == '�'
  {
    if i == 0 then "default" else "instance" + RuneString('0' as int + i)
  }

  function InstanceName(i: nat, m: RawInstance): string {
    match StringField(m, "name")
    case Some(n) => n
    case None => DefaultName(i)
  }

  /** The i-th map turned into a ServiceConfig, or the fatal error it causes. */
  function InstanceFromRaw(kind: ServiceKind, i: nat, m: RawInstance): (r: Result<ServiceConfig, LoadError>)
    ensures r.Ok? <==> StringField(m, "baseurl").Some? && StringField(m, "apikey").Some?
    ensures r.Ok? ==> r.value == ServiceConfig(InstanceName(i, m), m["baseurl"].s, m["apikey"].s)
    ensures StringField(m, "baseurl").None? ==> r == Err(MissingBaseUrl(kind, InstanceName(i, m)))
    ensures StringField(m, "baseurl").Some? && StringField(m, "apikey").None? ==>
      r == Err(MissingApiKey(kind, InstanceName(i, m)))
  {
    var name := InstanceName(i, m);
    match StringField(m, "baseurl")
    case None => Err(MissingBaseUrl(kind, name))
    case Some(baseUrl) =>
      match StringField(m, "apikey")
      case None => Err(MissingApiKey(kind, name))
      case Some(apiKey) => Ok(ServiceConfig(name, baseUrl, apiKey))
  }

  /** Whether a map carries both required string fields. */
  predicate Complete(m: RawInstance) {
    StringField(m, "baseurl").Some? && StringField(m, "apikey").Some?
  }

  /** The list the loader builds: the maps in order, stopping at the first fatal one. */
  function BuildInstances(kind: ServiceKind, raws: seq<RawInstance>): Result<seq<ServiceConfig>, LoadError>
    decreases |raws|
  {
    if raws == [] then Ok([])
    else
      match BuildInstances(kind, raws[..|raws| - 1])
      case Err(e) => Err(e)
      case Ok(built) =>
        match InstanceFromRaw(kind, |raws| - 1, raws[|raws| - 1])
        case Err(e) => Err(e)
        case Ok(c) => Ok(built + [c])
  }

  /** When the list cannot be decoded at all, there are no instances of that kind. */
  function InstancesFrom(kind: ServiceKind, raw: Option<seq<RawInstance>>): Result<seq<ServiceConfig>, LoadError> {
    match raw
    case None => Ok([])
    case Some(raws) => BuildInstances(kind, raws)
  }

  /** The instance list succeeds iff every map is complete; it then holds one
      config per map, in order, with the fields copied and the name defaulted. */
  lemma {:induction false} BuildInstancesOk(kind: ServiceKind, raws: seq<RawInstance>)
    ensures BuildInstances(kind, raws).Ok? <==> forall i :: 0 <= i < |raws| ==> Complete(raws[i])
    ensures BuildInstances(kind, raws).Ok? ==>
      var built := BuildInstances(kind, raws).value;
      |built| == |raws| &&
      forall i :: 0 <= i < |raws| ==>
        built[i] == ServiceConfig(InstanceName(i, raws[i]), raws[i]["baseurl"].s, raws[i]["apikey"].s)
    decreases |raws|
  {
    if raws != [] {
      var init := raws[..|raws| - 1];
      BuildInstancesOk(kind, init);
      assert forall i :: 0 <= i < |init| ==> init[i] == raws[i];
    }
  }

  /** A failed list reports the first incomplete map: its missing base URL if
      that is absent, its missing API key otherwise, under its display name. */
  lemma {:induction false} BuildInstancesErr(kind: ServiceKind, raws: seq<RawInstance>)
    requires BuildInstances(kind, raws).Err?
    ensures exists i :: (0 <= i < |raws| && !Complete(raws[i]) &&
      (forall j :: 0 <= j < i ==> Complete(raws[j])) &&
      BuildInstances(kind, raws) == Err(InstanceFromRaw(kind, i, raws[i]).error))
    decreases |raws|
  {
    var n := |raws| - 1;
    var init := raws[..n];
    assert forall j :: 0 <= j < |init| ==> init[j] == raws[j];
    if BuildInstances(kind, init).Err? {
      BuildInstancesErr(kind, init);
      var i :| 0 <= i < |init| && !Complete(init[i]) &&
        (forall j :: 0 <= j < i ==> Complete(init[j])) &&
        BuildInstances(kind, init) == Err(InstanceFromRaw(kind, i, init[i]).error);
      assert raws[i] == init[i];
    } else {
      BuildInstancesOk(kind, init);
      assert !Complete(raws[n]);
      assert forall j :: 0 <= j < n ==> Complete(raws[j]) by {
        forall j | 0 <= j < n ensures Complete(raws[j]) { assert Complete(init[j]); }
      }
    }
  }

  /** A fatal map stops the loader: later maps cannot change the error. */
  lemma {:induction false} FirstErrorStands(kind: ServiceKind, raws: seq<RawInstance>, i: nat)
    requires i <= |raws| && BuildInstances(kind, raws[..i]).Err?
    ensures BuildInstances(kind, raws) == BuildInstances(kind, raws[..i])
    decreases |raws| - i
  {
    if i < |raws| {
      assert raws[..i + 1][..i] == raws[..i];
      FirstErrorStands(kind, raws, i + 1);
    } else {
      assert raws[..i] == raws;
    }
  }

  /** An empty or undecodable list gives zero instances. */
  lemma NoMapsNoInstances(kind: ServiceKind, raw: Option<seq<RawInstance>>)
    requires raw.None? || raw == Some([])
    ensures InstancesFrom(kind, raw) == Ok([])
  {
  }

  /** The fallback names: "default", then "instance1" and so on, where the
      character after "instance" is the one with code '0' + i, so that the
      tenth fallback is "instance:". */
  lemma DefaultNameExamples()
    ensures DefaultName(0) == "default"
    ensures DefaultName(1) == "instance1"
    ensures DefaultName(9) == "instance9"
    ensures DefaultName(10) == "instance:"
  {
    assert RuneString('0' as int + 1) == "1";
    assert RuneString('0' as int + 9) == "9";
    assert RuneString('0' as int + 10) == ":";
  }

  /** The instance-building loop of Load, for one kind. */
  method LoadInstances(kind: ServiceKind, raw: Option<seq<RawInstance>>) returns (r: Result<seq<ServiceConfig>, LoadError>)
    ensures r == InstancesFrom(kind, raw)
  {
    var instances: seq<ServiceConfig> := [];
    if raw.None? {
      return Ok(instances);
    }
    var raws := raw.value;
    var i := 0;
    while i < |raws|
      invariant 0 <= i <= |raws|
      invariant BuildInstances(kind, raws[..i]) == Ok(instances)
    {
      var instance := raws[i];
      var name := InstanceName(i, instance);
      var baseUrl := StringField(instance, "baseurl");
      assert raws[..i + 1][..i] == raws[..i];
      if baseUrl.None? {
        FirstErrorStands(kind, raws, i + 1);
        return Err(MissingBaseUrl(kind, name));
      }
      var apiKey := StringField(instance, "apikey");
      if apiKey.None? {
        FirstErrorStands(kind, raws, i + 1);
        return Err(MissingApiKey(kind, name));
      }
      instances := instances + [ServiceConfig(name, baseUrl.value, apiKey.value)];
      i := i + 1;
    }
    assert raws[..i] == raws;
    r := Ok(instances);
  }

  /** What the configuration library hands to Load: typed scalars, the parsed
      interval (None when it does not parse) and the two decoded instance lists
      (None when decoding fails). */
  datatype Settings = Settings(
    triggerSearch: bool,
    batchSize: int,
    interval: Option<int>,
    logLevel: string,
    sonarr: Option<seq<RawInstance>>,
    radarr: Option<seq<RawInstance>>)

  /** The configuration Load returns, or the fatal error that ends the process. */
  function LoadSpec(settings: Settings): Result<Config, LoadError> {
    if settings.interval.None? then Err(InvalidInterval)
    else
      match InstancesFrom(Sonarr, settings.sonarr)
      case Err(e) => Err(e)
      case Ok(sonarr) =>
        match InstancesFrom(Radarr, settings.radarr)
        case Err(e) => Err(e)
        case Ok(radarr) =>
          Ok(Config(sonarr, radarr, settings.triggerSearch, settings.batchSize,
                    settings.interval.value, settings.logLevel))
  }

  /** A loaded configuration copies the scalars and holds the two lists built
      independently by the same rules; the Sonarr list is checked first. */
  lemma LoadMeaning(settings: Settings)
    ensures LoadSpec(settings).Ok? <==>
      settings.interval.Some? && InstancesFrom(Sonarr, settings.sonarr).Ok? && InstancesFrom(Radarr, settings.radarr).Ok?
    ensures LoadSpec(settings).Ok? ==>
      var cfg := LoadSpec(settings).value;
      cfg.sonarrInstances == InstancesFrom(Sonarr, settings.sonarr).value &&
      cfg.radarrInstances == InstancesFrom(Radarr, settings.radarr).value &&
      cfg.triggerSearch == settings.triggerSearch && cfg.batchSize == settings.batchSize &&
      cfg.interval == settings.interval.value && cfg.logLevel == settings.logLevel
    ensures settings.interval.Some? && InstancesFrom(Sonarr, settings.sonarr).Err? ==>
      LoadSpec(settings) == Err(InstancesFrom(Sonarr, settings.sonarr).error)
  {
  }

  /** Load, from the interval check to the two instance loops. */
  method Load(settings: Settings) returns (r: Result<Config, LoadError>)
    ensures r == LoadSpec(settings)
  {
    if settings.interval.None? {
      return Err(InvalidInterval);
    }
    var sonarr := LoadInstances(Sonarr, settings.sonarr);
    if sonarr.Err? {
      return Err(sonarr.error);
    }
    var radarr := LoadInstances(Radarr, settings.radarr);
    if radarr.Err? {
      return Err(radarr.error);
    }
    r := Ok(Config(sonarr.value, radarr.value, settings.triggerSearch, settings.batchSize,
                   settings.interval.value, settings.logLevel));
  }
}
