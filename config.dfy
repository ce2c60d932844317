/**
 * The configuration of the backend: the built-in defaults, `load_config` merging a
 * configuration file over them, the memoised `get_config`, and the environment
 * overrides for the capture interface and the alert mail settings.
 *
 * The file system and the environment are inputs: what reading `config.json` gave,
 * and the value of each environment variable (`None` when it is not set).
 */
module Config {
  import opened Wrappers
  import opened Text
  import opened Seqs

  /** A value as `json.load` returns it. */
  datatype Json =
    | Null
    | Bool(b: bool)
    | Int(i: int)
    | Real(r: real)
    | Str(s: string)
    | List(items: seq<Json>)
    | Object(fields: Dict)

  type Dict = map<string, Json>

  /** Python's truth value of a JSON value. */
  predicate Truthy(v: Json) {
    match v
    case Null => false
    case Bool(b) => b
    case Int(i) => i != 0
    case Real(r) => r != 0.0
    case Str(s) => s != ""
    case List(items) => items != []
    case Object(fields) => fields != map[]
  }

  const DEFAULT_INTERFACE: string := @"\Device\NPF_{C22FD80A-F612-4AD1-9A09-6B940C6353B7}"

  const DEFAULT_CONFIG: Dict := map[
    "network_interface" := Str(DEFAULT_INTERFACE),
    "detection" := Object(map[
      "ddos_threshold" := Int(300),
      "port_scan_threshold" := Int(10),
      "sql_injection_threshold" := Int(3),
      "xss_threshold" := Int(3),
      "syn_flood_threshold" := Int(200),
      "syn_ack_ratio_threshold" := Real(0.1),
      "time_window_seconds" := Int(10)]),
    "alerts" := Object(map[
      "enabled" := Bool(true),
      "throttle_seconds" := Int(300),
      "smtp_server" := Str("smtp.gmail.com"),
      "smtp_port" := Int(587)]),
    "osint" := Object(map[
      "feodo_tracker_url" := Str("https://feodotracker.abuse.ch/downloads/ipblocklist.txt"),
      "urlhaus_url" := Str("https://urlhaus.abuse.ch/downloads/text/"),
      "update_interval_hours" := Int(24)]),
    "geolocation" := Object(map[
      "enabled" := Bool(true),
      "api_provider" := Str("ipapi"),
      "api_key" := Null]),
    "storage" := Object(map[
      "log_file" := Str("data/realtime_logs.csv"),
      "alert_history_file" := Str("data/alert_history.json")])]

  // ------------------------------------------------------------------ load_config

  /** What reading `config.json` gives: there is no file, it cannot be read or is
      not JSON, or it parsed to a value. */
  datatype ConfigFile = Missing | Broken | Parsed(value: Json)

  /** The configuration `load_config` returns, and whether it wrote the defaults to
      the file. */
  datatype Loaded = Loaded(config: Dict, savedDefaults: bool)

  /** `if name in config: merged[name].update(config[name])`. Only a dictionary has
      `update`, so a section that is not an object raises (`None`). */
  function UpdateSection(merged: Option<Dict>, file: Dict, name: string): (r: Option<Dict>)
    requires merged.Some? ==> file.Keys <= merged.value.Keys
    ensures r.Some? ==> merged.Some? && r.value.Keys == merged.value.Keys
    ensures merged.Some? && name !in file ==> r == merged
  {
    if merged.None? || name !in file then merged
    else
      var target := merged.value[name];
      if target.Object? && file[name].Object? then
        Some(merged.value[name := Object(target.fields + file[name].fields)])
      else None
  }

  /** `merged = DEFAULT_CONFIG.copy(); merged.update(config)` followed by the five
      section updates; `None` when one of them raised. */
  function Merge(file: Dict): Option<Dict> {
    var merged := Some(DEFAULT_CONFIG + file);
    var m1 := UpdateSection(merged, file, "detection");
    var m2 := UpdateSection(m1, file, "alerts");
    var m3 := UpdateSection(m2, file, "osint");
    var m4 := UpdateSection(m3, file, "geolocation");
    UpdateSection(m4, file, "storage")
  }

  /** `load_config`: a missing file is created with the defaults, an unreadable or
      unparsable file, a top-level value that is not an object and a raising
      section update all give the defaults. */
  function LoadConfig(f: ConfigFile): (r: Loaded)
    ensures r.savedDefaults <==> f.Missing?
    ensures DEFAULT_CONFIG.Keys <= r.config.Keys
    ensures !f.Parsed? ==> r.config == DEFAULT_CONFIG
  {
    match f
    case Missing => Loaded(DEFAULT_CONFIG, true)
    case Broken => Loaded(DEFAULT_CONFIG, false)
    case Parsed(v) =>
      if !v.Object? then Loaded(DEFAULT_CONFIG, false)
      else
        var m := Merge(v.fields);
        Loaded(if m.Some? then m.value else DEFAULT_CONFIG, false)
  }

  /** The file's own value for a section is what `merged` holds once the top-level
      update has run, and updating a dictionary with itself changes nothing. */
  lemma UpdateSectionSelf(merged: Dict, file: Dict, name: string)
    requires file.Keys <= merged.Keys
    requires name in file ==> merged[name] == file[name]
    ensures name in file && !file[name].Object? ==> UpdateSection(Some(merged), file, name).None?
    ensures name !in file || file[name].Object? ==> UpdateSection(Some(merged), file, name) == Some(merged)
  {
    if name in file && file[name].Object? {
      var t := file[name].fields;
      assert t + t == t;
      assert merged[name := Object(t + t)] == merged;
    }
  }

  /** Every section in the file that `load_config` updates is an object. */
  predicate SectionsAreObjects(file: Dict) {
    ("detection" in file ==> file["detection"].Object?)
    && ("alerts" in file ==> file["alerts"].Object?)
    && ("osint" in file ==> file["osint"].Object?)
    && ("geolocation" in file ==> file["geolocation"].Object?)
    && ("storage" in file ==> file["storage"].Object?)
  }

  /** The merge is shallow: the section updates undo nothing and add nothing, so
      the result is the defaults overridden key by key by the file, or the defaults
      when a section is not an object. */
  lemma {:induction false} MergeShallow(file: Dict)
    ensures SectionsAreObjects(file) ==> Merge(file) == Some(DEFAULT_CONFIG + file)
    ensures !SectionsAreObjects(file) ==> Merge(file).None?
  {
    var m := DEFAULT_CONFIG + file;
    UpdateSectionSelf(m, file, "detection");
    UpdateSectionSelf(m, file, "alerts");
    UpdateSectionSelf(m, file, "osint");
    UpdateSectionSelf(m, file, "geolocation");
    UpdateSectionSelf(m, file, "storage");
  }

  /** Keys of the file override the defaults, default keys the file lacks keep
      their values, and a section the file gives is exactly the file's section. */
  lemma LoadOverrides(file: Dict, k: string)
    requires SectionsAreObjects(file)
    ensures var c := LoadConfig(Parsed(Object(file))).config;
            (k in file ==> k in c && c[k] == file[k])
            && (k !in file && k in DEFAULT_CONFIG ==> k in c && c[k] == DEFAULT_CONFIG[k])
            && (k in c <==> k in file || k in DEFAULT_CONFIG)
  {
    MergeShallow(file);
  }

  /** A file whose `detection` section sets only the DDoS threshold loses the other
      default detection settings: nested sections are not merged with their
      defaults. */
  lemma NestedDefaultsLost()
    ensures var file := map["detection" := Object(map["ddos_threshold" := Int(50)])];
            var c := LoadConfig(Parsed(Object(file))).config;
            c["detection"] == Object(map["ddos_threshold" := Int(50)])
            && "time_window_seconds" !in c["detection"].fields
  {
    var file := map["detection" := Object(map["ddos_threshold" := Int(50)])];
    MergeShallow(file);
  }

  /** A section that is not an object makes the whole file fall back to the
      defaults, even the keys that were given correctly. */
  lemma BadSectionFallsBack(file: Dict, name: string)
    requires name in {"detection", "alerts", "osint", "geolocation", "storage"}
    requires name in file && !file[name].Object?
    ensures LoadConfig(Parsed(Object(file))) == Loaded(DEFAULT_CONFIG, false)
  {
    MergeShallow(file);
  }

  // ------------------------------------------------------------------ get_config

  /** `get_config` and the `_config` attribute it stores the first load in. */
  class ConfigCache {
    var cached: Option<Dict>

    constructor ()
      ensures cached == None
    {
      cached := None;
    }

    /** The first call loads the file; every later call returns the stored
        configuration whatever the file now holds, and writes nothing. */
    method GetConfig(f: ConfigFile) returns (c: Dict, savedDefaults: bool)
      modifies this
      ensures old(cached).Some? ==> c == old(cached).value && cached == old(cached) && !savedDefaults
      ensures old(cached).None? ==> c == LoadConfig(f).config && savedDefaults == f.Missing?
      ensures cached == Some(c)
    {
      if cached.Some? {
        return cached.value, false;
      }
      var loaded := LoadConfig(f);
      cached := Some(loaded.config);
      c, savedDefaults := loaded.config, loaded.savedDefaults;
    }
  }

  // ------------------------------------------------------------------ environment

  /** `os.getenv(name) or fallback`: an unset or empty variable does not count. */
  predicate Given(v: Option<string>) {
    v.Some? && v.value != ""
  }

  /** `get_network_interface`: the `NETWORK_INTERFACE` variable when it is set and
      not empty, the configured value otherwise. */
  function NetworkInterface(env: Option<string>, config: Dict): (r: Json)
    requires "network_interface" in config
    ensures Given(env) ==> r == Str(env.value)
    ensures !Given(env) ==> r == config["network_interface"]
  {
    if Given(env) then Str(env.value) else config["network_interface"]
  }

  /** The interface is always defined, and without the variable and without a file
      setting it is the built-in one. */
  lemma InterfaceDefault(env: Option<string>, f: ConfigFile)
    requires !Given(env)
    requires f.Parsed? && f.value.Object? ==> "network_interface" !in f.value.fields
    ensures "network_interface" in LoadConfig(f).config
    ensures NetworkInterface(env, LoadConfig(f).config) == Str(DEFAULT_INTERFACE)
  {
    if f.Parsed? && f.value.Object? {
      MergeShallow(f.value.fields);
    }
  }

  /** `os.getenv(name) or None`: an empty value becomes `None`. */
  function OrNone(v: Option<string>): (r: Option<string>)
    ensures r.Some? <==> Given(v)
    ensures r.Some? ==> r == v
  {
    if Given(v) then v else None
  }

  function NonBlank(): string -> bool {
    s => Strip(s) != ""
  }

  /** `[e.strip() for e in os.getenv(name, "").split(",") if e.strip()]`. */
  function Recipients(env: Option<string>): (r: seq<string>)
  {
    var raw := if env.Some? then env.value else "";
    Map(Filter(SplitOn(raw, ','), NonBlank()), Strip)
  }

  /** Every recipient is a non-empty address without commas or surrounding white
      space. */
  lemma RecipientsClean(env: Option<string>, i: nat)
    requires i < |Recipients(env)|
    ensures var x := Recipients(env)[i];
            x != "" && ',' !in x && Strip(x) == x
  {
    var raw := if env.Some? then env.value else "";
    var kept := Filter(SplitOn(raw, ','), NonBlank());
    assert kept[i] in kept;
    FilterMembers(SplitOn(raw, ','), NonBlank(), kept[i]);
    StripWithin(kept[i], ',');
    StripTwice(kept[i]);
  }

  /** An unset or blank variable gives no recipients. */
  lemma RecipientsBlank(env: Option<string>)
    requires env.Some? ==> Strip(env.value) == ""
    ensures Recipients(env) == []
  {
    var raw := if env.Some? then env.value else "";
    forall k | 0 <= k < |SplitOn(raw, ',')| ensures !NonBlank()(SplitOn(raw, ',')[k]) {
      BlankPieces(raw, k);
    }
    FilterNone(SplitOn(raw, ','), NonBlank());
  }

  /** Every piece of a blank text is blank. */
  lemma BlankPieces(raw: string, k: nat)
    requires Strip(raw) == "" && k < |SplitOn(raw, ',')|
    ensures Strip(SplitOn(raw, ',')[k]) == ""
  {
    StripSpec(raw);
    var piece := SplitOn(raw, ',')[k];
    forall j | 0 <= j < |piece| ensures IsSpace(piece[j]) {
      SplitOnFactor(raw, ',', k, j);
    }
    StripSpec(piece);
  }

  /** Stripping a stripped text changes nothing. */
  lemma StripTwice(s: string)
    ensures Strip(Strip(s)) == Strip(s)
  {
    StripSpec(s);
    var t := Strip(s);
    if t != [] {
      assert StripLeft(t) == t;
      assert StripRight(t) == t;
    }
  }

  /** Writing the addresses comma-separated and reading the variable back gives
      the same list. */
  lemma RecipientsRoundTrip(addresses: seq<string>)
    requires |addresses| >= 1
    requires forall k :: 0 <= k < |addresses| ==>
               addresses[k] != "" && ',' !in addresses[k] && Strip(addresses[k]) == addresses[k]
    ensures Recipients(Some(JoinOn(addresses, ','))) == addresses
  {
    JoinSplit(addresses, ',');
    FilterAll(addresses, NonBlank());
  }

  /** `get_alert_email_config`. */
  datatype EmailSettings = EmailSettings(sender: Option<string>, password: Option<string>, recipients: seq<string>)

  function AlertEmailConfig(senderEnv: Option<string>, passwordEnv: Option<string>, recipientsEnv: Option<string>)
    : (r: EmailSettings)
    ensures r.sender.Some? <==> Given(senderEnv)
    ensures r.sender.Some? ==> r.sender == senderEnv
    ensures r.password.Some? <==> Given(passwordEnv)
    ensures r.password.Some? ==> r.password == passwordEnv
    ensures r.recipients == Recipients(recipientsEnv)
  {
    EmailSettings(OrNone(senderEnv), OrNone(passwordEnv), Recipients(recipientsEnv))
  }
}
