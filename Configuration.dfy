/**
 * The server configuration: defaults, override from a parsed JSON file, interpretation of
 * environment strings, saving under the file's key names, and the three setters.
 * Numbers are integers here; `Number(...)` on an environment string is a caller-supplied parse.
 */
module Configuration {
  import opened Wrappers
  import opened Strings

  /** A parsed JSON value, as far as the configuration's fields go. */
  datatype Json = JNull | JBool(b: bool) | JNum(n: int) | JStr(s: string)

  /** A parsed JSON object; a key that is not in the map reads as `undefined`. */
  type JsonObject = map<string, Json>

  datatype ConfigError = NoConfigPath | UnreadableFile

  datatype ConfigValues = ConfigValues(
    hostname: string,
    port: int,
    tlsEnabled: bool,
    tlsCertPath: Option<string>,
    tlsKeyPath: Option<string>,
    tlsPassphrase: Option<string>,
    rateLimitEnabled: bool,
    rateLimitExpires: int,
    rateLimitCap: int)

  /** What the constructor assigns; the three TLS paths stay `undefined`. */
  function Defaults(): ConfigValues {
    ConfigValues("localhost", 9753, false, None, None, None, false, 10, 10)
  }

  /** The keys `loadFile` reads. */
  const FileKeys: set<string> := {"hostname", "port", "tlsEnabled", "tlsCertPath", "tlsKeyPath",
                                  "tlsPassphrase", "rateLimitEnabled", "rateLimitExpires", "rateLimitCap"}

  // ---------- loadFile ----------

  /** `json[key] ?? ...` falls back exactly when the key is `undefined` (absent) or `null`. */
  predicate Given(json: JsonObject, key: string) {
    key in json && json[key] != JNull
  }

  predicate StringOrNothing(json: JsonObject, key: string) {
    Given(json, key) ==> json[key].JStr?
  }

  predicate NumberOrNothing(json: JsonObject, key: string) {
    Given(json, key) ==> json[key].JNum?
  }

  predicate BoolOrNothing(json: JsonObject, key: string) {
    Given(json, key) ==> json[key].JBool?
  }

  /** Every key `loadFile` reads holds null, nothing, or a value of the field's declared type. */
  predicate WellTyped(json: JsonObject) {
    && StringOrNothing(json, "hostname") && NumberOrNothing(json, "port")
    && BoolOrNothing(json, "tlsEnabled") && StringOrNothing(json, "tlsCertPath")
    && StringOrNothing(json, "tlsKeyPath") && StringOrNothing(json, "tlsPassphrase")
    && BoolOrNothing(json, "rateLimitEnabled") && NumberOrNothing(json, "rateLimitExpires")
    && NumberOrNothing(json, "rateLimitCap")
  }

  function StringOr(json: JsonObject, key: string, default: string): string
    requires StringOrNothing(json, key)
  {
    if Given(json, key) then json[key].s else default
  }

  function OptionalStringOr(json: JsonObject, key: string, default: Option<string>): Option<string>
    requires StringOrNothing(json, key)
  {
    if Given(json, key) then Some(json[key].s) else default
  }

  function NumberOr(json: JsonObject, key: string, default: int): int
    requires NumberOrNothing(json, key)
  {
    if Given(json, key) then json[key].n else default
  }

  function BoolOr(json: JsonObject, key: string, default: bool): bool
    requires BoolOrNothing(json, key)
  {
    if Given(json, key) then json[key].b else default
  }

  /** The field-by-field override of the defaults that `loadFile` performs. */
  function MergeFile(json: JsonObject): ConfigValues
    requires WellTyped(json)
  {
    var d := Defaults();
    ConfigValues(
      StringOr(json, "hostname", d.hostname),
      NumberOr(json, "port", d.port),
      BoolOr(json, "tlsEnabled", d.tlsEnabled),
      OptionalStringOr(json, "tlsCertPath", d.tlsCertPath),
      OptionalStringOr(json, "tlsKeyPath", d.tlsKeyPath),
      OptionalStringOr(json, "tlsPassphrase", d.tlsPassphrase),
      BoolOr(json, "rateLimitEnabled", d.rateLimitEnabled),
      NumberOr(json, "rateLimitExpires", d.rateLimitExpires),
      NumberOr(json, "rateLimitCap", d.rateLimitCap))
  }

  /**
   * `loadFile(path)`: an empty path throws; `file` is the parsed content of the file, `None`
   * when it cannot be read or parsed (which also throws).
   */
  function LoadFileValues(path: string, file: Option<JsonObject>): (r: Result<ConfigValues, ConfigError>)
    requires file.Some? ==> WellTyped(file.value)
    ensures path == "" ==> r == Failure(NoConfigPath)
    ensures path != "" && file.None? ==> r == Failure(UnreadableFile)
    ensures path != "" && file.Some? ==> r == Success(MergeFile(file.value))
  {
    if path == "" then Failure(NoConfigPath)
    else if file.None? then Failure(UnreadableFile)
    else Success(MergeFile(file.value))
  }

  /** A file with none of the keys, or with all of them null, yields the defaults. */
  lemma EmptyFileGivesDefaults(json: JsonObject)
    requires forall k :: k in FileKeys ==> !Given(json, k)
    ensures WellTyped(json) && MergeFile(json) == Defaults()
  {
  }

  /** Keys other than the nine fields are ignored. */
  lemma ExtraKeysIgnored(json: JsonObject, extra: JsonObject)
    requires WellTyped(json)
    requires forall k :: k in extra ==> k !in FileKeys
    ensures WellTyped(json + extra) && MergeFile(json + extra) == MergeFile(json)
  {
    assert forall k :: k in FileKeys ==> Given(json + extra, k) == Given(json, k);
    assert forall k :: k in FileKeys && k in json ==> (json + extra)[k] == json[k];
  }

  /**
   * Each of the nine fields, read under its file key, is the file's value when the key is given
   * and the default's value when it is absent or null, whatever the other keys hold.
   */
  lemma GivenFieldOverrides(json: JsonObject)
    requires WellTyped(json)
    ensures forall k :: k in FileKeys ==> k in FileFields(MergeFile(json)) && k in FileFields(Defaults())
    ensures forall k :: k in FileKeys && Given(json, k) ==> FileFields(MergeFile(json))[k] == Some(json[k])
    ensures forall k :: k in FileKeys && !Given(json, k) ==> FileFields(MergeFile(json))[k] == FileFields(Defaults())[k]
  {
  }

  // ---------- loadEnvironmentVariables ----------

  /** An environment variable is truthy when it is set and not the empty string. */
  predicate Truthy(env: map<string, string>, key: string) {
    key in env && env[key] != ""
  }

  /** `env[key] ? env[key] === 'true' : default`. */
  function FlagOr(env: map<string, string>, key: string, default: bool): bool {
    if Truthy(env, key) then env[key] == "true" else default
  }

  function NumberFromEnvOr(env: map<string, string>, key: string, parse: string -> int, default: int): int {
    if Truthy(env, key) then parse(env[key]) else default
  }

  function PathFromEnvOr(env: map<string, string>, key: string, default: Option<string>): Option<string> {
    if Truthy(env, key) then Some(env[key]) else default
  }

  /**
   * `loadEnvironmentVariables()` on the environment `env`. `HOSTNAME` uses `??` (only an unset
   * variable falls back); every other field uses a truthiness test (unset or empty falls back).
   */
  function EnvironmentValues(env: map<string, string>, parse: string -> int): ConfigValues {
    var d := Defaults();
    ConfigValues(
      if "HOSTNAME" in env then env["HOSTNAME"] else d.hostname,
      NumberFromEnvOr(env, "PORT", parse, d.port),
      FlagOr(env, "TLS_ENABLED", d.tlsEnabled),
      PathFromEnvOr(env, "TLS_CERT_PATH", d.tlsCertPath),
      PathFromEnvOr(env, "TLS_KEY_PATH", d.tlsKeyPath),
      PathFromEnvOr(env, "TLS_PASSPHRASE", d.tlsPassphrase),
      FlagOr(env, "RATE_LIMIT_ENABLED", d.rateLimitEnabled),
      NumberFromEnvOr(env, "RATE_LIMIT_EXPIRES", parse, d.rateLimitExpires),
      NumberFromEnvOr(env, "RATE_LIMIT_CAP", parse, d.rateLimitCap))
  }

  const EnvKeys: set<string> := {"HOSTNAME", "PORT", "TLS_ENABLED", "TLS_CERT_PATH", "TLS_KEY_PATH",
                                 "TLS_PASSPHRASE", "RATE_LIMIT_ENABLED", "RATE_LIMIT_EXPIRES", "RATE_LIMIT_CAP"}

  /** The two flags are on exactly when their variable is the string "true"; otherwise off. */
  lemma EnvironmentFlags(env: map<string, string>, parse: string -> int)
    ensures EnvironmentValues(env, parse).tlsEnabled <==> ("TLS_ENABLED" in env && env["TLS_ENABLED"] == "true")
    ensures EnvironmentValues(env, parse).rateLimitEnabled <==>
              ("RATE_LIMIT_ENABLED" in env && env["RATE_LIMIT_ENABLED"] == "true")
  {
  }

  /** An empty value counts as unset for every variable except `HOSTNAME`, whose empty value is kept. */
  lemma EmptyEnvironmentValue(env: map<string, string>, parse: string -> int, key: string)
    ensures key != "HOSTNAME" ==> EnvironmentValues(env[key := ""], parse) == EnvironmentValues(env - {key}, parse)
    ensures EnvironmentValues(env["HOSTNAME" := ""], parse).hostname == ""
    ensures EnvironmentValues(env - {"HOSTNAME"}, parse).hostname == "localhost"
  {
  }

  /** With none of the nine variables set the defaults come out, whatever else the environment holds. */
  lemma EmptyEnvironmentGivesDefaults(env: map<string, string>, parse: string -> int)
    requires forall k :: k in EnvKeys ==> k !in env
    ensures EnvironmentValues(env, parse) == Defaults()
  {
  }

  // ---------- load ----------

  /**
   * `load(path)`: an empty path throws; otherwise the file is used when it exists and the
   * environment when it does not.
   */
  function LoadValues(path: string, fileExists: bool, file: Option<JsonObject>, env: map<string, string>, parse: string -> int)
    : (r: Result<ConfigValues, ConfigError>)
    requires file.Some? ==> WellTyped(file.value)
    ensures path == "" ==> r == Failure(NoConfigPath)
    ensures path != "" && fileExists ==> r == LoadFileValues(path, file)
    ensures path != "" && !fileExists ==> r == Success(EnvironmentValues(env, parse))
  {
    if path == "" then Failure(NoConfigPath)
    else if fileExists then LoadFileValues(path, file)
    else Success(EnvironmentValues(env, parse))
  }

  /** The path `load`, `loadFile` and `save` use when they are called without one. */
  const DefaultPath: string := "config.json"

  /**
   * `load()` with no argument, as the server calls it at start-up: the path is never missing,
   * so the file is used when `config.json` exists and the environment when it does not.
   */
  lemma DefaultLoad(fileExists: bool, file: Option<JsonObject>, env: map<string, string>, parse: string -> int)
    requires file.Some? ==> WellTyped(file.value)
    ensures LoadValues(DefaultPath, fileExists, file, env, parse) != Failure(NoConfigPath)
    ensures fileExists ==> LoadValues(DefaultPath, fileExists, file, env, parse) == LoadFileValues(DefaultPath, file)
    ensures !fileExists ==> LoadValues(DefaultPath, fileExists, file, env, parse) == Success(EnvironmentValues(env, parse))
  {
  }

  // ---------- save ----------

  /** A string-or-`undefined` property as a JSON value. */
  function JsonString(o: Option<string>): Option<Json> {
    if o.Some? then Some(JStr(o.value)) else None
  }

  /** The object's own properties, in declaration order, `None` standing for `undefined`. */
  function OwnProperties(v: ConfigValues): seq<(string, Option<Json>)> {
    [ ("_hostname", Some(JStr(v.hostname))),
      ("_port", Some(JNum(v.port))),
      ("_tlsEnabled", Some(JBool(v.tlsEnabled))),
      ("_tlsCertPath", JsonString(v.tlsCertPath)),
      ("_tlsKeyPath", JsonString(v.tlsKeyPath)),
      ("_tlsPassphrase", JsonString(v.tlsPassphrase)),
      ("_rateLimitEnabled", Some(JBool(v.rateLimitEnabled))),
      ("_rateLimitExpires", Some(JNum(v.rateLimitExpires))),
      ("_rateLimitCap", Some(JNum(v.rateLimitCap))) ]
  }

  /** The object `save`'s loop builds from a prefix of the properties: `_`-keys renamed, others skipped. */
  function Renamed(props: seq<(string, Option<Json>)>): map<string, Option<Json>> {
    if props == [] then map[]
    else
      var m := Renamed(props[..|props| - 1]);
      var (key, value) := props[|props| - 1];
      if StartsWith(key, "_") then m[RemoveFirst(key, '_') := value] else m
  }

  /** `JSON.stringify` leaves out the properties whose value is `undefined`. */
  function Stringify(obj: map<string, Option<Json>>): JsonObject {
    map k | k in obj && obj[k].Some? :: obj[k].value
  }

  /** The file image `save` writes for `v`. */
  function Saved(v: ConfigValues): JsonObject {
    Stringify(FileFields(v))
  }

  /**
   * Each field of `v` under its file key, `None` for an undefined TLS path: the object `save`
   * builds for `v`, written out key by key.
   */
  function FileFields(v: ConfigValues): map<string, Option<Json>> {
    map[ "hostname" := Some(JStr(v.hostname)),
         "port" := Some(JNum(v.port)),
         "tlsEnabled" := Some(JBool(v.tlsEnabled)),
         "tlsCertPath" := JsonString(v.tlsCertPath),
         "tlsKeyPath" := JsonString(v.tlsKeyPath),
         "tlsPassphrase" := JsonString(v.tlsPassphrase),
         "rateLimitEnabled" := Some(JBool(v.rateLimitEnabled)),
         "rateLimitExpires" := Some(JNum(v.rateLimitExpires)),
         "rateLimitCap" := Some(JNum(v.rateLimitCap)) ]
  }

  /** The names of the own properties, in declaration order. */
  const PropertyNames: seq<string> := ["_hostname", "_port", "_tlsEnabled", "_tlsCertPath", "_tlsKeyPath", "_tlsPassphrase", "_rateLimitEnabled", "_rateLimitExpires", "_rateLimitCap"]

  /** The first three renaming steps of `save`'s loop. */
  lemma {:induction false} RenamedFirstThree(p: seq<(string, Option<Json>)>)
    requires |p| == 9 && forall j :: 0 <= j < 9 ==> p[j].0 == PropertyNames[j]
    ensures Renamed(p[..3]) == map["hostname" := p[0].1, "port" := p[1].1, "tlsEnabled" := p[2].1]
  {
    assert p[..0] == [];
    assert Renamed(p[..1]) == map["hostname" := p[0].1] by {
      assert p[0].0 == "_hostname";
      RenamedStep(p, 1);
      assert RemoveFirst("_hostname", '_') == "hostname";
    }
    assert Renamed(p[..2]) == map["hostname" := p[0].1, "port" := p[1].1] by {
      assert p[1].0 == "_port";
      RenamedStep(p, 2);
      assert RemoveFirst("_port", '_') == "port";
    }
    assert Renamed(p[..3]) == map["hostname" := p[0].1, "port" := p[1].1, "tlsEnabled" := p[2].1] by {
      assert p[2].0 == "_tlsEnabled";
      RenamedStep(p, 3);
      assert RemoveFirst("_tlsEnabled", '_') == "tlsEnabled";
    }
  }

  /** The first six renaming steps of `save`'s loop. */
  lemma {:induction false} RenamedFirstSix(p: seq<(string, Option<Json>)>)
    requires |p| == 9 && forall j :: 0 <= j < 9 ==> p[j].0 == PropertyNames[j]
    ensures Renamed(p[..6]) == map["hostname" := p[0].1, "port" := p[1].1, "tlsEnabled" := p[2].1, "tlsCertPath" := p[3].1, "tlsKeyPath" := p[4].1, "tlsPassphrase" := p[5].1]
  {
    RenamedFirstThree(p);
    assert Renamed(p[..4]) == map["hostname" := p[0].1, "port" := p[1].1, "tlsEnabled" := p[2].1, "tlsCertPath" := p[3].1] by {
      assert p[3].0 == "_tlsCertPath";
      RenamedStep(p, 4);
      assert RemoveFirst("_tlsCertPath", '_') == "tlsCertPath";
    }
    assert Renamed(p[..5]) == map["hostname" := p[0].1, "port" := p[1].1, "tlsEnabled" := p[2].1, "tlsCertPath" := p[3].1, "tlsKeyPath" := p[4].1] by {
      assert p[4].0 == "_tlsKeyPath";
      RenamedStep(p, 5);
      assert RemoveFirst("_tlsKeyPath", '_') == "tlsKeyPath";
    }
    assert Renamed(p[..6]) == map["hostname" := p[0].1, "port" := p[1].1, "tlsEnabled" := p[2].1, "tlsCertPath" := p[3].1, "tlsKeyPath" := p[4].1, "tlsPassphrase" := p[5].1] by {
      assert p[5].0 == "_tlsPassphrase";
      RenamedStep(p, 6);
      assert RemoveFirst("_tlsPassphrase", '_') == "tlsPassphrase";
    }
  }

  /** Renaming strips the leading underscore of every own property. */
  lemma {:induction false} RenamedProperties(p: seq<(string, Option<Json>)>)
    requires |p| == 9 && forall j :: 0 <= j < 9 ==> p[j].0 == PropertyNames[j]
    ensures Renamed(p) == map["hostname" := p[0].1, "port" := p[1].1, "tlsEnabled" := p[2].1, "tlsCertPath" := p[3].1, "tlsKeyPath" := p[4].1, "tlsPassphrase" := p[5].1, "rateLimitEnabled" := p[6].1, "rateLimitExpires" := p[7].1, "rateLimitCap" := p[8].1]
  {
    RenamedFirstSix(p);
    assert Renamed(p[..7]) == map["hostname" := p[0].1, "port" := p[1].1, "tlsEnabled" := p[2].1, "tlsCertPath" := p[3].1, "tlsKeyPath" := p[4].1, "tlsPassphrase" := p[5].1, "rateLimitEnabled" := p[6].1] by {
      assert p[6].0 == "_rateLimitEnabled";
      RenamedStep(p, 7);
      assert RemoveFirst("_rateLimitEnabled", '_') == "rateLimitEnabled";
    }
    assert Renamed(p[..8]) == map["hostname" := p[0].1, "port" := p[1].1, "tlsEnabled" := p[2].1, "tlsCertPath" := p[3].1, "tlsKeyPath" := p[4].1, "tlsPassphrase" := p[5].1, "rateLimitEnabled" := p[6].1, "rateLimitExpires" := p[7].1] by {
      assert p[7].0 == "_rateLimitExpires";
      RenamedStep(p, 8);
      assert RemoveFirst("_rateLimitExpires", '_') == "rateLimitExpires";
    }
    assert Renamed(p[..9]) == map["hostname" := p[0].1, "port" := p[1].1, "tlsEnabled" := p[2].1, "tlsCertPath" := p[3].1, "tlsKeyPath" := p[4].1, "tlsPassphrase" := p[5].1, "rateLimitEnabled" := p[6].1, "rateLimitExpires" := p[7].1, "rateLimitCap" := p[8].1] by {
      assert p[8].0 == "_rateLimitCap";
      RenamedStep(p, 9);
      assert RemoveFirst("_rateLimitCap", '_') == "rateLimitCap";
    }
    assert p[..9] == p;
  }

  lemma RenamedOwnProperties(v: ConfigValues)
    ensures Renamed(OwnProperties(v)) == FileFields(v)
  {
    RenamedProperties(OwnProperties(v));
  }

  /** `save` writes no key that `loadFile` does not read, and the three TLS paths only when defined. */
  lemma SavedKeys(v: ConfigValues)
    ensures Saved(v).Keys <= FileKeys
    ensures ("tlsCertPath" in Saved(v)) == v.tlsCertPath.Some?
    ensures ("tlsKeyPath" in Saved(v)) == v.tlsKeyPath.Some?
    ensures ("tlsPassphrase" in Saved(v)) == v.tlsPassphrase.Some?
  {
  }

  /** Each key `save` writes holds its own field's value: the server fields. */
  lemma SavedServerValues(v: ConfigValues)
    ensures "hostname" in Saved(v) && Saved(v)["hostname"] == JStr(v.hostname)
    ensures "port" in Saved(v) && Saved(v)["port"] == JNum(v.port)
  {
  }

  /** Each key `save` writes holds its own field's value: the TLS fields. */
  lemma SavedTlsValues(v: ConfigValues)
    ensures "tlsEnabled" in Saved(v) && Saved(v)["tlsEnabled"] == JBool(v.tlsEnabled)
    ensures v.tlsCertPath.Some? ==> "tlsCertPath" in Saved(v) && Saved(v)["tlsCertPath"] == JStr(v.tlsCertPath.value)
    ensures v.tlsKeyPath.Some? ==> "tlsKeyPath" in Saved(v) && Saved(v)["tlsKeyPath"] == JStr(v.tlsKeyPath.value)
    ensures v.tlsPassphrase.Some? ==> "tlsPassphrase" in Saved(v) && Saved(v)["tlsPassphrase"] == JStr(v.tlsPassphrase.value)
  {
  }

  /** Each key `save` writes holds its own field's value: the rate-limit fields. */
  lemma SavedRateLimitValues(v: ConfigValues)
    ensures "rateLimitEnabled" in Saved(v) && Saved(v)["rateLimitEnabled"] == JBool(v.rateLimitEnabled)
    ensures "rateLimitExpires" in Saved(v) && Saved(v)["rateLimitExpires"] == JNum(v.rateLimitExpires)
    ensures "rateLimitCap" in Saved(v) && Saved(v)["rateLimitCap"] == JNum(v.rateLimitCap)
  {
  }

  lemma RenamedStep(p: seq<(string, Option<Json>)>, k: nat)
    requires 0 < k <= |p| && StartsWith(p[k - 1].0, "_")
    ensures Renamed(p[..k]) == Renamed(p[..k - 1])[RemoveFirst(p[k - 1].0, '_') := p[k - 1].1]
  {
    assert p[..k][..k - 1] == p[..k - 1];
  }

  /** Loading what `save` wrote gives back the same configuration. */
  lemma SaveLoadRoundTrip(v: ConfigValues, path: string)
    requires path != ""
    ensures WellTyped(Saved(v))
    ensures LoadFileValues(path, Some(Saved(v))) == Success(v)
  {
    SavedKeys(v);
    SavedServerValues(v);
    SavedTlsValues(v);
    SavedRateLimitValues(v);
  }

  // ---------- the object ----------

  class Config {
    var hostname: string
    var port: int
    var tlsEnabled: bool
    var tlsCertPath: Option<string>
    var tlsKeyPath: Option<string>
    var tlsPassphrase: Option<string>
    var rateLimitEnabled: bool
    var rateLimitExpires: int
    var rateLimitCap: int

    /** The configuration the getters expose. */
    function Values(): ConfigValues
      reads this
    {
      ConfigValues(hostname, port, tlsEnabled, tlsCertPath, tlsKeyPath, tlsPassphrase,
                   rateLimitEnabled, rateLimitExpires, rateLimitCap)
    }

    constructor ()
      ensures hostname == "localhost" && port == 9753 && !tlsEnabled
      ensures tlsCertPath.None? && tlsKeyPath.None? && tlsPassphrase.None?
      ensures !rateLimitEnabled && rateLimitExpires == 10 && rateLimitCap == 10
      ensures Values() == Defaults()
    {
      hostname := "localhost";
      port := 9753;
      tlsEnabled := false;
      tlsCertPath, tlsKeyPath, tlsPassphrase := None, None, None;
      rateLimitEnabled := false;
      rateLimitExpires := 10;
      rateLimitCap := 10;
    }

    static method LoadFile(path: string, file: Option<JsonObject>) returns (r: Result<Config, ConfigError>)
      requires file.Some? ==> WellTyped(file.value)
      ensures r.Failure? ==> LoadFileValues(path, file) == Failure(r.error)
      ensures r.Success? ==> fresh(r.value) && LoadFileValues(path, file) == Success(r.value.Values())
    {
      if path == "" {
        return Failure(NoConfigPath);
      }
      if file.None? {
        return Failure(UnreadableFile);
      }
      var json := file.value;
      var config := new Config();
      config.hostname := StringOr(json, "hostname", config.hostname);
      config.port := NumberOr(json, "port", config.port);
      config.tlsEnabled := BoolOr(json, "tlsEnabled", config.tlsEnabled);
      config.tlsCertPath := OptionalStringOr(json, "tlsCertPath", config.tlsCertPath);
      config.tlsKeyPath := OptionalStringOr(json, "tlsKeyPath", config.tlsKeyPath);
      config.tlsPassphrase := OptionalStringOr(json, "tlsPassphrase", config.tlsPassphrase);
      config.rateLimitEnabled := BoolOr(json, "rateLimitEnabled", config.rateLimitEnabled);
      config.rateLimitExpires := NumberOr(json, "rateLimitExpires", config.rateLimitExpires);
      config.rateLimitCap := NumberOr(json, "rateLimitCap", config.rateLimitCap);
      return Success(config);
    }

    static method LoadEnvironmentVariables(env: map<string, string>, parse: string -> int) returns (config: Config)
      ensures fresh(config) && config.Values() == EnvironmentValues(env, parse)
    {
      config := new Config();
      config.hostname := if "HOSTNAME" in env then env["HOSTNAME"] else config.hostname;
      config.port := NumberFromEnvOr(env, "PORT", parse, config.port);
      config.tlsEnabled := FlagOr(env, "TLS_ENABLED", config.tlsEnabled);
      config.tlsCertPath := PathFromEnvOr(env, "TLS_CERT_PATH", config.tlsCertPath);
      config.tlsKeyPath := PathFromEnvOr(env, "TLS_KEY_PATH", config.tlsKeyPath);
      config.tlsPassphrase := PathFromEnvOr(env, "TLS_PASSPHRASE", config.tlsPassphrase);
      config.rateLimitEnabled := FlagOr(env, "RATE_LIMIT_ENABLED", config.rateLimitEnabled);
      config.rateLimitExpires := NumberFromEnvOr(env, "RATE_LIMIT_EXPIRES", parse, config.rateLimitExpires);
      config.rateLimitCap := NumberFromEnvOr(env, "RATE_LIMIT_CAP", parse, config.rateLimitCap);
    }

    static method Load(path: string, fileExists: bool, file: Option<JsonObject>, env: map<string, string>, parse: string -> int)
      returns (r: Result<Config, ConfigError>)
      requires file.Some? ==> WellTyped(file.value)
      ensures r.Failure? ==> LoadValues(path, fileExists, file, env, parse) == Failure(r.error)
      ensures r.Success? ==> fresh(r.value) && LoadValues(path, fileExists, file, env, parse) == Success(r.value.Values())
    {
      if path == "" {
        return Failure(NoConfigPath);
      }
      if fileExists {
        r := LoadFile(path, file);
      } else {
        var config := LoadEnvironmentVariables(env, parse);
        r := Success(config);
      }
    }

    /**
     * `save(path)`: the JSON object written, built by renaming each own `_`-property.
     * Nothing of the configuration changes.
     */
    method Save(path: string) returns (r: Result<JsonObject, ConfigError>)
      ensures path == "" ==> r == Failure(NoConfigPath)
      ensures path != "" ==> r == Success(Saved(Values()))
    {
      if path == "" {
        return Failure(NoConfigPath);
      }
      var props := OwnProperties(Values());
      var newObject: map<string, Option<Json>> := map[];
      var i := 0;
      while i < |props|
        invariant 0 <= i <= |props|
        invariant newObject == Renamed(props[..i])
      {
        var (key, value) := props[i];
        assert props[..i + 1][..i] == props[..i];
        if StartsWith(key, "_") {
          newObject := newObject[RemoveFirst(key, '_') := value];
        }
        i := i + 1;
      }
      assert props[..i] == props;
      RenamedOwnProperties(Values());
      return Success(Stringify(newObject));
    }

    method SetRateLimitEnabled(value: bool)
      modifies this
      ensures Values() == old(Values()).(rateLimitEnabled := value)
    {
      rateLimitEnabled := value;
    }

    method SetRateLimitExpires(value: int)
      modifies this
      ensures Values() == old(Values()).(rateLimitExpires := value)
    {
      rateLimitExpires := value;
    }

    method SetRateLimitCap(value: int)
      modifies this
      ensures Values() == old(Values()).(rateLimitCap := value)
    {
      rateLimitCap := value;
    }
  }
}
