/** The configuration loader of app/config.py: the run-once `Config` singleton, the choice
    of configuration file, and `_load_initial_config`, which turns the parsed TOML document
    into typed sections. The Snowflake section comes in two formats: one table per agent
    domain ("org", "person", ...) or a single table used as the "default" entry. */
module Settings {
  import opened Text

  /** A parsed TOML value (floats and dates are not modelled). */
  datatype Toml =
    | Str(s: string)
    | Int(i: int)
    | Bool(b: bool)
    | Array(items: seq<Toml>)
    | Table(entries: map<string, Toml>)

  /** One entry of the `llm` table, kept as given (its pydantic field checks are not modelled). */
  datatype LlmSettings = LlmSettings(fields: map<string, Toml>)

  /** The sandbox, browser or search section, kept as given. */
  datatype SectionSettings = SectionSettings(fields: map<string, Toml>)

  /** The credentials of one Snowflake connection (app/config.py:151-159). */
  datatype SnowflakeSettings = SnowflakeSettings(
    user: string, password: string, account: string,
    warehouse: string, database: string, schema: string)

  /** The typed configuration `AppConfig` (the MCP section is not modelled). */
  datatype AppConfig = AppConfig(
    llm: map<string, LlmSettings>,
    sandbox: Option<SectionSettings>,
    browser: Option<SectionSettings>,
    search: Option<SectionSettings>,
    snowflake: map<string, SnowflakeSettings>)

  datatype ConfigError =
    | NoConfigFile                                          // FileNotFoundError of _get_config_path
    | NotATable(section: string)                            // `.items()` on a section that is not a table
    | InvalidSnowflakeSettings(entry: string, field: string) // SnowflakeSettings(**settings) refused a field

  /** The required fields of `SnowflakeSettings`, in declaration order. */
  const SnowflakeFields: seq<string> := ["user", "password", "account", "warehouse", "database", "schema"]

  /** The keys whose presence marks the per-domain Snowflake format (app/config.py:255). */
  const DomainKeys: seq<string> := ["org", "person"]

  /** The key under which the single-table format is stored (app/config.py:264). */
  const DefaultKey: string := "default"

  const ConfigPath: string := "config/config.toml"
  const ExamplePath: string := "config/config.example.toml"

  /** The abstract file system the loader reads: which paths exist and what TOML each holds. */
  datatype Files = Files(present: string -> bool, contents: string -> map<string, Toml>)

  /** `_get_config_path`: the configuration file to read. */
  function ConfigFilePath(present: string -> bool): (r: Result<string, ConfigError>)
    ensures r.Success? ==> present(r.value) && (r.value == ConfigPath || r.value == ExamplePath)
    ensures present(ConfigPath) ==> r == Success(ConfigPath)
    ensures r.Failure? <==> !present(ConfigPath) && !present(ExamplePath)
    ensures r.Failure? ==> r.error == NoConfigFile
  {
    if present(ConfigPath) then Success(ConfigPath)
    else if present(ExamplePath) then Success(ExamplePath)
    else Failure(NoConfigFile)
  }

  /** `_load_config`: the parsed document of the chosen file. */
  function RawConfig(files: Files): (r: Result<map<string, Toml>, ConfigError>)
    ensures r.Success? <==> ConfigFilePath(files.present).Success?
    ensures r.Success? ==> r.value == files.contents(ConfigFilePath(files.present).value)
  {
    match ConfigFilePath(files.present)
    case Success(path) => Success(files.contents(path))
    case Failure(e) => Failure(e)
  }

  function StringField(t: map<string, Toml>, field: string): Option<string> {
    if field in t && t[field].Str? then Some(t[field].s) else None
  }

  /** The first required field of `t` that is missing or not a string, if any. */
  function FirstBadField(t: map<string, Toml>, fields: seq<string>): (r: Option<string>)
    ensures r.None? <==> forall k :: 0 <= k < |fields| ==> StringField(t, fields[k]).Some?
    ensures r.Some? ==> r.value in fields && StringField(t, r.value).None?
    ensures r.Some? ==> exists k :: 0 <= k < |fields| && fields[k] == r.value &&
                                    forall j :: 0 <= j < k ==> StringField(t, fields[j]).Some?
  {
    if fields == [] then None
    else if StringField(t, fields[0]).None? then Some(fields[0])
    else
      var rest := FirstBadField(t, fields[1..]);
      assert forall k :: 1 <= k < |fields| ==> fields[k] == fields[1..][k - 1];
      assert rest.Some? ==> exists k :: 0 <= k < |fields| && fields[k] == rest.value &&
                                        forall j :: 0 <= j < k ==> StringField(t, fields[j]).Some? by {
        if rest.Some? {
          var k :| 0 <= k < |fields[1..]| && fields[1..][k] == rest.value &&
                   forall j :: 0 <= j < k ==> StringField(t, fields[1..][j]).Some?;
          assert fields[k + 1] == rest.value;
          forall j | 0 <= j < k + 1 ensures StringField(t, fields[j]).Some? {
            if j > 0 { assert fields[j] == fields[1..][j - 1]; }
          }
        }
      }
      rest
  }

  /** `SnowflakeSettings(**t)` for the entry stored under `entry`: every required field
      must be present as a string; other keys are ignored. */
  function ValidateSnowflake(entry: string, t: map<string, Toml>): (r: Result<SnowflakeSettings, ConfigError>)
    ensures r.Success? <==> forall f :: f in SnowflakeFields ==> StringField(t, f).Some?
    ensures r.Success? ==> && StringField(t, "user") == Some(r.value.user)
                           && StringField(t, "password") == Some(r.value.password)
                           && StringField(t, "account") == Some(r.value.account)
                           && StringField(t, "warehouse") == Some(r.value.warehouse)
                           && StringField(t, "database") == Some(r.value.database)
                           && StringField(t, "schema") == Some(r.value.schema)
    ensures r.Failure? ==> (&& r.error.InvalidSnowflakeSettings? && r.error.entry == entry
                            && r.error.field in SnowflakeFields && StringField(t, r.error.field).None?)
  {
    match FirstBadField(t, SnowflakeFields)
    case Some(f) => Failure(InvalidSnowflakeSettings(entry, f))
    case None =>
      assert StringField(t, SnowflakeFields[0]).Some? && StringField(t, SnowflakeFields[1]).Some?;
      assert StringField(t, SnowflakeFields[2]).Some? && StringField(t, SnowflakeFields[3]).Some?;
      assert StringField(t, SnowflakeFields[4]).Some? && StringField(t, SnowflakeFields[5]).Some?;
      Success(SnowflakeSettings(
        t["user"].s, t["password"].s, t["account"].s, t["warehouse"].s, t["database"].s, t["schema"].s))
  }

  /** `m` holds exactly the table-valued entries of `entries`, under the same keys. */
  ghost predicate KeepsTables(entries: map<string, Toml>, m: map<string, LlmSettings>) {
    && (forall k :: k in m <==> k in entries && entries[k].Table?)
    && (forall k :: k in m ==> m[k] == LlmSettings(entries[k].entries))
  }

  /** The outcome of loading the `llm` section of `raw` (app/config.py:222-230). */
  ghost predicate LlmLoaded(raw: map<string, Toml>, r: Result<map<string, LlmSettings>, ConfigError>) {
    if "llm" !in raw then r == Success(map[])
    else if !raw["llm"].Table? then r == Failure(NotATable("llm"))
    else r.Success? && KeepsTables(raw["llm"].entries, r.value)
  }

  /** Lines 222-230: every table-valued entry of `llm` is kept under its key, every other
      entry is skipped. A missing `llm` yields no entries; an `llm` that is not a table
      makes `.items()` raise. */
  method LoadLlmSettings(raw: map<string, Toml>) returns (r: Result<map<string, LlmSettings>, ConfigError>)
    ensures LlmLoaded(raw, r)
  {
    if "llm" !in raw {
      return Success(map[]);
    }
    if !raw["llm"].Table? {
      return Failure(NotATable("llm"));
    }
    var entries := raw["llm"].entries;
    var settings: map<string, LlmSettings> := map[];
    var todo := entries.Keys;
    while todo != {}
      invariant todo <= entries.Keys
      invariant forall k :: k in settings <==> k in entries && k !in todo && entries[k].Table?
      invariant forall k :: k in settings ==> settings[k] == LlmSettings(entries[k].entries)
      decreases todo
    {
      var key :| key in todo;
      if entries[key].Table? {
        settings := settings[key := LlmSettings(entries[key].entries)];
      }
      todo := todo - {key};
    }
    return Success(settings);
  }

  /** Lines 232-245: an optional section is present exactly when its key holds a table. */
  function OptionalSection(raw: map<string, Toml>, key: string): (r: Option<SectionSettings>)
    ensures r.Some? <==> key in raw && raw[key].Table?
    ensures r.Some? ==> r.value.fields == raw[key].entries
  {
    if key in raw && raw[key].Table? then Some(SectionSettings(raw[key].entries)) else None
  }

  /** Line 255: the Snowflake table uses the per-domain format. */
  predicate IsPerDomain(section: map<string, Toml>) {
    exists k :: k in DomainKeys && k in section
  }

  /** The outcome of the per-domain format (lines 256-261): every table-valued entry is
      validated and kept under its own key, every other entry is dropped, and the first
      entry that fails validation aborts the load. */
  ghost predicate PerDomainLoaded(section: map<string, Toml>, r: Result<map<string, SnowflakeSettings>, ConfigError>) {
    && (r.Success? <==> forall k :: k in section && section[k].Table? ==> ValidateSnowflake(k, section[k].entries).Success?)
    && (r.Success? ==> forall k :: k in r.value <==> k in section && section[k].Table?)
    && (r.Success? ==> forall k :: k in r.value ==> Success(r.value[k]) == ValidateSnowflake(k, section[k].entries))
    && (r.Failure? ==> exists k :: k in section && section[k].Table?
                          && ValidateSnowflake(k, section[k].entries) == Failure(r.error))
  }

  /** The outcome of the single-table format (lines 262-266): the whole table becomes the
      one entry "default". */
  function SingleTable(section: map<string, Toml>): (r: Result<map<string, SnowflakeSettings>, ConfigError>)
    ensures r.Success? ==> r.value.Keys == {DefaultKey}
    ensures r.Success? <==> ValidateSnowflake(DefaultKey, section).Success?
    ensures r.Success? ==> Success(r.value[DefaultKey]) == ValidateSnowflake(DefaultKey, section)
    ensures r.Failure? ==> Failure(r.error) == ValidateSnowflake(DefaultKey, section)
  {
    match ValidateSnowflake(DefaultKey, section)
    case Success(s) => Success(map[DefaultKey := s])
    case Failure(e) => Failure(e)
  }

  /** The outcome of loading the Snowflake section of `raw` (lines 250-266). */
  ghost predicate SnowflakeLoaded(raw: map<string, Toml>, r: Result<map<string, SnowflakeSettings>, ConfigError>) {
    if !("snowflake" in raw && raw["snowflake"].Table?) then r == Success(map[])
    else if IsPerDomain(raw["snowflake"].entries) then PerDomainLoaded(raw["snowflake"].entries, r)
    else r == SingleTable(raw["snowflake"].entries)
  }

  /** Lines 250-266. A missing section, or one that is not a table, gives `{}`, never None. */
  method LoadSnowflakeSettings(raw: map<string, Toml>) returns (r: Result<map<string, SnowflakeSettings>, ConfigError>)
    ensures SnowflakeLoaded(raw, r)
  {
    if !("snowflake" in raw && raw["snowflake"].Table?) {
      return Success(map[]);
    }
    var section := raw["snowflake"].entries;
    if !("org" in section || "person" in section) {
      assert !IsPerDomain(section);
      return SingleTable(section);
    }
    assert DomainKeys[0] == "org" && DomainKeys[1] == "person";
    var settings: map<string, SnowflakeSettings> := map[];
    var todo := section.Keys;
    while todo != {}
      invariant todo <= section.Keys
      invariant forall k :: k in settings <==> k in section && k !in todo && section[k].Table?
      invariant forall k :: k in settings ==> Success(settings[k]) == ValidateSnowflake(k, section[k].entries)
      decreases todo
    {
      var key :| key in todo;
      if section[key].Table? {
        match ValidateSnowflake(key, section[key].entries)
        case Failure(e) =>
          return Failure(e);
        case Success(s) =>
          settings := settings[key := s];
      }
      todo := todo - {key};
    }
    return Success(settings);
  }

  /** The configuration assembled from the outcomes of the `llm` and Snowflake sections:
      the first section that failed decides the error. */
  function Assemble(raw: map<string, Toml>, llm: Result<map<string, LlmSettings>, ConfigError>,
                    sf: Result<map<string, SnowflakeSettings>, ConfigError>): Result<AppConfig, ConfigError> {
    if llm.Failure? then Failure(llm.error)
    else if sf.Failure? then Failure(sf.error)
    else Success(AppConfig(llm.value, OptionalSection(raw, "sandbox"), OptionalSection(raw, "browser"),
                           OptionalSection(raw, "search"), sf.value))
  }

  /** The outcome of `_load_initial_config` on the document `raw`. */
  ghost predicate InitialConfigLoaded(raw: map<string, Toml>, r: Result<AppConfig, ConfigError>) {
    exists llm: Result<map<string, LlmSettings>, ConfigError>, sf: Result<map<string, SnowflakeSettings>, ConfigError> ::
      LlmLoaded(raw, llm) && SnowflakeLoaded(raw, sf) && r == Assemble(raw, llm, sf)
  }

  /** `_load_initial_config` (lines 218-277): the typed sections of `raw`. */
  method LoadInitialConfig(raw: map<string, Toml>) returns (r: Result<AppConfig, ConfigError>)
    ensures InitialConfigLoaded(raw, r)
  {
    var llm := LoadLlmSettings(raw);
    var sandbox := OptionalSection(raw, "sandbox");
    var browser := OptionalSection(raw, "browser");
    var search := OptionalSection(raw, "search");
    var snowflake := LoadSnowflakeSettings(raw);
    if llm.Failure? {
      r := Failure(llm.error);
    } else if snowflake.Failure? {
      r := Failure(snowflake.error);
    } else {
      r := Success(AppConfig(llm.value, sandbox, browser, search, snowflake.value));
    }
    assert r == Assemble(raw, llm, snowflake);
  }

  /** The `Config` object: `initialized` is its `_initialized` flag, `appConfig` its `_config`. */
  class Config {
    var initialized: bool
    var appConfig: Option<AppConfig>

    /** `object.__new__`: no attribute of its own yet, so `_initialized` reads as False. */
    constructor ()
      ensures !initialized && appConfig == None
    {
      initialized := false;
      appConfig := None;
    }
  }

  /** The class-level state of `Config`: `_instance`, and how often `_load_initial_config` ran. */
  class ConfigClass {
    var instance: Config?
    ghost var loads: nat

    ghost predicate Valid()
      reads this, instance
    {
      && (instance == null ==> loads == 0)
      && (instance != null && instance.initialized ==> instance.appConfig.Some?)
    }

    constructor ()
      ensures Valid() && instance == null && loads == 0
    {
      instance := null;
      loads := 0;
    }

    /** `Config()`: `__new__` followed by `__init__` (lines 187-200). The first call creates
        the one instance; the configuration is loaded until a load succeeds, and never after. */
    method Call(files: Files) returns (r: Result<Config, ConfigError>)
      requires Valid()
      modifies this, instance
      ensures Valid()
      ensures instance != null
      ensures old(instance) != null ==> instance == old(instance)
      ensures old(instance) == null ==> fresh(instance)
      ensures r.Success? ==> r.value == instance && instance.initialized
      ensures old(instance != null && instance.initialized) ==>
        r == Success(instance) && loads == old(loads) && unchanged(instance)
      ensures !old(instance != null && instance.initialized) ==> loads == old(loads) + 1
      ensures !old(instance != null && instance.initialized) ==>
        match RawConfig(files)
        case Failure(e) => r == Failure(e) && !instance.initialized && instance.appConfig == None
        case Success(raw) =>
          (r.Success? ==> instance.appConfig.Some? && InitialConfigLoaded(raw, Success(instance.appConfig.value)))
          && (r.Failure? ==> !instance.initialized && instance.appConfig == None && InitialConfigLoaded(raw, Failure(r.error)))
    {
      if instance == null {
        instance := new Config();
      }
      if instance.initialized {
        return Success(instance);
      }
      instance.appConfig := None;
      loads := loads + 1;
      match RawConfig(files)
      case Failure(e) =>
        return Failure(e);
      case Success(raw) =>
        var loaded := LoadInitialConfig(raw);
        match loaded
        case Failure(e) =>
          return Failure(e);
        case Success(app) =>
          instance.appConfig := Some(app);
          instance.initialized := true;
          return Success(instance);
    }
  }

  /** Two calls in a row yield the same object, and the second loads nothing. */
  method CallTwice(files: Files) returns (first: Result<Config, ConfigError>, second: Result<Config, ConfigError>)
    ensures first.Success? ==> second == first
  {
    var cls := new ConfigClass();
    first := cls.Call(files);
    ghost var loadsAfterFirst := cls.loads;
    second := cls.Call(files);
    assert first.Success? ==> cls.loads == loadsAfterFirst;
  }
}
