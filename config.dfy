/** The configuration manager (src/config/index.ts): a snapshot of settings resolved
    from the process environment, cached in a resettable singleton, and an opt-in
    strict check that every required variable is set.

    The environment is a map from variable name to value; a variable that is not set
    is not a key. JavaScript treats an unset and an empty variable alike wherever it
    tests truthiness (`x || default`, `!x`), and `Present` captures that. */
module ConfigManagement {
  import opened Wrappers
  import opened Builtins
  import opened ConfigTypes

  type Env = map<string, string>

  /** The variable is set to a non-empty value (is truthy). */
  predicate Present(env: Env, name: string)
  {
    name in env && env[name] != ""
  }

  /** `env[name] || default`: the value when it is truthy, the default otherwise, so
      the result is empty only when the default is. */
  function OrDefault(env: Env, name: string, default: string): (v: string)
    ensures Present(env, name) ==> v == env[name]
    ensures !Present(env, name) ==> v == default
    ensures v == "" ==> default == ""
  {
    if Present(env, name) then env[name] else default
  }

  // ---------------------------------------------------------------------------
  // Loading
  // ---------------------------------------------------------------------------

  const DefaultEnv := "development"
  const DefaultPort := "3000"
  const DefaultApiVersion := "v1"
  const DefaultMongoUri := "mongodb://localhost:27017/dev_db"
  const DefaultLogLevel := "info"
  const DefaultLogFormat := "json"
  const DefaultLogOutputPath := "logs/app.log"

  /** Every variable the loader reads. */
  const ConsumedVars: seq<string> := [
    "NODE_ENV", "PORT", "API_VERSION", "CORS_ORIGINS", "MONGO_URI",
    "LOG_LEVEL", "LOG_FORMAT", "LOG_OUTPUT_PATH", "FEATURES_ENABLED"]

  /** The snapshot built from the environment. Unset or empty variables fall back to
      the defaults above; set ones are copied as they are, without checking them
      against the declared enumerations. `CORS_ORIGINS` is split on commas whenever it
      is set, even to the empty string; the feature flag is on only for the exact
      value `"true"`. */
  function LoadConfig(env: Env): (c: Config)
    ensures c.app.env != "" && c.app.apiVersion != "" && c.database.mongoUri != ""
    ensures c.logger.level != "" && c.logger.format != "" && c.logger.outputPath != ""
    ensures "CORS_ORIGINS" !in env ==> c.app.corsOrigins == []
    ensures "CORS_ORIGINS" in env ==> |c.app.corsOrigins| >= 1
    ensures c.features.isEnabled ==> Present(env, "FEATURES_ENABLED")
  {
    Config(LoadApp(env), LoadDatabase(env), LoadLogger(env), LoadFeatures(env))
  }

  function LoadApp(env: Env): AppConfig
  {
    AppConfig(
      OrDefault(env, "NODE_ENV", DefaultEnv),
      ParseInt(OrDefault(env, "PORT", DefaultPort)),
      OrDefault(env, "API_VERSION", DefaultApiVersion),
      if "CORS_ORIGINS" in env then Split(env["CORS_ORIGINS"], ',') else [])
  }

  function LoadDatabase(env: Env): DatabaseConfig
  {
    DatabaseConfig(OrDefault(env, "MONGO_URI", DefaultMongoUri))
  }

  function LoadLogger(env: Env): LoggerSettings
  {
    LoggerSettings(
      OrDefault(env, "LOG_LEVEL", DefaultLogLevel),
      OrDefault(env, "LOG_FORMAT", DefaultLogFormat),
      OrDefault(env, "LOG_OUTPUT_PATH", DefaultLogOutputPath))
  }

  function LoadFeatures(env: Env): FeatureFlags
  {
    FeatureFlags("FEATURES_ENABLED" in env && env["FEATURES_ENABLED"] == "true")
  }

  /** The snapshot depends on the nine variables the loader reads and on nothing else
      in the environment. */
  lemma LoadConfigReadsOnlyConsumed(env: Env, other: Env)
    requires forall i :: 0 <= i < |ConsumedVars| ==>
      (ConsumedVars[i] in env <==> ConsumedVars[i] in other)
    requires forall i :: 0 <= i < |ConsumedVars| && ConsumedVars[i] in env ==>
      env[ConsumedVars[i]] == other[ConsumedVars[i]]
    ensures LoadConfig(env) == LoadConfig(other)
  {
    SameVariable(env, other, 0);
    SameVariable(env, other, 1);
    SameVariable(env, other, 2);
    SameVariable(env, other, 3);
    SameVariable(env, other, 4);
    SameVariable(env, other, 5);
    SameVariable(env, other, 6);
    SameVariable(env, other, 7);
    SameVariable(env, other, 8);
    assert LoadApp(env) == LoadApp(other);
    assert LoadDatabase(env) == LoadDatabase(other);
    assert LoadLogger(env) == LoadLogger(other);
    assert LoadFeatures(env) == LoadFeatures(other);
  }

  /** Two environments that agree on the `k`-th consumed variable look alike to the
      loader there. */
  lemma SameVariable(env: Env, other: Env, k: nat)
    requires k < |ConsumedVars|
    requires ConsumedVars[k] in env <==> ConsumedVars[k] in other
    requires ConsumedVars[k] in env ==> env[ConsumedVars[k]] == other[ConsumedVars[k]]
    ensures forall d :: OrDefault(env, ConsumedVars[k], d) == OrDefault(other, ConsumedVars[k], d)
    ensures ConsumedVars[k] in env ==> ConsumedVars[k] in other && env[ConsumedVars[k]] == other[ConsumedVars[k]]
    ensures ConsumedVars[k] !in env ==> ConsumedVars[k] !in other
  {
  }

  /** The snapshot every field of which takes its default. */
  const DefaultConfig := Config(
    AppConfig(DefaultEnv, Some(3000), DefaultApiVersion, []),
    DatabaseConfig(DefaultMongoUri),
    LoggerSettings(DefaultLogLevel, DefaultLogFormat, DefaultLogOutputPath),
    FeatureFlags(false))

  /** `parseInt('3000', 10)` is 3000. */
  lemma DefaultPortValue()
    ensures ParseInt(DefaultPort) == Some(3000)
  {
    var d := DefaultPort;
    assert "3"[..0] == "" && DecimalValue("3") == 3;
    assert "30"[..1] == "3" && DecimalValue("30") == 30;
    assert "300"[..2] == "30" && DecimalValue("300") == 300;
    assert d[..3] == "300" && DecimalValue(d) == 3000;
    ParseIntOfDigits(d, "");
    assert d + "" == d;
  }

  /** With every variable unset or empty, and `CORS_ORIGINS` unset, the snapshot is
      exactly the defaults: development, 3000, v1, no origins, the local database,
      info, json, logs/app.log and the feature off. */
  lemma LoadConfigDefaults(env: Env)
    requires forall i :: 0 <= i < |ConsumedVars| ==> !Present(env, ConsumedVars[i])
    requires "CORS_ORIGINS" !in env
    ensures LoadConfig(env) == DefaultConfig
  {
    assert !Present(env, ConsumedVars[0]) && !Present(env, ConsumedVars[1]);
    assert !Present(env, ConsumedVars[2]) && !Present(env, ConsumedVars[4]);
    assert !Present(env, ConsumedVars[5]) && !Present(env, ConsumedVars[6]);
    assert !Present(env, ConsumedVars[7]) && !Present(env, ConsumedVars[8]);
    DefaultPortValue();
  }

  /** A set, non-empty value of any of the string variables is copied verbatim into
      its field, with no allow-list check (so `NODE_ENV=test` arrives as "test"). */
  lemma LoadConfigCopiesVerbatim(env: Env)
    ensures var c := LoadConfig(env);
      && (Present(env, "NODE_ENV") ==> c.app.env == env["NODE_ENV"])
      && (Present(env, "API_VERSION") ==> c.app.apiVersion == env["API_VERSION"])
      && (Present(env, "MONGO_URI") ==> c.database.mongoUri == env["MONGO_URI"])
      && (Present(env, "LOG_LEVEL") ==> c.logger.level == env["LOG_LEVEL"])
      && (Present(env, "LOG_FORMAT") ==> c.logger.format == env["LOG_FORMAT"])
      && (Present(env, "LOG_OUTPUT_PATH") ==> c.logger.outputPath == env["LOG_OUTPUT_PATH"])
  {
  }

  /** The logger settings of a loaded snapshot: each is the variable when that is set
      and non-empty and the loader's default otherwise, so none is ever empty. */
  lemma LoggerSettingsFromEnv(env: Env)
    ensures var l := LoadConfig(env).logger;
      && l.level == (if Present(env, "LOG_LEVEL") then env["LOG_LEVEL"] else "info")
      && l.format == (if Present(env, "LOG_FORMAT") then env["LOG_FORMAT"] else "json")
      && l.outputPath == (if Present(env, "LOG_OUTPUT_PATH") then env["LOG_OUTPUT_PATH"] else "logs/app.log")
      && l.level != "" && l.format != "" && l.outputPath != ""
  {
  }

  /** The origins are empty when `CORS_ORIGINS` is unset. Otherwise they are the
      comma-free pieces of its value, one more than it has commas, and joining them
      with commas gives the value back; the empty value therefore yields `[""]`. */
  lemma CorsOriginsFromEnv(env: Env)
    ensures var origins := LoadConfig(env).app.corsOrigins;
      && ("CORS_ORIGINS" !in env ==> origins == [])
      && ("CORS_ORIGINS" in env ==>
            && Join(origins, ',') == env["CORS_ORIGINS"]
            && |origins| == Occurrences(env["CORS_ORIGINS"], ',') + 1
            && (forall i :: 0 <= i < |origins| ==> ',' !in origins[i]))
      && ("CORS_ORIGINS" in env && env["CORS_ORIGINS"] == "" ==> origins == [""])
  {
    if "CORS_ORIGINS" in env {
      JoinSplit(env["CORS_ORIGINS"], ',');
      SplitCount(env["CORS_ORIGINS"], ',');
    }
  }

  /** The port is the decimal value of `PORT` when that is a plain number, 3000 when
      `PORT` is unset or empty, and NaN when `PORT` starts with neither a digit nor a
      sign followed by a digit. */
  lemma PortFromEnv(env: Env, n: nat)
    ensures "PORT" in env && env["PORT"] == DecimalString(n) ==> LoadConfig(env).app.port == Some(n)
    ensures !Present(env, "PORT") ==> LoadConfig(env).app.port == Some(3000)
    ensures Present(env, "PORT") && !IsDigit(env["PORT"][0]) && !IsJsWhitespace(env["PORT"][0])
              && env["PORT"][0] != '-' && env["PORT"][0] != '+'
            ==> LoadConfig(env).app.port == None
  {
    ParseIntOfDecimal(n, "");
    assert DecimalString(n) + "" == DecimalString(n);
    DefaultPortValue();
  }

  /** The feature flag is on exactly when `FEATURES_ENABLED` is the string "true". */
  lemma FeatureEnabledIff(env: Env)
    ensures LoadConfig(env).features.isEnabled <==>
      "FEATURES_ENABLED" in env && env["FEATURES_ENABLED"] == "true"
  {
  }

  // ---------------------------------------------------------------------------
  // Strict validation
  // ---------------------------------------------------------------------------

  /** The variables strict validation insists on, in the order it checks them.
      `LOG_OUTPUT_PATH` is not among them. */
  const RequiredEnvVars: seq<string> := [
    "NODE_ENV", "PORT", "API_VERSION", "CORS_ORIGINS", "MONGO_URI",
    "LOG_LEVEL", "LOG_FORMAT", "FEATURES_ENABLED"]

  function MissingMessage(name: string): string
  {
    "Missing required environment variable: " + name
  }

  /** The first of `names` that is unset or empty, if any: whatever it reports is one
      of the names, and is not present. */
  function FirstMissing(env: Env, names: seq<string>): (r: Option<string>)
    ensures r.Some? ==> r.value in names && !Present(env, r.value)
  {
    if |names| == 0 then None
    else if !Present(env, names[0]) then Some(names[0])
    else FirstMissing(env, names[1..])
  }

  /** Nothing is missing exactly when every name is present. */
  lemma {:induction false} FirstMissingNoneIff(env: Env, names: seq<string>)
    ensures FirstMissing(env, names) == None <==>
      forall i :: 0 <= i < |names| ==> Present(env, names[i])
  {
    if |names| > 0 {
      FirstMissingNoneIff(env, names[1..]);
      assert forall i :: 1 <= i < |names| ==> names[i] == names[1..][i - 1];
    }
  }

  /** A reported name is the earliest one that is not present. */
  lemma {:induction false} FirstMissingIsFirst(env: Env, names: seq<string>)
    ensures FirstMissing(env, names).Some? ==>
      exists k :: 0 <= k < |names| && names[k] == FirstMissing(env, names).value
        && !Present(env, names[k])
        && forall j :: 0 <= j < k ==> Present(env, names[j])
  {
    if |names| > 0 && Present(env, names[0]) {
      FirstMissingIsFirst(env, names[1..]);
      if FirstMissing(env, names).Some? {
        var k :| 0 <= k < |names[1..]| && names[1..][k] == FirstMissing(env, names).value
          && !Present(env, names[1..][k])
          && forall j :: 0 <= j < k ==> Present(env, names[1..][j]);
        assert names[k + 1] == names[1..][k];
        assert forall j :: 1 <= j < k + 1 ==> names[j] == names[1..][j - 1];
      }
    }
  }

  /** What strict validation reports for an environment. */
  function Validation(env: Env): (r: Outcome<string>)
    ensures r.Fail? ==>
      (exists i :: 0 <= i < |RequiredEnvVars|
         && r.error == MissingMessage(RequiredEnvVars[i]) && !Present(env, RequiredEnvVars[i]))
  {
    match FirstMissing(env, RequiredEnvVars)
    case None => Pass
    case Some(name) => Fail(MissingMessage(name))
  }

  /** Strict validation passes exactly when all eight required variables are set and
      non-empty, and otherwise names the first one, in list order, that is not. */
  lemma ValidationMeaning(env: Env)
    ensures Validation(env) == Pass <==>
      forall i :: 0 <= i < |RequiredEnvVars| ==> Present(env, RequiredEnvVars[i])
    ensures Validation(env).Fail? ==>
      exists k :: 0 <= k < |RequiredEnvVars|
        && Validation(env).error == MissingMessage(RequiredEnvVars[k])
        && !Present(env, RequiredEnvVars[k])
        && forall j :: 0 <= j < k ==> Present(env, RequiredEnvVars[j])
  {
    FirstMissingNoneIff(env, RequiredEnvVars);
    FirstMissingIsFirst(env, RequiredEnvVars);
  }

  /** With nothing set, validation names `NODE_ENV`. */
  lemma ValidationOfEmptyEnv()
    ensures Validation(map[]) == Fail(MissingMessage("NODE_ENV"))
  {
    assert !Present(map[], RequiredEnvVars[0]);
    assert FirstMissing(map[], RequiredEnvVars) == Some("NODE_ENV");
  }

  /** `LOG_OUTPUT_PATH` plays no part in validation: setting, changing or removing it
      never changes the outcome. */
  lemma ValidationIgnoresOutputPath(env: Env, path: string)
    ensures Validation(env["LOG_OUTPUT_PATH" := path]) == Validation(env)
    ensures Validation(env - {"LOG_OUTPUT_PATH"}) == Validation(env)
  {
    var e1 := env["LOG_OUTPUT_PATH" := path];
    var e2 := env - {"LOG_OUTPUT_PATH"};
    forall k | 0 <= k <= |RequiredEnvVars|
      ensures FirstMissing(e1, RequiredEnvVars[k..]) == FirstMissing(env, RequiredEnvVars[k..])
      ensures FirstMissing(e2, RequiredEnvVars[k..]) == FirstMissing(env, RequiredEnvVars[k..])
    {
      SameRequiredPresence(env, e1, e2, RequiredEnvVars[k..]);
    }
    assert RequiredEnvVars[0..] == RequiredEnvVars;
  }

  lemma {:induction false} SameRequiredPresence(env: Env, e1: Env, e2: Env, names: seq<string>)
    requires "LOG_OUTPUT_PATH" !in names
    requires forall n :: n != "LOG_OUTPUT_PATH" ==> (n in e1 <==> n in env) && (n in e2 <==> n in env)
    requires forall n :: n != "LOG_OUTPUT_PATH" && n in env ==> e1[n] == env[n] && e2[n] == env[n]
    ensures FirstMissing(e1, names) == FirstMissing(env, names)
    ensures FirstMissing(e2, names) == FirstMissing(env, names)
  {
    if |names| > 0 {
      assert names[0] != "LOG_OUTPUT_PATH";
      assert names[0] in names;
      SameRequiredPresence(env, e1, e2, names[1..]);
    }
  }

  // ---------------------------------------------------------------------------
  // The manager and its singleton
  // ---------------------------------------------------------------------------

  /** One manager holds one snapshot, resolved when it is constructed and never
      changed afterwards. */
  class ConfigManager {
    const config: Config

    /** Builds the snapshot from the environment as it is now. */
    constructor (env: Env)
      ensures config == LoadConfig(env)
    {
      config := LoadConfig(env);
    }

    /** The stored snapshot itself; nothing is recomputed, whatever the environment is
        now. */
    function GetConfig(): (c: Config)
      ensures c == config
    {
      config
    }

    /** The value of a named flag of the stored snapshot; `isEnabled` is the only one. */
    function GetFeatureFlag(flag: FeatureFlag): (b: bool)
      ensures b == config.features.isEnabled
    {
      match flag
      case IsEnabled => config.features.isEnabled
    }

    /** The strict check: walks `RequiredEnvVars` in order and fails on the first one
        that is unset or empty, with its name in the message. It reads only the
        environment; the stored snapshot is untouched. */
    method ValidateConfig(env: Env) returns (r: Outcome<string>)
      ensures r == Validation(env)
    {
      var k := 0;
      while k < |RequiredEnvVars|
        invariant 0 <= k <= |RequiredEnvVars|
        invariant FirstMissing(env, RequiredEnvVars[k..]) == FirstMissing(env, RequiredEnvVars)
      {
        var name := RequiredEnvVars[k];
        if !Present(env, name) {
          return Fail(MissingMessage(name));
        }
        assert RequiredEnvVars[k..][1..] == RequiredEnvVars[k + 1..];
        k := k + 1;
      }
      return Pass;
    }
  }

  /** The flag reported by a manager built from `env` is on exactly when
      `FEATURES_ENABLED` is the string "true". */
  lemma FeatureFlagFromEnv(m: ConfigManager, env: Env)
    requires m.config.features == LoadConfig(env).features
    ensures m.GetFeatureFlag(IsEnabled) <==>
      "FEATURES_ENABLED" in env && env["FEATURES_ENABLED"] == "true"
  {
  }

  /** The class's static `instance` field: empty, or holding the cached manager. */
  class ConfigManagerSingleton {
    var instance: ConfigManager?

    /** The field starts out empty. */
    constructor ()
      ensures instance == null
    {
      instance := null;
    }

    /** The cached manager, built from the current environment if there is none. An
        existing manager is returned as it is, whatever the environment is now. */
    method GetInstance(env: Env) returns (m: ConfigManager)
      modifies this
      ensures instance == m
      ensures old(instance) != null ==> m == old(instance)
      ensures old(instance) == null ==> fresh(m) && m.config == LoadConfig(env)
    {
      if instance == null {
        instance := new ConfigManager(env);
      }
      m := instance;
    }

    /** Drops the cached manager. */
    method ResetInstance()
      modifies this
      ensures instance == null
    {
      instance := null;
    }
  }

  /** The lifecycle the tests rely on: after a reset, the first call builds from the
      environment of that moment; a second call hands back the same manager, whose
      snapshot still reflects the earlier environment; after another reset, the next
      call builds a new manager from the environment as it is then. */
  method ConfigLifecycle(s: ConfigManagerSingleton, before: Env, after: Env)
    returns (first: ConfigManager, second: ConfigManager, rebuilt: ConfigManager)
    modifies s
    ensures first == second && second.GetConfig() == LoadConfig(before)
    ensures rebuilt != first && rebuilt.GetConfig() == LoadConfig(after)
    ensures s.instance == rebuilt
  {
    s.ResetInstance();
    first := s.GetInstance(before);
    second := s.GetInstance(after);
    s.ResetInstance();
    rebuilt := s.GetInstance(after);
  }
}
