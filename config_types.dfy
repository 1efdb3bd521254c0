/** The shape of the configuration snapshot (src/config/types.ts). */
module ConfigTypes {
  import opened Wrappers

  /** Application settings. `env` is declared as one of development, staging and
      production, but the loader only casts the variable, so any string can arrive
      here. `port` is `None` where JavaScript's `parseInt` yields NaN. */
  datatype AppConfig = AppConfig(
    env: string,
    port: Option<int>,
    apiVersion: string,
    corsOrigins: seq<string>)

  datatype DatabaseConfig = DatabaseConfig(mongoUri: string)

  /** The logger settings as the loader produces them. `level` and `format` are
      declared as enumerations but are cast, not checked, so they are strings here;
      the logger validates them. */
  datatype LoggerSettings = LoggerSettings(level: string, format: string, outputPath: string)

  datatype FeatureFlags = FeatureFlags(isEnabled: bool)

  datatype Config = Config(
    app: AppConfig,
    database: DatabaseConfig,
    logger: LoggerSettings,
    features: FeatureFlags)

  /** The names of the feature flags: the keys of `FeatureFlags`. */
  datatype FeatureFlag = IsEnabled
}
