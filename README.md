# Configuration manager and logger front-end, modelled in Dafny

This project models the two components of the URL-shortener service that turn the
process environment into settings:

- the **configuration manager** (`src/config/index.ts`). It builds a configuration
  snapshot from environment variables, using fixed defaults for unset or empty
  variables. It caches the manager in a resettable singleton. It also offers an
  opt-in strict check that fails on the first required variable that is missing.
- the **logger front-end** (`src/utils/logger/index.ts`). It validates the logger
  settings of the snapshot against allow-lists, with its own defaults. It decides
  the options of the underlying winston logger: level, record layout, and a
  daily-rotating file transport. It defines the text line layout. It offers four
  leveled logging methods that refuse an empty message and otherwise forward the
  call unchanged. It is also cached in a resettable singleton.

Files:

- `wrappers.dfy`: `Option` (TypeScript's `T | undefined`) and `Outcome` (returns, or
  throws an `Error` with a message).
- `builtins.dfy`: the JavaScript built-ins the loader relies on. These are
  `String.prototype.split` on one character and its inverse `join`, and
  `parseInt(s, 10)`, which gives `None` where JavaScript gives NaN.
- `config_types.dfy`: the record shape of `src/config/types.ts`.
- `config.dfy`: `LoadConfig`, strict validation, the `ConfigManager` class and the
  static `instance` field as the `ConfigManagerSingleton` class.
- `logger.dfy`: the validators, the resolved `LoggerConfig`, the winston options,
  the `printf` text layout, the `Logger` class, the winston logger as a trace of
  forwarded records, and the static `instance` field as `LoggerSingleton`.

The environment is a `map<string, string>`. A variable that is not set is not a key.
`Present(env, name)` means "set and non-empty". That is JavaScript's truthiness test,
which both `x || default` and `!process.env[x]` use. Every operation that reads the
environment takes it as a parameter.

Some behaviours of the code are easy to miss. The model follows the code in each:

- An empty `CORS_ORIGINS` yields `[""]`, not an empty list: the loader splits any
  value that is set (`CorsOriginsFromEnv`).
- `NODE_ENV`, `LOG_LEVEL` and `LOG_FORMAT` are copied into the snapshot without any
  check against their declared enumerations (`LoadConfigCopiesVerbatim`). Only the
  logger validates level and format.
- A non-numeric `PORT` gives NaN, and there is no fallback to 3000 (`PortFromEnv`,
  `Builtins.ParseInt`).
- Nothing keeps the port positive: `"-5"` gives -5 (`Builtins.ParseIntOfNegative`).
- The loader's path default is `logs/app.log`, so the logger's own
  `logs/app-%DATE%.log` fallback is never reached for settings produced by the loader
  (`SinkOptionsFromEnv`).

## Model

| member | source | states |
|---|---|---|
| `Builtins.Split` | src/config/index.ts:34 | `split(',')` always yields at least one piece, and no piece contains the separator |
| `Builtins.JoinSplit` | src/config/index.ts:34 | joining the pieces of a split with the separator gives back the original string |
| `Builtins.SplitJoin` | src/config/index.ts:34 | splitting a join of separator-free pieces gives back the pieces (the other direction of the round trip) |
| `Builtins.SplitCount` | src/config/index.ts:34 | a split has one more piece than the string has separators |
| `Builtins.TrimStart` | src/config/index.ts:32 | `parseInt` skips exactly the leading JavaScript whitespace: everything dropped is whitespace, and what remains does not start with whitespace |
| `Builtins.TrimStartOfWhitespace` | src/config/index.ts:32 | whitespace in front of text that does not start with whitespace is removed, and nothing more |
| `Builtins.DigitPrefix` | src/config/index.ts:32 | the digits `parseInt` reads are the longest prefix of decimal digits |
| `Builtins.ParseDigits` | src/config/index.ts:32 | the digits after the sign give a number exactly when the text starts with a digit, and that number is never negative |
| `Builtins.ParseSigned` | src/config/index.ts:32 | after an optional `+` or `-` the text gives a number exactly when a digit follows the sign; the number is negative only after a `-` |
| `Builtins.ParseInt` | src/config/index.ts:32 | `parseInt(s, 10)` is NaN exactly when no digit follows the leading whitespace and the optional sign; a negative result comes only from a leading `-`; `ParseIntValue` gives its value on every input that parses |
| `Builtins.ParseIntValue` | src/config/index.ts:32 | any leading whitespace, an optional `+` or `-`, a run of digits and then text that does not start with a digit parse to the value of the run, negated after `-` (so `" 4000"`, `"+4000"`, `"-05"` and `"-5px"` give 4000, 4000, -5 and -5) |
| `Builtins.DecimalValueOfString` | src/config/index.ts:32 | reading back the decimal rendering of a natural number gives the number |
| `Builtins.ParseIntOfDigits` | src/config/index.ts:32 | a run of digits followed by a non-digit parses to the run's value; trailing text is ignored |
| `Builtins.ParseIntOfDecimal` | src/config/index.ts:32 | `parseInt` of the decimal rendering of `n`, with any non-digit suffix, is `n` |
| `Builtins.ParseIntOfNegative` | src/config/index.ts:32 | a leading `-` negates the value, so negative ports come through |
| `ConfigManagement.DefaultPortValue` | src/config/index.ts:32 | the port default `'3000'` parses to 3000 |
| `ConfigManagement.OrDefault` | src/config/index.ts:27-45 | a variable with an or-default is its value when it is set and non-empty and the default otherwise, so it is empty only when the default is |
| `ConfigManagement.LoadConfig` | src/config/index.ts:26-51 | every string field of the snapshot is non-empty; the origins are `[]` exactly when `CORS_ORIGINS` is unset, and at least one piece otherwise; the flag is on only when `FEATURES_ENABLED` is set; the field-by-field values are given by `LoadConfigDefaults`, `LoadConfigCopiesVerbatim`, `LoggerSettingsFromEnv`, `CorsOriginsFromEnv`, `PortFromEnv` and `FeatureEnabledIff` |
| `ConfigManagement.LoadConfigReadsOnlyConsumed` | src/config/index.ts:26-51 | two environments that agree on the nine variables the loader reads give the same snapshot, whatever else they hold |
| `ConfigManagement.LoadConfigDefaults` | src/config/index.ts:27-49 | with every variable unset or empty and `CORS_ORIGINS` unset, the snapshot is development, 3000, v1, `[]`, `mongodb://localhost:27017/dev_db`, info, json, `logs/app.log`, feature off |
| `ConfigManagement.LoadConfigCopiesVerbatim` | src/config/index.ts:27-45 | a set, non-empty `NODE_ENV`, `API_VERSION`, `MONGO_URI`, `LOG_LEVEL`, `LOG_FORMAT` or `LOG_OUTPUT_PATH` is copied into its field unchanged, with no allow-list check |
| `ConfigManagement.LoggerSettingsFromEnv` | src/config/index.ts:41-46 | the loaded logger level, format and path are the variables when set and non-empty and info, json and `logs/app.log` otherwise, so none of them is ever empty |
| `ConfigManagement.CorsOriginsFromEnv` | src/config/index.ts:34 | origins are `[]` when `CORS_ORIGINS` is unset; otherwise they are its comma-free pieces in order, they join back to the value, there is one more of them than there are commas, and `""` gives `[""]` |
| `ConfigManagement.PortFromEnv` | src/config/index.ts:32 | the port is the decimal value of `PORT`; it is 3000 when `PORT` is unset or empty; it is NaN when `PORT` starts with no digit, sign or whitespace |
| `ConfigManagement.FeatureEnabledIff` | src/config/index.ts:48 | `features.isEnabled` holds exactly when `FEATURES_ENABLED` is the string `"true"` |
| `ConfigManagement.FirstMissing` | src/config/index.ts:73-77 | a name the walk reports is one of the names, and it is unset or empty; `FirstMissingNoneIff` and `FirstMissingIsFirst` add that it is the first such name and that nothing is reported only when all are present |
| `ConfigManagement.Validation` | src/config/index.ts:61-78 | a failure names one of the eight required variables, and that variable is unset or empty; `ValidationMeaning` adds the iff and the first-in-order guarantee |
| `ConfigManagement.FirstMissingNoneIff` | src/config/index.ts:73-77 | the walk over the names finds nothing missing exactly when every name is set and non-empty |
| `ConfigManagement.FirstMissingIsFirst` | src/config/index.ts:73-77 | a name the walk reports is unset or empty, and every name before it is present |
| `ConfigManagement.ValidationMeaning` | src/config/index.ts:61-78 | validation passes exactly when all eight required variables are present; otherwise the message names the first missing one in list order |
| `ConfigManagement.ValidationOfEmptyEnv` | src/config/index.ts:62-75 | with nothing set, validation fails naming `NODE_ENV` |
| `ConfigManagement.ValidationIgnoresOutputPath` | src/config/index.ts:62-71 | setting, changing or removing `LOG_OUTPUT_PATH` never changes the validation outcome |
| `ConfigManagement.SameRequiredPresence` | src/config/index.ts:73-77 | environments that agree on every name except `LOG_OUTPUT_PATH` get the same first missing name |
| `ConfigManagement.ConfigManager.constructor` | src/config/index.ts:11-13 | a new manager holds the snapshot loaded from the environment as it is at construction |
| `ConfigManagement.ConfigManager.GetConfig` | src/config/index.ts:53-55 | the stored snapshot is returned as it is, never reloaded; with the constructor and `ConfigLifecycle` this means it reflects the environment at construction |
| `ConfigManagement.ConfigManager.GetFeatureFlag` | src/config/index.ts:57-59 | the flag `isEnabled`, the only key of the features section, is read from the stored snapshot; `FeatureFlagFromEnv` ties it to `FEATURES_ENABLED` |
| `ConfigManagement.ConfigManager.ValidateConfig` | src/config/index.ts:61-78 | the loop over the required names returns exactly the validation outcome: it fails on the first missing name and passes otherwise; it changes nothing, including the stored snapshot |
| `ConfigManagement.FeatureFlagFromEnv` | src/config/index.ts:57-59 | `getFeatureFlag('isEnabled')` of a manager built from an environment is true exactly when `FEATURES_ENABLED` is `"true"` there |
| `ConfigManagement.ConfigManagerSingleton.constructor` | src/config/index.ts:8 | the static instance starts out empty |
| `ConfigManagement.ConfigManagerSingleton.GetInstance` | src/config/index.ts:15-20 | an existing instance is returned as it is, whatever the environment is now; otherwise a new manager is built from the current environment and stored |
| `ConfigManagement.ConfigManagerSingleton.ResetInstance` | src/config/index.ts:22-24 | the cached instance is dropped |
| `ConfigManagement.ConfigLifecycle` | src/config/index.ts:11-24 | after a reset, two calls give the same manager, whose snapshot reflects the earlier environment even after the environment changed; after another reset, a new manager reflects the new environment |
| `Logging.ValidateLogLevel` | src/utils/logger/index.ts:68-71 | a level is accepted exactly when it is on the allow-list error/warn/info/debug, and the accepted level has that name |
| `Logging.ValidateLogFormat` | src/utils/logger/index.ts:73-76 | a format is accepted exactly when it is json or text, and the accepted format has that name |
| `Logging.ValidateOutputPath` | src/utils/logger/index.ts:78-80 | a path is accepted exactly when it is non-empty, and it is kept unchanged |
| `Logging.ValidateNames` | src/utils/logger/index.ts:68-76 | validation is the inverse of naming: each level and format is accepted under its own name, and distinct levels have distinct names |
| `Logging.ResolveLoggerConfig` | src/utils/logger/index.ts:24-35 | the resolved level is the configured one if allowed, else info; the format is the configured one if allowed, else text; the path is the configured one if non-empty, else `logs/app-%DATE%.log`; so each is always on its allow-list, or non-empty |
| `Logging.ResolveKeepsValidSettings` | src/utils/logger/index.ts:31-35 | settings that are all valid pass through resolution unchanged |
| `Logging.SinkOptionsFor` | src/utils/logger/index.ts:38-64 | the winston level is the resolved level; JSON layout exactly for the json format; the file transport writes to the resolved path, rotates by `YYYY-MM-DD`, zips archives, keeps `20m` per file and `14d` of files; the console transport is colorized simple |
| `Logging.SinkOptionsFromSettings` | src/utils/logger/index.ts:38-64 | the winston level is the resolved level; JSON layout is chosen exactly for the format `json`; the file transport writes to the resolved path with `YYYY-MM-DD`, zipped archive, `20m` and `14d`; the console is colorized simple |
| `Logging.SinkOptionsFromEnv` | src/utils/logger/index.ts:15-35 | for settings from the loader, the file is the loaded path (`logs/app.log` by default) and never the logger's fallback; an unset format gives JSON layout; an unset or unknown level gives info |
| `Logging.UpperAscii` | src/utils/logger/index.ts:46 | upper-casing keeps the length and maps each character to its upper-case form |
| `Logging.LevelTag` | src/utils/logger/index.ts:46 | the bracketed tags are ERROR, WARN, INFO and DEBUG, the upper-cased level names |
| `Logging.TextLine` | src/utils/logger/index.ts:45-49 | for any metadata, the line holds the timestamp, ` [`, the level tag, `]:`, a space, the message and a space at fixed positions; after that comes the rendered metadata when it has a key and nothing otherwise, and the length is exactly the sum of the pieces |
| `Logging.WinstonLogger.constructor` | src/utils/logger/index.ts:38-65 | the winston logger keeps the options it is created with and starts with no records |
| `Logging.WinstonLogger.Log` | src/utils/logger/index.ts:107 | forwarding appends exactly one record with the level, message and metadata given |
| `Logging.Logger.constructor` | src/utils/logger/index.ts:21-66 | a new logger creates a fresh winston logger whose options come from the resolved settings, with an empty trace |
| `Logging.Logger.Info` | src/utils/logger/index.ts:103-108 | an empty message fails with `Log message cannot be empty` and forwards nothing; any other message is forwarded once at info with its metadata unchanged (an absent one too), and nothing else is recorded |
| `Logging.Logger.Error` | src/utils/logger/index.ts:115-120 | the same as `Info`, at error level |
| `Logging.Logger.Warn` | src/utils/logger/index.ts:127-132 | the same as `Info`, at warn level |
| `Logging.Logger.Debug` | src/utils/logger/index.ts:139-144 | the same as `Info`, at debug level |
| `Logging.LoggerSingleton.constructor` | src/utils/logger/index.ts:18 | the static instance starts out empty |
| `Logging.LoggerSingleton.GetInstance` | src/utils/logger/index.ts:87-92 | an existing logger is returned as it is; otherwise a new one is created from the logger settings of the configuration captured when the module loaded |
| `Logging.LoggerSingleton.ResetInstance` | src/utils/logger/index.ts:94-96 | the cached logger is dropped |
| `Logging.LoggerLifecycle` | src/utils/logger/index.ts:87-96 | two calls without a reset give the same logger; after a reset, the next call creates a new logger with its own winston logger and an empty trace |

## Left out

- Reading the `.env` file (`dotenv.config()`) is file I/O. The environment is a parameter of every operation that reads it.
- The eager module-level singletons (`configManager`, `logger`) and the configuration captured when the logger module loads depend on module load order. The captured snapshot is the `captured` parameter of `LoggerSingleton.GetInstance`.
- `parseInt`: the port is an unbounded integer. JavaScript's loss of precision above 2^53, its `Infinity` for a digit run beyond `Number.MAX_VALUE` (the model keeps the exact integer) and its `-0` (modelled as 0) are not represented. NaN is `None`.
- winston and `winston-daily-rotate-file` internals are library code and are not modelled. This covers writing to the console and the file, filtering records by level, date substitution in the file name, rotation, compression, colorizing, `format.simple`, `format.json`, the timestamp value and `JSON.stringify`. The metadata renderer is a parameter of `TextLine`, and the JSON layout is only named.
- How winston merges the metadata argument into the record is not modelled. `TextLine` receives the fields that remain besides timestamp, level and message, as the `printf` callback does.
- Metadata values are a JSON-like stand-in (`Logging.Value`). Fractional numbers, `Error` objects and functions are not represented.
- `Logging.UpperAscii`: this upper-cases ASCII only. It is only ever applied to the four level names, so the upper-casing of other characters is not modelled.
- `typeof path === 'string'` in the path validator always holds here, because the settings are strings. Non-string values cannot reach the validators in the model.
- The `uncaughtException` handler logs and then calls `process.exit(1)`. Both are process-level side effects.
- The Express server bootstrap (`index.ts`) is network glue.
- Neither singleton guards its construction against concurrent callers. The source has no mechanism for this, so there is nothing to model.
- ConfigManagement.ConfigManager.GetConfig: the snapshot is modelled as a value. `getConfig` returns the same mutable object on every call, and the logger module's captured `config` is that object, so a caller that writes through it changes what later readers see; such writes, and that aliasing, are not modelled. The core itself never writes through it.
- Both TypeScript constructors are private. Dafny has no access control, so `ConfigManager` and `Logger` can be constructed directly.
