# Piwik bootstrap rules, modelled in Dafny

This project models three small pieces of Piwik's start-up code and proves what they
promise:

- the logging factories of the Monolog plugin's container configuration
  (`plugins/Monolog/plugin.php`): which log handlers the configured writer names select,
  the log level, the log file path and the line format;
- the archiving entry script `misc/cron/archive.php`: the deprecation banner, the
  rewrite of the command line for the console's `core:archive` command, the choice
  between console, php-cgi command line and HTTP, and the super-user token gate that must
  stop an HTTP run before the archiver's `main()`;
- the dependency-injection container factory (`core/Container/ContainerFactory.php`):
  which definition sources the builder receives and in which order.

Files:

- `wrappers.dfy`: `Option`.
- `php_strings.dfy`: the PHP string built-ins the code relies on: `trim()`,
  `strtoupper()`, `strpos()` used as a prefix or substring test, the falsy strings of
  `empty()` and `!`, and `implode()`; plus a split on one character, which the code never calls and which serves only to show that the corrected banner suggestion can be read back.
- `monolog_config.dfy`: the `log.handlers`, `log.level`, `log.file.filename` and
  `log.format` factories. `log.handlers` is a method with the loop that fills the PHP
  array `$writers` (a `PhpArray`: keys in insertion order plus their values), proved
  equal to the specification `SelectedWriters`; `log.file.filename` is a method
  that reassigns the path step by step; level and format are functions.
- `cron_archive.dfy`: the entry script as a class `ArchiveScript` holding
  `$_SERVER['argv']` and the trace of what the script has done; `Run` is proved to
  produce the trace `ScriptTrace`, and the lemmas state the script's guarantees about
  that trace.
- `container_factory.dfy`: `ContainerBuilder` accumulates definition sources,
  `ContainerFactory.Create` is proved to hand it exactly `Sources`, and the lemmas state
  the layering order.

Everything outside these files is an input. The container entries the factories read are
parameters: an `Option` where the factory first asks `has()`, a plain value where it only
calls `get()`. `is_dir()` and `file_exists()` are functions given as parameters. So is
whether a plugin's `config.php` evaluates to an array. Piwik\Log's constants are a map
and `Log::getMonologLevel()` is a function parameter. On the entry script's side,
`Console::isSupported()`, `Common::isPhpCliMode()`, the `token_auth` request parameter
and `CronArchive::isTokenAuthSuperUserToken()` form the `Host`. What the script does
to its collaborators (echo, `pushHandler`, `new CronArchive()`, `die()`, `main()`) is
recorded as an `Effect` in the trace.

Two points of order in the code worth noting:

- The code creates the `CronArchive` object before it checks the token, because the
  check is a method of that object. So the trace has `CreateArchiver` before `CheckToken`.
  `main()` still never runs without a valid token.
- On the php-cgi command-line path the code does not add a log handler. It points the
  existing console handler at a verbose console output. Only the HTTP path pushes a
  handler.

## Model

| member | source | states |
|---|---|---|
| `PhpStrings.IsFalsy` | plugins/Monolog/plugin.php:76 | a string is falsy for `empty()` and `!` exactly when it has at most one character and that character is `0` |
| `PhpStrings.StartsWith` | plugins/Monolog/plugin.php:67-72 | `strpos() === 0` holds exactly when the prefix fits and agrees with the string character by character |
| `PhpStrings.Contains` | misc/cron/archive.php:38 | `strpos() !== false` holds whenever the string starts with the needle, and only when the needle fits |
| `PhpStrings.ContainsAtEnd` | misc/cron/archive.php:38 | every path ending in `archive.php`, whatever directory precedes it, contains the legacy name |
| `PhpStrings.Trim` | plugins/Monolog/plugin.php:23 | trim() never lengthens a string, and its result neither starts nor ends with a space, tab, newline, carriage return, NUL or vertical tab |
| `PhpStrings.TrimPadded` | plugins/Monolog/plugin.php:23 | trim() strips exactly the padding: a string with untrimmed ends, surrounded by any trimmable characters, comes back unchanged |
| `PhpStrings.TrimRemovesOnlyPadding` | plugins/Monolog/plugin.php:23 | trim()'s result is the part of the input between a trimmable prefix and a trimmable suffix |
| `PhpStrings.TrimIdempotent` | plugins/Monolog/plugin.php:23 | trimming twice is the same as trimming once |
| `PhpStrings.Upper` | plugins/Monolog/plugin.php:55-57 | strtoupper() keeps the length and upper-cases exactly the ASCII lower-case letters |
| `PhpStrings.UpperIdempotent` | plugins/Monolog/plugin.php:55-57 | upper-casing twice, as the level factory does, is the same as once |
| `PhpStrings.Implode` | misc/cron/archive.php:43 | implode() of no parts is empty, of one part is that part |
| `PhpStrings.ImplodeAppend` | misc/cron/archive.php:43 | implode() of one more part is the earlier result, the glue and the part, or the part alone when there were none |
| `PhpStrings.SplitImplode` | misc/cron/archive.php:43 | splitting at a one-character glue gives back the parts, when there is at least one and none contains the glue |
| `MonologConfig.HandlerFor` | plugins/Monolog/plugin.php:18-22 | a name selects a handler exactly when it is `file`, `screen` or `database` |
| `MonologConfig.HandlerForInjective` | plugins/Monolog/plugin.php:18-22 | different writer names never select the same handler |
| `MonologConfig.TrimAll` | plugins/Monolog/plugin.php:23 | every writer name is trimmed, and none is dropped or reordered |
| `MonologConfig.SelectedWriters` | plugins/Monolog/plugin.php:24-29 | the keys of `$writers` are known writer names that occur in the input, and there are no more keys than names |
| `MonologConfig.PhpArray.Put` | plugins/Monolog/plugin.php:27 | assigning to a PHP array key appends a new key and leaves an existing key in place while replacing its value; key order stays free of repeats |
| `MonologConfig.PhpArray.Values` | plugins/Monolog/plugin.php:30 | array_values() lists the values in key order |
| `MonologConfig.HandlersOf` | plugins/Monolog/plugin.php:27-30 | each selected name yields the handler its class table entry names, position by position |
| `MonologConfig.LogHandlers` | plugins/Monolog/plugin.php:12-31 | with no `ini.log.log_writers` entry the result is empty; otherwise it is the handlers of the known trimmed names, each once, in order of first occurrence |
| `MonologConfig.WritersStep` | plugins/Monolog/plugin.php:24-29 | one turn of the loop keeps `$writers` keyed by the selected names in order, each holding the handler its name selects |
| `MonologConfig.SelectedWritersStep` | plugins/Monolog/plugin.php:25-29 | one more name adds itself at the end if it is known and new, and otherwise changes nothing |
| `MonologConfig.SelectedWritersComplete` | plugins/Monolog/plugin.php:25-29 | every known name of the input is selected |
| `MonologConfig.SelectedWritersDistinct` | plugins/Monolog/plugin.php:24-30 | no name is selected twice |
| `MonologConfig.SelectedWritersInFirstOccurrenceOrder` | plugins/Monolog/plugin.php:24-30 | selected names appear in the order of their first occurrence in the input |
| `MonologConfig.LogHandlersBounds` | plugins/Monolog/plugin.php:18-30 | no handler is returned twice, and there are at most three handlers and no more than configured names |
| `MonologConfig.LogHandlersFromInput` | plugins/Monolog/plugin.php:23-29 | every returned handler is the one some configured name selects once trimmed |
| `MonologConfig.LogHandlersComplete` | plugins/Monolog/plugin.php:23-29 | every configured name that is known once trimmed contributes its handler |
| `MonologConfig.PaddedWriterNameSelects` | plugins/Monolog/plugin.php:23-27 | the name `" file "` selects the file handler |
| `MonologConfig.LogLevel` | plugins/Monolog/plugin.php:53-61 | a configured, non-empty level whose upper-cased name is a Piwik\Log constant maps through getMonologLevel; an absent, empty or unknown level gives Monolog's WARNING |
| `MonologConfig.LogLevelIgnoresCase` | plugins/Monolog/plugin.php:55-56 | the level does not depend on the case of the configured name |
| `MonologConfig.InTmp` | plugins/Monolog/plugin.php:81-84 | the path is the tmp directory joined with the relative path, followed by `/piwik.log` when that names a directory and by nothing otherwise |
| `MonologConfig.LogFileName` | plugins/Monolog/plugin.php:63-87 | a path starting with `/` is returned unchanged; otherwise the result starts with `path.tmp`, a leading `tmp/` loses only `tmp`, an empty path becomes `/logs/piwik.log`, and `/piwik.log` is appended when the result is a directory |
| `MonologConfig.LogFormat` | plugins/Monolog/plugin.php:92-97 | the configured format when there is one, else `%level% %tag%[%datetime%] %message%` |
| `CronArchive.Callee` | misc/cron/archive.php:32-36 | the callee is `argv[0]` when argv is set and that entry is not empty(), and the empty string otherwise |
| `CronArchive.ArgumentsAfterScript` | misc/cron/archive.php:43 | the banner's arguments are argv after its first entry, in order, null read as "" |
| `CronArchive.SuggestedArgumentsAsWritten` | misc/cron/archive.php:43 | as written, two arguments are glued together with nothing between them |
| `CronArchive.SuggestedArguments` | misc/cron/archive.php:43 | as intended, two arguments are separated by one space |
| `CronArchive.AsWrittenAppends` | misc/cron/archive.php:43 | as written, for any number of arguments, each further argument is appended directly, with no separator |
| `CronArchive.SuggestionAsWrittenMergesArguments` | misc/cron/archive.php:43 | as written, two different command lines produce the same suggested command |
| `CronArchive.SuggestedArgumentsRecoverable` | misc/cron/archive.php:43 | the space-separated suggestion splits back into the original arguments, whenever there is at least one argument and none contains a space |
| `CronArchive.FirstOrNull` | misc/cron/archive.php:57 | array_shift() yields the first entry, or null for an empty array |
| `CronArchive.DropFirst` | misc/cron/archive.php:57 | what array_shift() leaves, with the shifted entry put back in front, is the original array; an empty array stays empty |
| `CronArchive.Rewritten` | misc/cron/archive.php:56-59 | the rewritten argv has `core:archive` second and is one entry longer, or two entries long when argv was empty |
| `CronArchive.RewrittenEmpty` | misc/cron/archive.php:56-59 | an empty argv becomes null followed by `core:archive`, because array_shift() of an empty array yields null |
| `CronArchive.RewrittenInjectsCommand` | misc/cron/archive.php:56-59 | the rewritten argv is the script name, `core:archive`, then the other arguments in their order; it is one entry longer |
| `CronArchive.ConsolePath` | misc/cron/archive.php:53 | the console is used only when argv is set, and never when the console is unsupported |
| `CronArchive.Banner` | misc/cron/archive.php:38-51 | the banner is printed at most once, and it suggests the arguments after the script name |
| `CronArchive.DirectRun` | misc/cron/archive.php:62-93 | the direct path has four steps and creates the archiver; over HTTP the archiver is created, then the request's token is checked, then the run ends; it ends in `main()` or the halt, always in `main()` on the command line |
| `CronArchive.Outcome` | misc/cron/archive.php:53-93 | what follows the banner is never empty and never prints the banner again |
| `CronArchive.ScriptTrace` | misc/cron/archive.php:32-93 | every run does between one and five observable things |
| `CronArchive.BannerIffLegacyCallee` | misc/cron/archive.php:38-51 | the banner is the first effect exactly when the callee contains `archive.php`, and it never appears later |
| `CronArchive.ConsolePathNeverArchives` | misc/cron/archive.php:53-61 | with argv set and the console supported, the console runs on the rewritten argv as the last effect, and the archiver is never created or run |
| `CronArchive.HttpBadTokenHalts` | misc/cron/archive.php:82-90 | over HTTP with a token that is not a super user's, the script halts right after the check and `main()` runs zero times |
| `CronArchive.HttpGoodTokenRunsOnce` | misc/cron/archive.php:82-93 | over HTTP with a super user's token, `main()` runs exactly once, last, and the script does not halt |
| `CronArchive.CliRunsWithoutToken` | misc/cron/archive.php:64-93 | on the php-cgi command line no token is checked and no handler is pushed; the console output is made verbose and `main()` runs exactly once, last |
| `CronArchive.HttpLogsToResponseFirst` | misc/cron/archive.php:71-93 | over HTTP exactly one handler is pushed, the INFO-level `php://output` stream handler, before the token check and before `main()` |
| `CronArchive.ArchiverRunsOnlyBehindGate` | misc/cron/archive.php:80-93 | whenever `main()` runs outside the command line, the request's token was checked earlier and is a super user's |
| `CronArchive.OneOutcome` | misc/cron/archive.php:53-93 | every run ends in exactly one way: the console ran, `main()` ran, or the script halted on the token |
| `CronArchive.ArchiveScript.constructor` | misc/cron/archive.php:53 | the process's argv, or its absence, is what the script starts from, with an empty trace |
| `CronArchive.ArchiveScript.ArrayShift` | misc/cron/archive.php:57 | array_shift() returns the first entry, or null for an empty array, and removes it |
| `CronArchive.ArchiveScript.ArrayUnshift` | misc/cron/archive.php:58-59 | array_unshift() puts the value in front |
| `CronArchive.ArchiveScript.RewriteArguments` | misc/cron/archive.php:56-59 | the shift and two unshifts leave argv rewritten for `core:archive` |
| `CronArchive.ArchiveScript.Announce` | misc/cron/archive.php:32-51 | the banner is emitted exactly as `Banner` says, and nothing else is |
| `CronArchive.ArchiveScript.RunDirectly` | misc/cron/archive.php:62-93 | the direct path appends exactly `DirectRun`: log set-up, the archiver, and over HTTP the token check followed by either the halt or `main()` |
| `CronArchive.ArchiveScript.Run` | misc/cron/archive.php:32-93 | the script appends exactly `ScriptTrace` to its trace, and it changes argv only on the console path, to the rewritten form |
| `Container.IsTruthy` | core/Container/ContainerFactory.php:77 | a truthy environment is a non-empty string, and every string of two or more characters is truthy |
| `Container.BaseSources` | core/Container/ContainerFactory.php:51-54 | the INI source, then `config/global.php` under PIWIK_USER_PATH |
| `Container.PluginConfigUsable` | core/Container/ContainerFactory.php:93-99 | a missing configuration file is skipped; an existing one is used exactly when it evaluates to an array |
| `Container.DevSources` | core/Container/ContainerFactory.php:60-62 | one development source, `config/environment/dev.php`, exactly when development mode is on |
| `Container.UserSources` | core/Container/ContainerFactory.php:65-67 | one user source, `config/config.php`, exactly when that file exists |
| `Container.EnvironmentSources` | core/Container/ContainerFactory.php:77-83 | one environment source, named after the environment, exactly when the environment is truthy |
| `Container.Sources` | core/Container/ContainerFactory.php:50-70 | the builder receives at least the two fixed sources and at most one per activated plugin plus five |
| `Container.PluginSources` | core/Container/ContainerFactory.php:86-102 | no more plugin sources than activated plugins; each is an activated plugin's `config.php` that exists and evaluates to an array |
| `Container.PluginSourcesStep` | core/Container/ContainerFactory.php:90-101 | one more activated plugin adds its configuration at the end exactly when it is usable |
| `Container.PluginSourcesAppend` | core/Container/ContainerFactory.php:90-102 | plugin sources follow the order of the activated plugins: a list of plugins after another adds its sources after the other's |
| `Container.PluginSourcesExactly` | core/Container/ContainerFactory.php:90-101 | a plugin's configuration is added exactly when the plugin is activated and its file exists and evaluates to an array |
| `Container.SourcesInLayerOrder` | core/Container/ContainerFactory.php:50-72 | the INI source is first, `config/global.php` second, and then plugin, development, user and environment sources, never out of that order |
| `Container.SourcesPluginBlock` | core/Container/ContainerFactory.php:53-57 | the plugin sources come right after the global configuration, and there are no others |
| `Container.DevConfigIffDevelopment` | core/Container/ContainerFactory.php:59-62 | the development configuration is present exactly when development mode is on |
| `Container.UserConfigIffFileExists` | core/Container/ContainerFactory.php:64-67 | the user configuration is present exactly when `config/config.php` exists |
| `Container.EnvironmentConfigLast` | core/Container/ContainerFactory.php:75-84 | the environment configuration is present exactly when the environment is truthy, and then it is last and named `PIWIK_USER_PATH/config/environment/<env>.php` |
| `Container.ContainerBuilder.constructor` | core/Container/ContainerFactory.php:45 | a new builder has no definitions and the library's default settings |
| `Container.ContainerBuilder.UseAnnotations` | core/Container/ContainerFactory.php:47 | the annotation setting becomes the given flag |
| `Container.ContainerBuilder.SetDefinitionCache` | core/Container/ContainerFactory.php:48 | the definition cache becomes the given cache |
| `Container.ContainerBuilder.AddDefinitions` | core/Container/ContainerFactory.php:51-54 | a source is added after all earlier ones |
| `Container.ContainerBuilder.Build` | core/Container/ContainerFactory.php:72 | the container is built from the sources in order and the settings |
| `Container.ContainerFactory.constructor` | core/Container/ContainerFactory.php:33-36 | the environment argument is stored unchanged |
| `Container.ContainerFactory.Create` | core/Container/ContainerFactory.php:43-73 | the built container gets exactly `Sources`, without annotations and with an array cache |
| `Container.ContainerFactory.AddEnvironmentConfig` | core/Container/ContainerFactory.php:75-84 | adds the environment's configuration when the environment is truthy, and nothing otherwise |
| `Container.ContainerFactory.AddPluginConfigs` | core/Container/ContainerFactory.php:86-103 | adds the plugin sources after the builder's earlier sources |

## Left out

- Monolog, PHP-DI and Symfony Console are foreign libraries. Their behaviour is not modelled. This covers what a handler does with a record, what `pushHandler` does to the logger's handler list, what `setOutput` does, and what `build()` does with the sources. In particular, later sources overriding earlier ones is PHP-DI's behaviour; the model states only the order.
- The static service declarations in `plugins/Monolog/plugin.php:9-10, 33-51, 89-90` are left out. They cover the logger, the processors, the handlers' constructor arguments and the formatter. They are wiring with no decision in them.
- Piwik\Log's constants and `Log::getMonologLevel()` are not part of this model. They are inputs of `LogLevel`.
- A container `get()` of a missing entry throws. These are `ini.log.logger_file_path` and `path.tmp` in `log.file.filename`. This is not modelled: those are plain string inputs.
- `ini.log.log_writers` is taken to be a list of strings. What PHP does with another type (a bare string, numbers) is not modelled.
- `strtoupper()` is modelled on ASCII letters only. That is PHP 8.2's behaviour, and every version's under the C locale; earlier versions follow the locale otherwise.
- The bootstrap of `misc/cron/archive.php:18-30` is process set-up with no logic. It covers the `define()` toggles and `require_once index.php`.
- The `echo` text of the banner and the HTML of the `die()` message are fixed output. The trace records that they were emitted and which arguments the banner suggests, not their wording.
- `CronArchive::main()`, `isTokenAuthSuperUserToken()`, `Console::run()` and `new CronArchive()` are opaque events or inputs. `new Piwik\Console()` (misc/cron/archive.php:54) and the stream handler's `setFormatter()` with the line message formatter (misc/cron/archive.php:76) are not recorded in the trace at all. Their implementation is not part of this model. So is `Common::getRequestVar()`, beyond its default of "" for a missing `token_auth`.
- `Common::isPhpCliMode()` is called twice by the script. The model reads one value for both calls.
- `require $file` of a plugin configuration is reduced to whether its value is an array. Any other effect of running that file is left out.

## Findings

| source | as written | input that shows it | evidently intended | confidence | as-written member | corrected member |
|---|---|---|---|---|---|---|
| misc/cron/archive.php:43 | the banner suggests `core:archive` followed by `implode('', array_slice($_SERVER['argv'], 1))`, gluing the arguments together | argv `["archive.php", "--url=http://x/", "--force-all-websites"]` suggests `core:archive --url=http://x/--force-all-websites`, the same as for the single argument `--url=http://x/--force-all-websites` | the arguments separated by spaces, so that the suggested command can be run as shown | high, not executed | `CronArchive.SuggestionAsWrittenMergesArguments` | `CronArchive.SuggestedArgumentsRecoverable` |

The banner effect records the argument list itself (`DeprecationNotice(arguments)`).
`SuggestedArguments` renders it as intended and `SuggestedArgumentsAsWritten` renders it
as the code does.
