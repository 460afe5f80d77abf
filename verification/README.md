# Allegro bootstrap core, modelled in Dafny

Allegro is a small PHP bootstrap layer for service applications. An
`AllegroApp` locates the application's top-level directory, loads a fixed
sequence of YAML configuration files into a Symfony DI container, compiles
it, and then offers three runtime facilities: a logger lookup that falls
back to a `ConsoleLogger` and warns about it only once, a SIGTERM flag that
the main loop polls, and a heartbeat file (`ping()`) that a separate
liveness-probe script inspects.

This project models Allegro's own logic and proves what it promises:

- `php.dfy` (module `Php`): PHP's string truthiness (`""` and `"0"` are
  false), `strtr`, `strrpos`, `strtoupper`, decimal interpolation of an
  integer, and the exception data (`Throwable`, with a family telling
  RuntimeException, other Exception and Error apart, because Allegro's
  `catch` clauses tell them apart).
- `app_dir.dfy` (module `AppDir`): `findApplicationDir` as a `while` loop
  over a normalised path, proved equal to a recursive specification
  (`Search`), which in turn is proved to return the nearest marked
  ancestor. The filesystem is a set of existing paths. A ghost trail
  records every probed directory.
- `console_logger.dfy` (module `ConsoleLogger`): `log` as a function to the
  one (stream, text) write it performs.
- `allegro_app.dfy` (module `Allegro`): the error handler, the
  constructor's catch/wrap logic, the configuration load order, and the
  class `AllegroApp`. The class holds the fields the source updates in
  place (`termSignalReceived`, `loggerFailed`). Pure step functions
  (`TermStep`, `GetLoggerStep`) specify its methods, and lemmas about
  sequences of calls state the properties across calls.
- `liveness_probe.dfy` (module `LivenessProbe`): the probe's
  MISSING / FAILURE TIMESTAMP / EXPIRED / OK classification.

Behaviour worth knowing, as the code has it:

- The upward walk never probes the empty prefix. From a POSIX
  subdirectory such as `/app`, cutting at the last slash gives `""`, which
  PHP's `while ($dir)` treats as false, so the root's marker is skipped.
  Started at `/` itself, the walk probes `//config/allegro.yml`, which is
  the root's marker. From a Windows directory such as `C:\app` it reaches
  `C:` and probes the drive root's `C:/config/allegro.yml`. The walk also
  stops at a prefix `"0"`. `ALLEGRO_APP_DIR="0"` is ignored like an unset
  variable.
- `new DateTime()` keeps microseconds but `filemtime` gives whole seconds.
  So a file whose time equals the whole-second part of "now" minus the
  timeout is already EXPIRED once any microsecond of that second has
  passed. `LivenessProbe.FractionalClock` states this.
- A PHP error promoted by the error handler during construction is an
  ErrorException. ErrorException is not a RuntimeException, so the
  constructor wraps it.
- `catch (Exception $ex)` does not catch PHP `Error`s. Both the
  constructor and `getLogger` let them through unchanged.

- With `ALLEGRO_ENV_CONFIG` unset, `config.yml` is still loaded, so its
  absence fails the load like any other file
  (`Allegro.DefaultEnvConfigIsRequired`).
- `ConsoleLogger` chooses its stream by level only.

## Model

| member | source | states |
|---|---|---|
| `Php.Strtr` | src/AllegroApp.php:174 | every `\` becomes `/`, every other character and the length are kept, and no `\` remains |
| `Php.Strrpos` | src/AllegroApp.php:178-179 | false (None) exactly when the character is absent; otherwise an index holding it with no later occurrence |
| `Php.Strtoupper` | src/Implementation/ConsoleLogger.php:37 | same length, each character upper-cased ASCII-wise, all else kept |
| `Php.Decimal` | src/Implementation/ConsoleLogger.php:63 | the line number is rendered as a non-empty string of digits without leading zero |
| `Php.DecimalRoundTrip` | src/Implementation/ConsoleLogger.php:63 | the rendered line number reads back as the same number |
| `AppDir.Normalize` | src/AllegroApp.php:173-174 | the searched path has the cwd's length and contains no backslash |
| `AppDir.Search` | src/AllegroApp.php:173-183 | an answer of the walk is a truthy slash-boundary prefix of the path holding the marker, and a marked starting directory is its own answer |
| `AppDir.Locate` | src/AllegroApp.php:169-183 | a truthy `ALLEGRO_APP_DIR` is the answer; without it, any answer is a marked truthy ancestor of the normalised cwd |
| `AppDir.FindApplicationDir` | src/AllegroApp.php:167-184 | the loop returns what the search specification returns; a truthy `ALLEGRO_APP_DIR` is returned verbatim with no file probed; otherwise the probes are exactly the walk's |
| `AppDir.SearchSound` | src/AllegroApp.php:173-183 | the walk's answer is a slash-boundary prefix of the path, holds the marker, and no longer such prefix does; no answer means no prefix holds it |
| `AppDir.LocateFindsNearestAncestor` | src/AllegroApp.php:169-183 | without an override, the located directory is the nearest marked ancestor of the normalised cwd, and "not found" happens exactly when no ancestor is marked |
| `AppDir.ProbedClimbs` | src/AllegroApp.php:175-181 | every probed directory is a candidate prefix and each is strictly shorter than the previous one |
| `AppDir.ProbedStopsAtMarker` | src/AllegroApp.php:175-183 | every probe before the last failed, and the walk answers the last probed directory exactly when it holds the marker |
| `AppDir.SearchFromDescendant` | src/AllegroApp.php:173-182 | from any directory below a marked root with nothing marked in between, the walk returns that root |
| `ConsoleLogger.ExceptionIn` | src/Implementation/ConsoleLogger.php:39-40 | the context's "exception" entry counts only when it is a Throwable |
| `ConsoleLogger.LevelPrefix` | src/Implementation/ConsoleLogger.php:37 | empty for info; otherwise the upper-cased level followed by one space |
| `ConsoleLogger.FormatException` | src/Implementation/ConsoleLogger.php:60-64 | the summary is the file, a colon, a non-empty digit string that reads back as the line number, a space, the class name, a colon and space, and the message |
| `ConsoleLogger.StreamFor` | src/Implementation/ConsoleLogger.php:48-56 | standard output exactly for notice, info and debug |
| `ConsoleLogger.Log` | src/Implementation/ConsoleLogger.php:35-58 | the single write goes to the level's stream |
| `ConsoleLogger.PlainLine` | src/Implementation/ConsoleLogger.php:39-46 | without a Throwable the text is prefix + message + newline, and a non-Throwable context value changes nothing |
| `ConsoleLogger.ExceptionLine` | src/Implementation/ConsoleLogger.php:40-64 | with a Throwable the text is prefix + message + ` [file:line Class: msg]`, a newline, the trace and a newline |
| `ConsoleLogger.LineShape` | src/Implementation/ConsoleLogger.php:37-46 | every write begins with prefix + message (the message itself for info) and ends with a newline |
| `ConsoleLogger.Routing` | src/Implementation/ConsoleLogger.php:48-56 | stdout if and only if the level is notice, info or debug; warnings go to stderr |
| `ConsoleLogger.KnownLevelPrefixes` | src/Implementation/ConsoleLogger.php:37 | error, warning, notice and debug get prefixes ERROR, WARNING, NOTICE, DEBUG and a space |
| `Allegro.PhpErrorHandler` | src/AllegroApp.php:125-132 | a severity masked out by error reporting is ignored; any other is thrown as an ErrorException with exactly the given message, severity, file and line |
| `Allegro.AppDirNotFound` | src/AllegroApp.php:183 | the walk's failure is a RuntimeException with the "app dir not found" message, code 0 and no previous exception |
| `Allegro.CatchInit` | src/AllegroApp.php:50-61 | RuntimeExceptions and Errors leave unchanged; any other Exception is wrapped in a RuntimeException "Allegro initialization error (msg)" whose previous is the original; nothing non-runtime escapes |
| `Allegro.CatchInitIdempotent` | src/AllegroApp.php:56-61 | catching the constructor's exception again changes nothing |
| `Allegro.PromotedErrorIsWrapped` | src/AllegroApp.php:125-131 | an error promoted by the handler during construction surfaces wrapped with its own message inside |
| `Allegro.EnvConfigFile` | src/AllegroApp.php:196-198 | `ALLEGRO_ENV_CONFIG` when non-empty in PHP's sense, else config.yml |
| `Allegro.ConfigFiles` | src/AllegroApp.php:196-203 | four files are loaded, the environment file second |
| `Allegro.LoadServiceDefinitions` | src/AllegroApp.php:191-206 | the load succeeds exactly when none of the four files fails, and a failure is the exception some file threw |
| `Allegro.LoadAll` | src/AllegroApp.php:200-203 | loads succeed only if no file fails, and then every file was loaded in order; a failure is the exception of the earliest failing file |
| `Allegro.LoadOrder` | src/AllegroApp.php:196-203 | the load order is allegro.yml, the environment file, the vendored services.yml, services.yml; an earlier failure wins over a later one |
| `Allegro.DefaultEnvConfigIsRequired` | src/AllegroApp.php:196-201 | with the variable unset, a failing config.yml fails the whole load |
| `Allegro.InitBody` | src/AllegroApp.php:50-55 | the `try` body succeeds exactly when the directory is located, no file fails and the compile succeeds; an unlocated directory throws "app dir not found", a failing compile after good loads throws its own exception, and any exception comes from one of these; success holds the located directory and all four files |
| `Allegro.Initialize` | src/AllegroApp.php:47-62 | construction never lets a non-runtime Exception escape |
| `Allegro.InitializeOutcomes` | src/AllegroApp.php:50-61 | "app dir not found" escapes as thrown; a load failure, or a compile failure after good loads, surfaces through the catch; construction succeeds exactly when the directory is located, no file fails and the compile succeeds, and then holds the located directory and all four files in order |
| `Allegro.FallbackWarning` | src/AllegroApp.php:227-233 | the fallback warning is ConsoleLogger's warning-level write with the exception in context, on stderr |
| `Allegro.FallbackWarningText` | src/AllegroApp.php:230-233 | the warning reads `WARNING Original logger initialization failed, falling back to ConsoleLogger. [..]` followed by the trace |
| `Allegro.GetLoggerStep` | src/AllegroApp.php:221-237 | success returns the container's logger and keeps the flag; an Exception yields a ConsoleLogger, sets the flag and warns only if it was unset; an Error propagates; the flag never goes back |
| `Allegro.FallbackWarnsAtMostOnce` | src/AllegroApp.php:224-236 | over any sequence of calls the flag only rises, and at most one warning is written, exactly one if the flag rose |
| `Allegro.PersistentFailureWarnsOnce` | src/AllegroApp.php:224-236 | N >= 1 failing lookups write exactly one warning |
| `Allegro.TermStep` | src/AllegroApp.php:134-161 | install arms or disables the flag; delivery sets an installed flag to true; a poll on an unsupported flag answers false, and on an installed flag dispatches the pending signal and answers the flag |
| `Allegro.SignalIsObserved` | src/AllegroApp.php:145-160 | a signal delivered or found pending on an installed flag leaves the flag true, and that poll and every later one answers true until a reinstall |
| `Allegro.UnsupportedNeverSignalled` | src/AllegroApp.php:152-155 | without pcntl every poll answers false and the flag stays null |
| `Allegro.ReceivedIsSticky` | src/AllegroApp.php:145-160 | once set, the flag stays true and every later poll answers true |
| `Allegro.QuietUntilSignalled` | src/AllegroApp.php:139-160 | after install, polls with nothing delivered answer false |
| `Allegro.AllegroApp.FromContainer` | src/AllegroApp.php:47-62 | a constructed object is compiled, with a null SIGTERM flag and the logger flag unset |
| `Allegro.AllegroApp.Create` | src/AllegroApp.php:47-62 | the constructor fails exactly as `Initialize` says, and on success holds the located directory and loaded files |
| `Allegro.AllegroApp.GetParameter` | src/AllegroApp.php:89-96 | a compiled container's value, or one without `%`, comes back raw; otherwise it is resolved |
| `Allegro.AllegroApp.ParametersComeBackRaw` | src/AllegroApp.php:89-93 | on a constructed (compiled) object the resolve branch is never taken |
| `Allegro.AllegroApp.InstallSigTermHandler` | src/AllegroApp.php:134-143 | the flag becomes false with pcntl, null without |
| `Allegro.AllegroApp.PhpSigTermHandler` | src/AllegroApp.php:145-150 | the registered handler sets the flag to true |
| `Allegro.AllegroApp.IsTermSignalReceived` | src/AllegroApp.php:152-161 | null answers false without dispatch; otherwise a pending signal is dispatched and the flag answered |
| `Allegro.AllegroApp.Compile` | src/AllegroApp.php:211-215 | compiling installs the SIGTERM handler and keeps the object invariant |
| `Allegro.AllegroApp.GetLogger` | src/AllegroApp.php:221-237 | the call behaves as `GetLoggerStep`, and the object never writes more than one fallback warning |
| `LivenessProbe.Timeout` | liveness-probe.php:14 | 60 when no argument is given, else the argument |
| `LivenessProbe.Classify` | liveness-probe.php:16-38 | MISSING iff the file is absent; FAILURE iff its time is unreadable; EXPIRED iff the file time is strictly before now minus the timeout; OK otherwise. Each verdict's echoed text and exit status (`Verdict.Text`, `Verdict.ExitCode`) are "MISSING\n"/1, "FAILURE TIMESTAMP\n"/2, "EXPIRED\n"/3 and "OK\n"/0 |
| `LivenessProbe.OutcomesDistinct` | liveness-probe.php:16-38 | the four outcomes have distinct texts and exit codes, every text ending in a newline |
| `LivenessProbe.CutoffIsFresh` | liveness-probe.php:32-38 | a file time exactly at the cutoff is OK |
| `LivenessProbe.WholeSecondClock` | liveness-probe.php:27-35 | on a whole-second clock, EXPIRED iff mtime < now - timeout |
| `LivenessProbe.FractionalClock` | liveness-probe.php:29-35 | with a fractional clock, mtime equal to the whole seconds minus the timeout is EXPIRED |
| `LivenessProbe.PingTime` | src/AllegroApp.php:242-245 | the recorded time is the whole second containing the touch |
| `LivenessProbe.RecentPingIsOk` | liveness-probe.php:21-38 | a probe at most timeout - 1 seconds after a ping reads OK |
| `LivenessProbe.StalePingIsExpired` | liveness-probe.php:21-35 | a probe more than timeout seconds after a ping reads EXPIRED |
| `LivenessProbe.DefaultTimeoutExamples` | liveness-probe.php:14-38 | with the default timeout, a 120-second-old ping is EXPIRED, a fresh one OK, and a missing file MISSING |

## Left out

- Symfony's `ContainerBuilder`, `YamlFileLoader` and `FileLocator`: parsing, merging (last write wins), compiling and resolving are foreign code. Loading is a per-file success-or-exception oracle, `get('logger')` is an input result, and placeholder resolution is an opaque function.
- `installErrorHandler` and `set_error_handler` / `error_reporting()`: process-global PHP state. The reporting mask is an input of `Allegro.PhpErrorHandler`.
- `getAppDir`, `getContainer` and `getConfigLocator`: plain getters of fields the model holds.
- The second `container->compile(true)` inside `compile()` belongs to Symfony. `Allegro.AllegroApp.Compile` models only the handler installation.
- `getenv`, `getcwd`, `file_exists`, `filemtime`, `touch` and the clock: their answers are parameters. `getcwd` failing (`false`) is not modelled.
- Signal delivery by the operating system. A pending SIGTERM is the `pending` input of a poll, and an asynchronous delivery is the `Deliver` event.
- Stack-trace strings, exception file names and PHP class names are opaque strings. The file and trace of exceptions thrown by Allegro itself come from an `Origin` parameter.
- Non-string log levels and parameter values. PHP's loose `==` and `strpos` on other types are not modelled.
- Probe date handling: the `DateTime` string parsing of `"-$timeout seconds"` is not modelled. A non-numeric or negative argument is not modelled as PHP would parse it; the timeout is taken as an integer of seconds.
- `Php.Strtoupper`: does not model locale-dependent upper-casing (PHP before 8.2), only ASCII.
