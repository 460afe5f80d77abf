/**
 * The core application object, `AllegroApp`: construction (locate the
 * application directory, load the configuration files in their fixed
 * order, compile, and turn any non-runtime exception into an
 * "initialization error"), the error handler that promotes PHP errors to
 * exceptions, the raw-or-resolved parameter read, the SIGTERM flag, and the
 * logger lookup with its one-time fallback warning.
 *
 * Symfony's container, loader and locator are not modelled: loading a file
 * either succeeds or throws the exception the `Loader` names for it, the
 * logger lookup is an input, and placeholder resolution is an opaque
 * function.
 */
module Allegro {
  import opened Php
  import AppDir
  import ConsoleLogger

  /** Message of the exception thrown when no application directory is found. */
  const APP_DIR_NOT_FOUND := "Allegro app dir not found. Did you forget to add allegro.yml?"
  const APP_DIR_NOT_FOUND_LINE := 183

  /** The wrapping of initialisation failures. */
  const INIT_ERROR_PREFIX := "Allegro initialization error ("
  const INIT_ERROR_SUFFIX := ")"
  const INIT_ERROR_LINE := 60

  /** The warning the logger fallback emits. */
  const FALLBACK_WARNING := "Original logger initialization failed, falling back to ConsoleLogger."

  // The configuration files, in the order they are loaded.
  const ALLEGRO_CONFIG := "allegro.yml"
  const DEFAULT_ENV_CONFIG := "config.yml"
  const VENDOR_SERVICES := "vendor/gofintech/allegro/config/services.yml"
  const APP_SERVICES := "services.yml"

  /** The answers of `getenv('ALLEGRO_APP_DIR')` and `getenv('ALLEGRO_ENV_CONFIG')`. */
  datatype Environment = Environment(appDir: Option<string>, envConfig: Option<string>)

  /**
   * What Symfony does with the files: loading a file throws the exception
   * `failures` names for it (a missing file, bad YAML) and succeeds
   * otherwise; `compile()` may throw too.
   */
  datatype Loader = Loader(failures: map<string, Throwable>, compileFailure: Option<Throwable>)

  /** The compiled container, as far as Allegro decides it: where, and which files in which order. */
  datatype Container = Container(appDir: string, loaded: seq<string>)

  // ---------------------------------------------------------------------
  // Error handler

  /**
   * `phpErrorHandler`: a PHP error whose severity the reporting mask leaves
   * out is ignored (None); any other is thrown as an ErrorException carrying
   * exactly its message, severity, file and line.
   */
  function PhpErrorHandler(reporting: bv64, severity: bv64, message: string, file: string, line: nat, trace: string)
    : (r: Option<Throwable>)
    ensures r.None? <==> reporting & severity == 0
    ensures r.Some? ==>
      && r.value.className == "ErrorException"
      && r.value.IsException() && !r.value.IsRuntime()
      && r.value.message == message && r.value.code == 0
      && r.value.severity == Some(severity)
      && r.value.file == file && r.value.line == line
      && r.value.previous == None
  {
    if reporting & severity == 0 then None
    else Some(Throwable("ErrorException", OtherException, message, 0, Some(severity), file, line, trace, None))
  }

  // ---------------------------------------------------------------------
  // Construction

  /** The exception `findApplicationDir` throws when the walk finds nothing. */
  function AppDirNotFound(here: Origin): (ex: Throwable)
    ensures ex.className == "RuntimeException" && ex.IsRuntime()
    ensures ex.message == APP_DIR_NOT_FOUND && ex.code == 0 && ex.previous == None
    ensures ex.line == APP_DIR_NOT_FOUND_LINE && ex.file == here.file
  {
    Throwable("RuntimeException", RuntimeFamily, APP_DIR_NOT_FOUND, 0, None, here.file, APP_DIR_NOT_FOUND_LINE, here.trace, None)
  }

  /**
   * The constructor's two catch clauses: a RuntimeException is rethrown as
   * it is, any other Exception is wrapped in a RuntimeException naming its
   * message and keeping it as the previous exception, and an Error is not
   * caught at all.
   */
  function CatchInit(ex: Throwable, here: Origin): (r: Throwable)
    ensures !ex.IsException() || ex.IsRuntime() ==> r == ex
    ensures ex.IsException() && !ex.IsRuntime() ==>
      && r.className == "RuntimeException" && r.IsRuntime()
      && r.message == INIT_ERROR_PREFIX + ex.message + INIT_ERROR_SUFFIX
      && r.code == 0
      && r.previous == Some(ex)
    ensures r.family != OtherException
  {
    if ex.IsRuntime() || !ex.IsException() then ex
    else Throwable("RuntimeException", RuntimeFamily, INIT_ERROR_PREFIX + ex.message + INIT_ERROR_SUFFIX,
                   0, None, here.file, INIT_ERROR_LINE, here.trace, Some(ex))
  }

  /** Catching again what the constructor let escape changes nothing. */
  lemma CatchInitIdempotent(ex: Throwable, here: Origin)
    ensures CatchInit(CatchInit(ex, here), here) == CatchInit(ex, here)
  {
  }

  /**
   * A PHP error promoted by the handler while the constructor runs reaches
   * the caller wrapped, with the error's own message inside.
   */
  lemma PromotedErrorIsWrapped(reporting: bv64, severity: bv64, message: string, file: string, line: nat,
                               trace: string, here: Origin)
    requires reporting & severity != 0
    ensures var ex := PhpErrorHandler(reporting, severity, message, file, line, trace).value;
      && CatchInit(ex, here).message == INIT_ERROR_PREFIX + message + INIT_ERROR_SUFFIX
      && CatchInit(ex, here).previous == Some(ex)
  {
  }

  /** The environment config file: `ALLEGRO_ENV_CONFIG` unless it is empty in PHP's sense. */
  function EnvConfigFile(envConfig: Option<string>): (f: string)
    ensures TruthyOpt(envConfig) ==> f == envConfig.value
    ensures !TruthyOpt(envConfig) ==> f == DEFAULT_ENV_CONFIG
    ensures Truthy(f)
  {
    if TruthyOpt(envConfig) then envConfig.value else DEFAULT_ENV_CONFIG
  }

  /** The files `loadServiceDefinitions` loads, in load order; none is optional. */
  function ConfigFiles(envConfig: Option<string>): (files: seq<string>)
    ensures |files| == 4 && files[1] == EnvConfigFile(envConfig)
  {
    [ALLEGRO_CONFIG, EnvConfigFile(envConfig), VENDOR_SERVICES, APP_SERVICES]
  }

  /**
   * Loading files one after the other: the first file that fails stops the
   * sequence with its exception; if none fails, all were loaded in order.
   */
  function LoadAll(files: seq<string>, failures: map<string, Throwable>): (r: Result<seq<string>, Throwable>)
    ensures r.Success? <==> forall i :: 0 <= i < |files| ==> files[i] !in failures
    ensures r.Success? ==> r.value == files
    ensures r.Failure? ==>
      exists i :: 0 <= i < |files| && files[i] in failures && r.error == failures[files[i]] &&
        forall j :: 0 <= j < i ==> files[j] !in failures
  {
    if files == [] then Success([])
    else if files[0] in failures then Failure(failures[files[0]])
    else
      match LoadAll(files[1..], failures)
      case Success(rest) => Success([files[0]] + rest)
      case Failure(e) =>
        var i :| 0 <= i < |files| - 1 && files[1..][i] in failures && e == failures[files[1..][i]] &&
          forall j :: 0 <= j < i ==> files[1..][j] !in failures;
        assert files[i + 1] in failures && e == failures[files[i + 1]];
        Failure(e)
  }

  /** `loadServiceDefinitions`: the fixed sequence of loads. */
  function LoadServiceDefinitions(envConfig: Option<string>, failures: map<string, Throwable>)
    : (r: Result<seq<string>, Throwable>)
    ensures r.Success? <==>
      ALLEGRO_CONFIG !in failures && EnvConfigFile(envConfig) !in failures &&
      VENDOR_SERVICES !in failures && APP_SERVICES !in failures
    ensures r.Failure? ==> r.error in failures.Values
  {
    var files := ConfigFiles(envConfig);
    assert (forall i :: 0 <= i < |files| ==> files[i] !in failures) <==>
      ALLEGRO_CONFIG !in failures && files[1] !in failures && VENDOR_SERVICES !in failures && APP_SERVICES !in failures
    by {
      assert files[0] == ALLEGRO_CONFIG && files[2] == VENDOR_SERVICES && files[3] == APP_SERVICES;
    }
    LoadAll(files, failures)
  }

  /**
   * The load order: a successful load read allegro.yml, the environment
   * file, the vendored services and the application's services, in that
   * order; a failure is the exception of the earliest file that failed.
   */
  lemma LoadOrder(envConfig: Option<string>, failures: map<string, Throwable>)
    ensures var r := LoadServiceDefinitions(envConfig, failures);
      && (r.Success? ==> r.value == [ALLEGRO_CONFIG, EnvConfigFile(envConfig), VENDOR_SERVICES, APP_SERVICES])
      && (ALLEGRO_CONFIG in failures ==> r == Failure(failures[ALLEGRO_CONFIG]))
      && (ALLEGRO_CONFIG !in failures && EnvConfigFile(envConfig) in failures ==>
            r == Failure(failures[EnvConfigFile(envConfig)]))
  {
  }

  /**
   * The environment file is required even under its default name: with
   * `ALLEGRO_ENV_CONFIG` unset and config.yml failing to load, the whole
   * load fails.
   */
  lemma DefaultEnvConfigIsRequired(failures: map<string, Throwable>)
    requires ALLEGRO_CONFIG !in failures && DEFAULT_ENV_CONFIG in failures
    ensures LoadServiceDefinitions(None, failures) == Failure(failures[DEFAULT_ENV_CONFIG])
  {
  }

  /** The body of the constructor's `try`, before any catch. */
  function InitBody(env: Environment, cwd: string, existing: set<string>, loader: Loader, here: Origin)
    : (r: Result<Container, Throwable>)
    ensures AppDir.Locate(env.appDir, cwd, existing).None? ==> r == Failure(AppDirNotFound(here))
    ensures r.Success? <==>
      AppDir.Locate(env.appDir, cwd, existing).Some? &&
      LoadServiceDefinitions(env.envConfig, loader.failures).Success? && loader.compileFailure.None?
    ensures (&& AppDir.Locate(env.appDir, cwd, existing).Some?
             && LoadServiceDefinitions(env.envConfig, loader.failures).Success?
             && loader.compileFailure.Some?) ==>
      r == Failure(loader.compileFailure.value)
    ensures r.Failure? ==>
      r.error == AppDirNotFound(here) || r.error in loader.failures.Values || loader.compileFailure == Some(r.error)
    ensures r.Success? ==>
      && AppDir.Locate(env.appDir, cwd, existing) == Some(r.value.appDir)
      && r.value.loaded == ConfigFiles(env.envConfig)
      && loader.compileFailure.None?
  {
    match AppDir.Locate(env.appDir, cwd, existing)
    case None => Failure(AppDirNotFound(here))
    case Some(dir) =>
      match LoadServiceDefinitions(env.envConfig, loader.failures)
      case Failure(e) => Failure(e)
      case Success(loaded) =>
        if loader.compileFailure.Some? then Failure(loader.compileFailure.value)
        else Success(Container(dir, loaded))
  }

  /** What constructing an AllegroApp yields: a container, or the exception leaving the constructor. */
  function Initialize(env: Environment, cwd: string, existing: set<string>, loader: Loader, here: Origin)
    : (r: Result<Container, Throwable>)
    ensures r.Failure? ==> r.error.family != OtherException
  {
    match InitBody(env, cwd, existing, loader, here)
    case Success(c) => Success(c)
    case Failure(e) => Failure(CatchInit(e, here))
  }

  /**
   * What the constructor reports: "app dir not found" escapes as it was
   * thrown; a failing file or compilation surfaces wrapped (unless it was
   * already a RuntimeException or an Error); success means every
   * configuration file was loaded in order into the located directory's
   * container.
   */
  lemma InitializeOutcomes(env: Environment, cwd: string, existing: set<string>, loader: Loader, here: Origin)
    ensures var r := Initialize(env, cwd, existing, loader, here);
      && (AppDir.Locate(env.appDir, cwd, existing).None? ==>
            r == Failure(AppDirNotFound(here)) && r.error.message == APP_DIR_NOT_FOUND)
      && (AppDir.Locate(env.appDir, cwd, existing).Some? &&
          LoadServiceDefinitions(env.envConfig, loader.failures).Failure? ==>
            r == Failure(CatchInit(LoadServiceDefinitions(env.envConfig, loader.failures).error, here)))
      && (AppDir.Locate(env.appDir, cwd, existing).Some? &&
          LoadServiceDefinitions(env.envConfig, loader.failures).Success? && loader.compileFailure.Some? ==>
            r == Failure(CatchInit(loader.compileFailure.value, here)))
      && (r.Success? <==>
            AppDir.Locate(env.appDir, cwd, existing).Some? &&
            LoadServiceDefinitions(env.envConfig, loader.failures).Success? && loader.compileFailure.None?)
      && (r.Success? ==>
            && AppDir.Locate(env.appDir, cwd, existing) == Some(r.value.appDir)
            && r.value.loaded == ConfigFiles(env.envConfig)
            && loader.compileFailure.None?)
  {
  }

  // ---------------------------------------------------------------------
  // getLogger

  /** The logger `getLogger` hands out: the container's, or a new ConsoleLogger. */
  datatype Logger = Configured(service: int) | Fallback

  /** One `getLogger` call: what it returns or throws, the warning it writes, the new flag. */
  datatype LoggerCall = LoggerCall(result: Result<Logger, Throwable>, warning: Option<ConsoleLogger.Output>, failed: bool)

  /** The warning the fallback ConsoleLogger writes, with the lookup's exception in context. */
  function FallbackWarning(ex: Throwable): (out: ConsoleLogger.Output)
    ensures out == ConsoleLogger.Log(ConsoleLogger.WARNING, FALLBACK_WARNING,
                                     map[ConsoleLogger.EXCEPTION_KEY := ConsoleLogger.Thrown(ex)])
    ensures out.stream == ConsoleLogger.Stderr
  {
    ConsoleLogger.Log(ConsoleLogger.WARNING, FALLBACK_WARNING, map[ConsoleLogger.EXCEPTION_KEY := ConsoleLogger.Thrown(ex)])
  }

  /** The fallback warning is a WARNING line on standard error carrying the exception. */
  lemma FallbackWarningText(ex: Throwable)
    ensures FallbackWarning(ex).text ==
      "WARNING " + FALLBACK_WARNING + " [" + ConsoleLogger.FormatException(ex) + "]\n" + ex.trace + "\n"
  {
  }

  /**
   * `getLogger` given the flag and the container's answer to get('logger'):
   * success hands the logger over and leaves the flag; an Exception yields
   * a ConsoleLogger, sets the flag, and warns only if the flag was not yet
   * set; an Error is not caught.
   */
  function GetLoggerStep(failed: bool, lookup: Result<int, Throwable>): (c: LoggerCall)
    ensures lookup.Success? ==> c == LoggerCall(Success(Configured(lookup.value)), None, failed)
    ensures lookup.Failure? && !lookup.error.IsException() ==> c == LoggerCall(Failure(lookup.error), None, failed)
    ensures lookup.Failure? && lookup.error.IsException() ==>
      c.result == Success(Fallback) && c.failed && (c.warning.Some? <==> !failed)
    ensures c.warning.Some? ==> lookup.Failure? && c.warning.value == FallbackWarning(lookup.error)
    ensures failed ==> c.failed
  {
    match lookup
    case Success(s) => LoggerCall(Success(Configured(s)), None, failed)
    case Failure(ex) =>
      if !ex.IsException() then LoggerCall(Failure(ex), None, failed)
      else if failed then LoggerCall(Success(Fallback), None, true)
      else LoggerCall(Success(Fallback), Some(FallbackWarning(ex)), true)
  }

  /** The flag after a sequence of `getLogger` calls. */
  function FlagAfter(failed: bool, lookups: seq<Result<int, Throwable>>): bool
    decreases |lookups|
  {
    if lookups == [] then failed
    else FlagAfter(GetLoggerStep(failed, lookups[0]).failed, lookups[1..])
  }

  /** How many fallback warnings a sequence of `getLogger` calls writes. */
  function WarningsWritten(failed: bool, lookups: seq<Result<int, Throwable>>): nat
    decreases |lookups|
  {
    if lookups == [] then 0
    else
      var c := GetLoggerStep(failed, lookups[0]);
      (if c.warning.Some? then 1 else 0) + WarningsWritten(c.failed, lookups[1..])
  }

  /**
   * Over any sequence of calls the flag only goes from false to true, and
   * exactly one warning is written if it did, none otherwise.
   */
  lemma {:induction false} FallbackWarnsAtMostOnce(failed: bool, lookups: seq<Result<int, Throwable>>)
    ensures failed ==> FlagAfter(failed, lookups)
    ensures WarningsWritten(failed, lookups) == (if !failed && FlagAfter(failed, lookups) then 1 else 0)
    ensures WarningsWritten(failed, lookups) <= 1
    decreases |lookups|
  {
    if lookups != [] {
      FallbackWarnsAtMostOnce(GetLoggerStep(failed, lookups[0]).failed, lookups[1..]);
    }
  }

  /** A logger that fails on every one of N >= 1 calls is warned about exactly once. */
  lemma {:induction false} PersistentFailureWarnsOnce(lookups: seq<Result<int, Throwable>>)
    requires |lookups| > 0
    requires forall i :: 0 <= i < |lookups| ==> lookups[i].Failure? && lookups[i].error.IsException()
    ensures WarningsWritten(false, lookups) == 1
  {
    FallbackWarnsAtMostOnce(true, lookups[1..]);
    assert WarningsWritten(false, lookups) == 1 + WarningsWritten(true, lookups[1..]);
  }

  // ---------------------------------------------------------------------
  // SIGTERM flag

  /** `termSignalReceived`: null (no pcntl, or not installed yet), or a bool. */
  datatype TermState = Unsupported | Listening(received: bool)

  /** What can happen to the flag: installation, the handler running, a poll. */
  datatype SignalEvent = Install(pcntlAvailable: bool) | Deliver | Poll(pending: bool)

  /** The flag after an event, and what a poll answers. */
  datatype SignalStep = SignalStep(state: TermState, answer: Option<bool>)

  /**
   * One event. A handler can only run once it is registered, so delivery
   * to an unsupported flag does nothing; a poll on an unsupported flag
   * answers false without dispatching; otherwise it dispatches a pending
   * signal (running the handler) and answers the flag.
   */
  function TermStep(s: TermState, e: SignalEvent): (r: SignalStep)
    ensures e.Poll? <==> r.answer.Some?
    ensures e.Poll? && s == Unsupported ==> r == SignalStep(Unsupported, Some(false))
    ensures !e.Install? && s == Listening(true) ==> r.state == Listening(true)
    ensures e.Install? ==> r.state == (if e.pcntlAvailable then Listening(false) else Unsupported)
    ensures e.Deliver? ==> r.state == (if s.Listening? then Listening(true) else s)
    ensures e.Poll? && s.Listening? ==>
      r == SignalStep(Listening(s.received || e.pending), Some(s.received || e.pending))
  {
    match e
    case Install(p) => SignalStep(if p then Listening(false) else Unsupported, None)
    case Deliver => SignalStep(if s.Listening? then Listening(true) else s, None)
    case Poll(pending) =>
      if s == Unsupported then SignalStep(s, Some(false))
      else SignalStep(Listening(s.received || pending), Some(s.received || pending))
  }

  predicate NoInstall(events: seq<SignalEvent>)
  {
    forall i :: 0 <= i < |events| ==> !events[i].Install?
  }

  /** The flag after a sequence of events. */
  function StateAfter(s: TermState, events: seq<SignalEvent>): TermState
    decreases |events|
  {
    if events == [] then s else StateAfter(TermStep(s, events[0]).state, events[1..])
  }

  /** The answers of the polls in a sequence of events, in order. */
  function PollAnswers(s: TermState, events: seq<SignalEvent>): seq<bool>
    decreases |events|
  {
    if events == [] then []
    else
      var st := TermStep(s, events[0]);
      (if st.answer.Some? then [st.answer.value] else []) + PollAnswers(st.state, events[1..])
  }

  /** Without pcntl (and without a new install) every poll answers false. */
  lemma {:induction false} UnsupportedNeverSignalled(events: seq<SignalEvent>)
    requires NoInstall(events)
    ensures StateAfter(Unsupported, events) == Unsupported
    ensures forall i :: 0 <= i < |PollAnswers(Unsupported, events)| ==> !PollAnswers(Unsupported, events)[i]
    decreases |events|
  {
    if events != [] {
      UnsupportedNeverSignalled(events[1..]);
    }
  }

  /** Once a poll has seen the signal, every later poll sees it too, until a new install. */
  lemma {:induction false} ReceivedIsSticky(events: seq<SignalEvent>)
    requires NoInstall(events)
    ensures StateAfter(Listening(true), events) == Listening(true)
    ensures forall i :: 0 <= i < |PollAnswers(Listening(true), events)| ==> PollAnswers(Listening(true), events)[i]
    decreases |events|
  {
    if events != [] {
      ReceivedIsSticky(events[1..]);
    }
  }

  /** Without any signal delivered after installation, every poll answers false. */
  lemma {:induction false} QuietUntilSignalled(events: seq<SignalEvent>)
    requires forall i :: 0 <= i < |events| ==> events[i] == Poll(false)
    ensures StateAfter(Listening(false), events) == Listening(false)
    ensures forall i :: 0 <= i < |PollAnswers(Listening(false), events)| ==> !PollAnswers(Listening(false), events)[i]
    decreases |events|
  {
    if events != [] {
      QuietUntilSignalled(events[1..]);
    }
  }

  /**
   * A signal is never lost: once it is delivered, or found pending by a
   * poll, on an installed flag, the flag ends true and that poll and every
   * later one answers true, until a new install.
   */
  lemma {:induction false} SignalIsObserved(s: TermState, events: seq<SignalEvent>, k: nat)
    requires s.Listening? && NoInstall(events)
    requires k < |events| && (events[k] == Deliver || events[k] == Poll(true))
    ensures StateAfter(s, events) == Listening(true)
    ensures var later := PollAnswers(StateAfter(s, events[..k]), events[k..]);
      && PollAnswers(s, events) == PollAnswers(s, events[..k]) + later
      && forall i :: 0 <= i < |later| ==> later[i]
    decreases k
  {
    var st := TermStep(s, events[0]);
    assert NoInstall(events[1..]) by {
      forall i | 0 <= i < |events[1..]| ensures !events[1..][i].Install? {
        assert events[1..][i] == events[i + 1];
      }
    }
    if k == 0 {
      assert st.state == Listening(true);
      ReceivedIsSticky(events[1..]);
      assert events[..0] == [] && events[0..] == events;
    } else {
      assert !events[0].Install?;
      SignalIsObserved(st.state, events[1..], k - 1);
      assert events[..k] == [events[0]] + events[1..][..k - 1];
      assert events[..k][1..] == events[1..][..k - 1];
      assert events[k..] == events[1..][k - 1..];
    }
  }

  // ---------------------------------------------------------------------
  // The application object

  class AllegroApp {
    var appDir: string
    /** The files loaded into the container, in load order. */
    var loaded: seq<string>
    /** `$this->container->isCompiled()` */
    var compiled: bool
    var termSignalReceived: TermState
    var loggerFailed: bool
    /** How many fallback warnings this object has written. */
    ghost var fallbackWarnings: nat

    /** The object invariant: constructed objects are compiled, and the warning count follows the flag. */
    ghost predicate Valid()
      reads this
    {
      compiled && fallbackWarnings == (if loggerFailed then 1 else 0)
    }

    /** The object a successful constructor leaves behind. */
    constructor FromContainer(c: Container)
      ensures Valid()
      ensures appDir == c.appDir && loaded == c.loaded
      ensures termSignalReceived == Unsupported && !loggerFailed && fallbackWarnings == 0
    {
      appDir := c.appDir;
      loaded := c.loaded;
      compiled := true;
      termSignalReceived := Unsupported;
      loggerFailed := false;
      fallbackWarnings := 0;
    }

    /**
     * `new AllegroApp()`: locate the directory, load and compile, catching
     * as the constructor does.
     */
    static method Create(env: Environment, cwd: string, existing: set<string>, loader: Loader, here: Origin)
      returns (r: Result<AllegroApp, Throwable>)
      ensures r.Failure? <==> Initialize(env, cwd, existing, loader, here).Failure?
      ensures r.Failure? ==> r.error == Initialize(env, cwd, existing, loader, here).error
      ensures r.Success? ==>
        && fresh(r.value) && r.value.Valid()
        && Initialize(env, cwd, existing, loader, here) == Success(Container(r.value.appDir, r.value.loaded))
        && r.value.termSignalReceived == Unsupported && !r.value.loggerFailed
    {
      var dir;
      ghost var probed;
      dir, probed := AppDir.FindApplicationDir(env.appDir, cwd, existing);
      if dir.None? {
        return Failure(CatchInit(AppDirNotFound(here), here));
      }
      var loadedFiles := LoadServiceDefinitions(env.envConfig, loader.failures);
      if loadedFiles.Failure? {
        return Failure(CatchInit(loadedFiles.error, here));
      }
      if loader.compileFailure.Some? {
        return Failure(CatchInit(loader.compileFailure.value, here));
      }
      var app := new AllegroApp.FromContainer(Container(dir.value, loadedFiles.value));
      return Success(app);
    }

    /**
     * `getParameter` given the value the container stores: a compiled
     * container's value, or one without '%', comes back raw; otherwise it
     * goes through placeholder resolution.
     */
    function GetParameter(stored: string, resolve: string -> string): (r: string)
      reads this
      ensures compiled || '%' !in stored ==> r == stored
      ensures !compiled && '%' in stored ==> r == resolve(stored)
    {
      if compiled || '%' !in stored then stored else resolve(stored)
    }

    /** Every constructed object is compiled, so parameters always come back raw. */
    lemma ParametersComeBackRaw(stored: string, resolve: string -> string)
      requires Valid()
      ensures GetParameter(stored, resolve) == stored
    {
    }

    /** `installSigTermHandler`: arm the flag if pcntl is there, else mark it unavailable. */
    method InstallSigTermHandler(pcntlAvailable: bool)
      modifies this`termSignalReceived
      ensures termSignalReceived == TermStep(old(termSignalReceived), Install(pcntlAvailable)).state
    {
      if pcntlAvailable {
        termSignalReceived := Listening(false);
      } else {
        termSignalReceived := Unsupported;
      }
    }

    /** `phpSigTermHandler`: run by pcntl, which only calls a registered handler. */
    method PhpSigTermHandler()
      requires termSignalReceived.Listening?
      modifies this`termSignalReceived
      ensures termSignalReceived == TermStep(old(termSignalReceived), Deliver).state
    {
      termSignalReceived := Listening(true);
    }

    /**
     * `isTermSignalReceived`: `pending` says whether a SIGTERM awaits
     * `pcntl_signal_dispatch`, which then runs the handler.
     */
    method IsTermSignalReceived(pending: bool) returns (r: bool)
      modifies this`termSignalReceived
      ensures TermStep(old(termSignalReceived), Poll(pending)) == SignalStep(termSignalReceived, Some(r))
    {
      if termSignalReceived == Unsupported {
        return false;
      }
      if pending {
        PhpSigTermHandler();
      }
      r := termSignalReceived.received;
    }

    /** `compile()`: install the SIGTERM handler (the second container compile is Symfony's). */
    method Compile(pcntlAvailable: bool)
      requires Valid()
      modifies this`termSignalReceived
      ensures Valid()
      ensures termSignalReceived == (if pcntlAvailable then Listening(false) else Unsupported)
    {
      InstallSigTermHandler(pcntlAvailable);
    }

    /**
     * `getLogger` given the container's answer to get('logger'); `warning`
     * is what the fallback ConsoleLogger writes.
     */
    method GetLogger(lookup: Result<int, Throwable>) returns (r: Result<Logger, Throwable>, warning: Option<ConsoleLogger.Output>)
      requires Valid()
      modifies this`loggerFailed, this`fallbackWarnings
      ensures Valid() && fallbackWarnings <= 1
      ensures GetLoggerStep(old(loggerFailed), lookup) == LoggerCall(r, warning, loggerFailed)
      ensures fallbackWarnings == old(fallbackWarnings) + (if warning.Some? then 1 else 0)
    {
      warning := None;
      match lookup {
        case Success(s) =>
          r := Success(Configured(s));
        case Failure(ex) =>
          if !ex.IsException() {
            r := Failure(ex);
            return;
          }
          r := Success(Fallback);
          if !loggerFailed {
            loggerFailed := true;
            warning := Some(FallbackWarning(ex));
            fallbackWarnings := fallbackWarnings + 1;
          }
      }
    }
  }
}
