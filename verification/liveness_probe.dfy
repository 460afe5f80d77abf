/**
 * The liveness probe script: it looks at the modification time of the ping
 * file that `AllegroApp::ping` touches and reports, by text and exit code,
 * whether the file is missing, its timestamp unreadable, older than the
 * timeout, or fresh.
 *
 * `file_exists`, `filemtime` and the clock are inputs. The clock is read by
 * `new DateTime()`, which keeps microseconds, so "now" is a count of
 * microseconds; `filemtime` gives whole seconds.
 */
module LivenessProbe {
  import opened Php

  /** The file `ping()` touches and the probe inspects. */
  const PING_FILE := "/tmp/allegro.ping"

  /** Seconds a ping stays fresh when no argument is given. */
  const DEFAULT_TIMEOUT := 60

  const MICROS_PER_SECOND := 1_000_000

  datatype Verdict = Ok | Missing | TimestampFailure | Expired
  {
    /** What the script echoes. */
    function Text(): string
    {
      match this
      case Ok => "OK\n"
      case Missing => "MISSING\n"
      case TimestampFailure => "FAILURE TIMESTAMP\n"
      case Expired => "EXPIRED\n"
    }

    /** The status the script exits with. */
    function ExitCode(): int
    {
      match this
      case Ok => 0
      case Missing => 1
      case TimestampFailure => 2
      case Expired => 3
    }
  }

  /** `$argv[1] ?? 60` */
  function Timeout(arg: Option<int>): (t: int)
    ensures arg.None? ==> t == DEFAULT_TIMEOUT
    ensures arg.Some? ==> t == arg.value
  {
    if arg.Some? then arg.value else DEFAULT_TIMEOUT
  }

  /**
   * `$fileTime < $cutoff`: the file time, a whole second, against now moved
   * back by the timeout, both in microseconds.
   */
  predicate OlderThanCutoff(mtime: int, nowMicros: int, timeout: int)
  {
    mtime * MICROS_PER_SECOND < nowMicros - timeout * MICROS_PER_SECOND
  }

  /** The chain of early exits in the script. */
  function Classify(arg: Option<int>, fileExists: bool, mtime: Option<int>, nowMicros: int): (v: Verdict)
    ensures v == Missing <==> !fileExists
    ensures v == TimestampFailure <==> fileExists && mtime.None?
    ensures v == Expired <==> fileExists && mtime.Some? && OlderThanCutoff(mtime.value, nowMicros, Timeout(arg))
    ensures v == Ok <==> fileExists && mtime.Some? && !OlderThanCutoff(mtime.value, nowMicros, Timeout(arg))
  {
    if !fileExists then Missing
    else if mtime.None? then TimestampFailure
    else if OlderThanCutoff(mtime.value, nowMicros, Timeout(arg)) then Expired
    else Ok
  }

  /** The four outcomes are told apart by their exit codes and by their texts. */
  lemma OutcomesDistinct(v: Verdict, w: Verdict)
    ensures v.ExitCode() == w.ExitCode() <==> v == w
    ensures v.Text() == w.Text() <==> v == w
    ensures v.Text()[|v.Text()| - 1] == '\n'
  {
  }

  /** A file time exactly at the cutoff is still fresh: the test is strict. */
  lemma CutoffIsFresh(arg: Option<int>, mtime: int, nowMicros: int)
    requires mtime * MICROS_PER_SECOND == nowMicros - Timeout(arg) * MICROS_PER_SECOND
    ensures Classify(arg, true, Some(mtime), nowMicros) == Ok
  {
  }

  /**
   * When the clock reads a whole second, the probe is a comparison of
   * seconds: expired exactly when the file time is below now minus the
   * timeout.
   */
  lemma WholeSecondClock(arg: Option<int>, mtime: int, nowSeconds: int)
    ensures Classify(arg, true, Some(mtime), nowSeconds * MICROS_PER_SECOND) == Expired
      <==> mtime < nowSeconds - Timeout(arg)
  {
  }

  /**
   * Within the second, the cutoff carries the clock's microseconds: a file
   * time equal to the whole-second part of now minus the timeout is already
   * expired once any microsecond has passed.
   */
  lemma FractionalClock(arg: Option<int>, nowSeconds: int, micros: int)
    requires 0 < micros < MICROS_PER_SECOND
    ensures Classify(arg, true, Some(nowSeconds - Timeout(arg)), nowSeconds * MICROS_PER_SECOND + micros) == Expired
  {
  }

  /** The modification time `filemtime` reports after `ping()` touched the file at `nowMicros`. */
  function PingTime(nowMicros: int): (mtime: int)
    ensures mtime * MICROS_PER_SECOND <= nowMicros < (mtime + 1) * MICROS_PER_SECOND
  {
    nowMicros / MICROS_PER_SECOND
  }

  /**
   * A ping followed by the probe at most `timeout - 1` seconds later reads
   * OK; the second lost to `filemtime`'s truncation is the margin.
   */
  lemma RecentPingIsOk(arg: Option<int>, pingMicros: int, probeMicros: int)
    requires pingMicros <= probeMicros
    requires probeMicros - pingMicros <= (Timeout(arg) - 1) * MICROS_PER_SECOND
    ensures Classify(arg, true, Some(PingTime(pingMicros)), probeMicros) == Ok
  {
  }

  /** A ping more than `timeout` seconds before the probe reads EXPIRED. */
  lemma StalePingIsExpired(arg: Option<int>, pingMicros: int, probeMicros: int)
    requires probeMicros - pingMicros > Timeout(arg) * MICROS_PER_SECOND
    ensures Classify(arg, true, Some(PingTime(pingMicros)), probeMicros) == Expired
  {
  }

  /** With the default timeout, a ping 120 seconds old is expired and a fresh one is OK. */
  lemma DefaultTimeoutExamples(pingMicros: int)
    ensures Classify(None, true, Some(PingTime(pingMicros)), pingMicros + 120 * MICROS_PER_SECOND) == Expired
    ensures Classify(None, true, Some(PingTime(pingMicros)), pingMicros) == Ok
    ensures Classify(None, false, None, pingMicros) == Missing
  {
  }
}
