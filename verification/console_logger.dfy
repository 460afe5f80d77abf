/**
 * Allegro's out-of-the-box logger (`ConsoleLogger::log`): one line per
 * call, the level upper-cased in front (except for `info`), an exception
 * from the context summarised in brackets with its trace on the next line,
 * and the text written to standard output for `notice`, `info` and `debug`
 * and to standard error for every other level.
 *
 * The single `echo` / `fwrite(STDERR, ...)` becomes the returned Output.
 */
module ConsoleLogger {
  import opened Php

  datatype Stream = Stdout | Stderr

  /** One write: the stream it goes to and the text written. */
  datatype Output = Output(stream: Stream, text: string)

  // PSR-3 level names used by the logger's comparisons.
  const INFO := "info"
  const NOTICE := "notice"
  const DEBUG := "debug"
  const WARNING := "warning"

  /** The context key the logger looks at. */
  const EXCEPTION_KEY := "exception"

  /** A value of the context array, as far as `instanceof Throwable` cares. */
  datatype ContextValue = Thrown(t: Throwable) | NullValue | OtherValue

  /** `$context['exception'] ?? null`, kept only when it is a Throwable. */
  function ExceptionIn(context: map<string, ContextValue>): (r: Option<Throwable>)
    ensures r.Some? <==> EXCEPTION_KEY in context && context[EXCEPTION_KEY].Thrown?
    ensures r.Some? ==> context[EXCEPTION_KEY] == Thrown(r.value)
  {
    if EXCEPTION_KEY in context && context[EXCEPTION_KEY].Thrown? then Some(context[EXCEPTION_KEY].t)
    else None
  }

  /** `$lvl`: nothing for info, otherwise the upper-cased level and a space. */
  function LevelPrefix(level: string): (p: string)
    ensures level == INFO ==> p == ""
    ensures level != INFO ==> |p| == |level| + 1 && p[|level|] == ' '
    ensures level != INFO ==> forall i :: 0 <= i < |level| ==> p[i] == UpperChar(level[i])
  {
    if level == INFO then "" else Strtoupper(level) + " "
  }

  /** `formatException`: "file:line Class: message". */
  function FormatException(ex: Throwable): (r: string)
    ensures var a, b := |ex.file| + 1, |r| - |ex.className| - |ex.message| - 3;
      && a < b
      && r[..a] == ex.file + ":"
      && AllDigits(r[a..b]) && ParseDecimal(r[a..b]) == ex.line
      && r[b..] == " " + ex.className + ": " + ex.message
  {
    var d := Decimal(ex.line);
    DecimalRoundTrip(ex.line);
    var r := ex.file + ":" + d + " " + ex.className + ": " + ex.message;
    assert r == (ex.file + ":") + d + (" " + ex.className + ": " + ex.message);
    r
  }

  /** Where the switch sends a level. */
  function StreamFor(level: string): (s: Stream)
    ensures s == Stdout <==> level == NOTICE || level == INFO || level == DEBUG
  {
    if level == NOTICE || level == INFO || level == DEBUG then Stdout else Stderr
  }

  /** `log($level, $message, $context)`: the one write it performs. */
  function Log(level: string, message: string, context: map<string, ContextValue>): (out: Output)
    ensures out.stream == StreamFor(level)
  {
    var lvl := LevelPrefix(level);
    var text :=
      match ExceptionIn(context)
      case Some(ex) => lvl + message + " [" + FormatException(ex) + "]\n" + ex.trace + "\n"
      case None => lvl + message + "\n";
    Output(StreamFor(level), text)
  }

  /**
   * Without a Throwable under "exception" the write is the prefix, the
   * message and a newline; a value of any other kind there changes nothing.
   */
  lemma PlainLine(level: string, message: string, context: map<string, ContextValue>)
    requires ExceptionIn(context).None?
    ensures Log(level, message, context).text == LevelPrefix(level) + message + "\n"
    ensures Log(level, message, context) == Log(level, message, map[])
  {
  }

  /**
   * With a Throwable the line carries the bracketed summary and is followed
   * by the trace on a line of its own.
   */
  lemma ExceptionLine(level: string, message: string, context: map<string, ContextValue>, ex: Throwable)
    requires EXCEPTION_KEY in context && context[EXCEPTION_KEY] == Thrown(ex)
    ensures Log(level, message, context).text ==
      LevelPrefix(level) + message + " [" + ex.file + ":" + Decimal(ex.line) + " " +
      ex.className + ": " + ex.message + "]\n" + ex.trace + "\n"
  {
    assert ExceptionIn(context) == Some(ex);
    var pre := LevelPrefix(level) + message + " [";
    assert pre + FormatException(ex) == pre + ex.file + ":" + Decimal(ex.line) + " " + ex.className + ": " + ex.message;
  }

  /**
   * Every write starts with the level prefix followed by the message and
   * ends with a newline; info lines start with the message itself.
   */
  lemma LineShape(level: string, message: string, context: map<string, ContextValue>)
    ensures var t := Log(level, message, context).text;
      var n := |LevelPrefix(level)| + |message|;
      && |t| > n
      && t[..n] == LevelPrefix(level) + message
      && t[|t| - 1] == '\n'
      && (level == INFO ==> t[..|message|] == message)
  {
  }

  /**
   * Standard output receives only the three quiet levels; all others,
   * unknown level names included, go to standard error.
   */
  lemma Routing(level: string, message: string, context: map<string, ContextValue>)
    ensures Log(level, message, context).stream == Stdout <==> level in {NOTICE, INFO, DEBUG}
    ensures Log(WARNING, message, context).stream == Stderr
  {
  }

  /** A level other than info whose characters upper-case to `upper` gets the prefix `upper` and a space. */
  lemma PrefixOf(level: string, upper: string)
    requires level != INFO && |upper| == |level|
    requires forall i :: 0 <= i < |level| ==> UpperChar(level[i]) == upper[i]
    ensures LevelPrefix(level) == upper + " "
  {
    var p := LevelPrefix(level);
    assert forall i :: 0 <= i < |p| ==> p[i] == (upper + " ")[i];
  }

  /** The level names a PSR-3 logger uses are upper-cased as expected. */
  lemma KnownLevelPrefixes()
    ensures LevelPrefix("error") == "ERROR "
    ensures LevelPrefix(WARNING) == "WARNING "
    ensures LevelPrefix(NOTICE) == "NOTICE "
    ensures LevelPrefix(DEBUG) == "DEBUG "
  {
    PrefixOf("error", "ERROR");
    PrefixOf(WARNING, "WARNING");
    PrefixOf(NOTICE, "NOTICE");
    PrefixOf(DEBUG, "DEBUG");
  }
}
