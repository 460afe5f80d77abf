/**
 * The small part of PHP's runtime that Allegro's own logic leans on:
 * optional values (`getenv` answering `false`), results (a value or a thrown
 * exception), the truthiness of strings, the string builtins `strtr`,
 * `strrpos` and `strtoupper`, the decimal rendering of an integer inside a
 * string interpolation, and the data an exception carries.
 */
module Php {

  datatype Option<+T> = None | Some(value: T)

  /** A computation that either returns a value or throws. */
  datatype Result<+T, +E> = Success(value: T) | Failure(error: E)

  /**
   * PHP's conversion of a string to bool: only the empty string and "0" are
   * false. `if ($s)`, `while ($s)` and `!empty($s)` all test this.
   */
  predicate Truthy(s: string)
  {
    s != "" && s != "0"
  }

  /** A value that is `false` when absent (getenv) tested for truthiness. */
  predicate TruthyOpt(v: Option<string>)
  {
    v.Some? && Truthy(v.value)
  }

  /** `strtr($s, $from, $to)` with one-character arguments. */
  function Strtr(s: string, from: char, to: char): (r: string)
    ensures |r| == |s|
    ensures forall i :: 0 <= i < |s| ==> r[i] == (if s[i] == from then to else s[i])
    ensures from != to ==> from !in r
  {
    if s == [] then []
    else [if s[0] == from then to else s[0]] + Strtr(s[1..], from, to)
  }

  /** `strrpos($s, $c)`: the index of the last occurrence, `false` as None. */
  function Strrpos(s: string, c: char): (r: Option<nat>)
    ensures r.None? <==> c !in s
    ensures r.Some? ==> r.value < |s| && s[r.value] == c && c !in s[r.value + 1..]
  {
    if s == [] then None
    else if s[|s| - 1] == c then Some(|s| - 1)
    else
      var r := Strrpos(s[..|s| - 1], c);
      assert s == s[..|s| - 1] + [s[|s| - 1]];
      r
  }

  /** The ASCII upper-casing `strtoupper` applies to one character. */
  function UpperChar(c: char): char
  {
    if 'a' <= c <= 'z' then (c as int - 32) as char else c
  }

  /** `strtoupper($s)`: ASCII letters a-z become A-Z, all else is kept. */
  function Strtoupper(s: string): (r: string)
    ensures |r| == |s|
    ensures forall i :: 0 <= i < |s| ==> r[i] == UpperChar(s[i])
  {
    if s == [] then [] else [UpperChar(s[0])] + Strtoupper(s[1..])
  }

  predicate IsDigit(c: char)
  {
    '0' <= c <= '9'
  }

  predicate AllDigits(s: string)
  {
    forall i :: 0 <= i < |s| ==> IsDigit(s[i])
  }

  function DigitChar(d: nat): (c: char)
    requires d < 10
    ensures IsDigit(c) && c as int - '0' as int == d
  {
    ('0' as int + d) as char
  }

  /** How PHP interpolates a non-negative integer into a string. */
  function Decimal(n: nat): (s: string)
    ensures |s| >= 1 && AllDigits(s)
    ensures n > 0 ==> s[0] != '0'
    ensures n == 0 ==> s == "0"
  {
    if n < 10 then [DigitChar(n)] else Decimal(n / 10) + [DigitChar(n % 10)]
  }

  /** Reading a string of decimal digits back as a number. */
  function ParseDecimal(s: string): nat
    requires AllDigits(s)
  {
    if s == [] then 0
    else ParseDecimal(s[..|s| - 1]) * 10 + (s[|s| - 1] as int - '0' as int)
  }

  /** The decimal rendering loses nothing: it reads back as the same number. */
  lemma {:induction false} DecimalRoundTrip(n: nat)
    ensures ParseDecimal(Decimal(n)) == n
  {
    var s := Decimal(n);
    if n >= 10 {
      DecimalRoundTrip(n / 10);
      assert s[..|s| - 1] == Decimal(n / 10);
    }
  }

  /**
   * Where a PHP exception sits in the class tree, as far as Allegro's `catch`
   * clauses can tell: a RuntimeException (or subclass), any other Exception
   * (ErrorException included), or an Error, which `catch (Exception $ex)`
   * does not catch.
   */
  datatype Family = RuntimeFamily | OtherException | ErrorFamily

  /**
   * A thrown PHP object: class name, family, getMessage(), getCode(),
   * getSeverity() (ErrorException only), getFile(), getLine(),
   * getTraceAsString() (opaque) and getPrevious().
   */
  datatype Throwable = Throwable(
    className: string,
    family: Family,
    message: string,
    code: int,
    severity: Option<bv64>,
    file: string,
    line: nat,
    trace: string,
    previous: Option<Throwable>)
  {
    /** `$ex instanceof Exception` */
    predicate IsException()
    {
      family != ErrorFamily
    }

    /** `$ex instanceof RuntimeException` */
    predicate IsRuntime()
    {
      family == RuntimeFamily
    }
  }

  /** The file and stack trace a `new ...Exception(...)` records where it is thrown. */
  datatype Origin = Origin(file: string, trace: string)
}
