/**
 * The parts of Go's strconv package that the client relies on: Atoi (used on the
 * rate-limit headers), Itoa / fmt's "%d" (used by the query encoders) and FormatBool.
 * Go's `int` is 64 bits wide on the platforms the client targets.
 */
module Strconv {
  import opened Wrappers

  const MinInt64: int := -0x8000_0000_0000_0000
  const MaxInt64: int := 0x7FFF_FFFF_FFFF_FFFF

  /** Go's `int` (and `time.Duration`): a 64-bit signed integer. */
  type Int64 = x: int | MinInt64 <= x <= MaxInt64

  /** The two ways strconv reports a failed conversion. */
  datatype NumErrorKind = ErrSyntax | ErrRange

  /** strconv.NumError: the function that failed, its input and the reason. */
  datatype NumError = NumError(func: string, num: string, err: NumErrorKind)
  {
    /** NumError.Error(): names the function, quotes the input and gives the reason. */
    function Message(): (m: string)
      ensures exists lead, tail :: m == lead + func + tail
      ensures exists lead, tail :: m == lead + num + tail
    {
      var lead, middle := "strconv.", ": parsing \"";
      var tail := "\": " + (if err == ErrSyntax then "invalid syntax" else "value out of range");
      assert lead + func + middle + num + tail == lead + func + (middle + num + tail);
      assert lead + func + middle + num + tail == (lead + func + middle) + num + tail;
      lead + func + middle + num + tail
    }
  }

  predicate IsDigit(c: char) {
    '0' <= c <= '9'
  }

  predicate AllDigits(s: string) {
    forall i :: 0 <= i < |s| ==> IsDigit(s[i])
  }

  function DigitValue(c: char): (d: nat)
    requires IsDigit(c)
    ensures d < 10
  {
    c as int - '0' as int
  }

  function DigitChar(d: nat): (c: char)
    requires d < 10
    ensures IsDigit(c) && DigitValue(c) == d
  {
    ('0' as int + d) as char
  }

  /** The number a string of decimal digits denotes (most significant digit first). */
  function Value(s: string): nat
    requires AllDigits(s)
  {
    if |s| == 0 then 0 else Value(s[..|s| - 1]) * 10 + DigitValue(s[|s| - 1])
  }

  /** The shortest decimal digits of n: no leading zero except for n == 0 itself. */
  function Digits(n: nat): (s: string)
    ensures |s| > 0 && AllDigits(s) && Value(s) == n
    ensures s[0] == '0' ==> n == 0
  {
    if n < 10 then [DigitChar(n)]
    else
      var s := Digits(n / 10) + [DigitChar(n % 10)];
      assert s[..|s| - 1] == Digits(n / 10);
      s
  }

  /** strconv.Itoa, and equally fmt.Sprintf("%d", n), on a Go int: Atoi reads the text back as n. */
  function Itoa(n: Int64): (s: string)
    ensures Atoi(s) == Success(n)
  {
    if n < 0 then
      var d := Digits(-(n as int));
      assert ("-" + d)[1..] == d;
      "-" + d
    else Digits(n)
  }

  /** strconv.FormatBool. */
  function FormatBool(b: bool): (s: string)
    ensures s == "true" || s == "false"
    ensures ParseBool(s) == b
  {
    if b then "true" else "false"
  }

  /** The inverse of FormatBool on its two outputs (strconv.ParseBool restricted to them). */
  function ParseBool(s: string): bool {
    s == "true"
  }

  /** The text after an optional leading '+' or '-'. */
  function Unsigned(s: string): string {
    if |s| > 0 && (s[0] == '-' || s[0] == '+') then s[1..] else s
  }

  /** The shape Atoi accepts: an optional sign followed by at least one decimal digit. */
  predicate WellFormed(s: string) {
    |Unsigned(s)| > 0 && AllDigits(Unsigned(s))
  }

  /** The integer a well-formed text denotes, before any range check. */
  function SignedValue(s: string): int
    requires WellFormed(s)
  {
    if s[0] == '-' then 0 - Value(Unsigned(s)) as int else Value(Unsigned(s))
  }

  /**
   * strconv.Atoi: an optional '+' or '-' followed by at least one decimal digit,
   * denoting a value inside the 64-bit range. Anything else is a syntax error;
   * a well-formed number outside the range is a range error.
   */
  function Atoi(s: string): (r: Result<Int64, NumError>)
    ensures r.Failure? ==> r.error.func == "Atoi" && r.error.num == s
    ensures r.Success? <==> WellFormed(s) && MinInt64 <= SignedValue(s) <= MaxInt64
    ensures r.Success? ==> r.value == SignedValue(s)
    ensures r.Failure? ==> (r.error.err == ErrRange <==> WellFormed(s))
  {
    if !WellFormed(s) then
      Failure(NumError("Atoi", s, ErrSyntax))
    else if MinInt64 <= SignedValue(s) <= MaxInt64 then
      Success(SignedValue(s))
    else
      Failure(NumError("Atoi", s, ErrRange))
  }
}
