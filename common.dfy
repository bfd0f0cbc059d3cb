/** Vocabulary shared by the whole harness: the exceptions it throws, the
    failure-compatible result types that stand for them, the answers of
    remote calls, and the few pieces of the Kotlin/JVM standard library the
    core leans on (String.lowercase, Long.toString, Long division). */
module Common {

  /** The exceptions the core raises or lets through, by class. */
  datatype Error =
    | IllegalState(message: string)     // IllegalStateException
    | IllegalArgument(message: string)  // IllegalArgumentException, also Kotlin's `require`
    | RemoteFailure(message: string)    // any exception thrown by a remote (network) call

  /** A value or the exception that replaced it. */
  datatype Result<+T> = Ok(value: T) | Err(error: Error) {
    predicate IsFailure() { Err? }
    function PropagateFailure<U>(): Result<U> requires Err? { Err(error) }
    function Extract(): T requires Ok? { value }
  }

  /** Normal completion of a Unit-returning call, or the exception it threw. */
  datatype Outcome = Pass | Fail(error: Error) {
    predicate IsFailure() { Fail? }
    function PropagateFailure(): Outcome requires Fail? { this }
  }

  datatype Option<+T> = None | Some(value: T) {
    function GetOr(default: T): T {
      match this
      case Some(v) => v
      case None => default
    }
  }

  /** What an opaque remote call answered: a value, or an exception. */
  datatype Reply<+T> = Returned(value: T) | Threw(message: string)

  /** The two driver classes the harness can instantiate. */
  datatype Variant = Android | IOS

  // ---------------------------------------------------------------------
  // String.lowercase()

  function LowerChar(c: char): char {
    if 'A' <= c <= 'Z' then (c as int + 32) as char else c
  }

  /** `s.lowercase()`, restricted to ASCII letters. */
  function Lower(s: string): (r: string)
    ensures |r| == |s|
    ensures forall i :: 0 <= i < |s| ==> r[i] == LowerChar(s[i])
  {
    seq(|s|, i requires 0 <= i < |s| => LowerChar(s[i]))
  }

  /** The case-insensitive platform dispatch every `when (platform.lowercase())`
      of the core performs: "android" and "ios" select a variant, anything
      else selects none. */
  function Dispatch(platform: string): (v: Option<Variant>)
    ensures v == Some(Android) <==> Lower(platform) == "android"
    ensures v == Some(IOS) <==> Lower(platform) == "ios"
  {
    if Lower(platform) == "android" then Some(Android)
    else if Lower(platform) == "ios" then Some(IOS)
    else None
  }

  /** Kotlin's `String.toBoolean()`: true exactly for "true", ignoring case. */
  predicate ToBoolean(s: string) {
    Lower(s) == "true"
  }

  /** The first index at or after `from` where `c` occurs in `s`. */
  function IndexOf(s: string, c: char, from: nat): (r: Option<nat>)
    requires from <= |s|
    ensures r.Some? ==> from <= r.value < |s| && s[r.value] == c
                        && forall k :: from <= k < r.value ==> s[k] != c
    ensures r.None? ==> forall k :: from <= k < |s| ==> s[k] != c
    decreases |s| - from
  {
    if from == |s| then None
    else if s[from] == c then Some(from)
    else IndexOf(s, c, from + 1)
  }

  // ---------------------------------------------------------------------
  // Long.toString() for the non-negative values the core prints

  predicate IsDigit(c: char) { '0' <= c <= '9' }

  predicate AllDigits(s: string) {
    forall i :: 0 <= i < |s| ==> IsDigit(s[i])
  }

  function DigitChar(d: nat): (c: char)
    requires d < 10
    ensures IsDigit(c)
  {
    ('0' as int + d) as char
  }

  /** The decimal numeral of `n`, most significant digit first. */
  function Decimal(n: nat): (s: string)
    ensures 1 <= |s|
    ensures AllDigits(s)
    ensures n > 0 ==> s[0] != '0'
  {
    if n < 10 then [DigitChar(n)] else Decimal(n / 10) + [DigitChar(n % 10)]
  }

  /** The number a string of digits denotes: the inverse of Decimal. */
  function DigitsValue(s: string): nat
    requires AllDigits(s)
  {
    if s == [] then 0
    else DigitsValue(s[..|s| - 1]) * 10 + (s[|s| - 1] as int - '0' as int)
  }

  lemma {:induction false} DecimalRoundTrip(n: nat)
    ensures DigitsValue(Decimal(n)) == n
  {
    if n >= 10 {
      var s := Decimal(n);
      assert s[..|s| - 1] == Decimal(n / 10);
      DecimalRoundTrip(n / 10);
    }
  }

  /** Distinct numbers print differently. */
  lemma DecimalInjective(m: nat, n: nat)
    ensures Decimal(m) == Decimal(n) <==> m == n
  {
    DecimalRoundTrip(m);
    DecimalRoundTrip(n);
  }

  // ---------------------------------------------------------------------
  // JVM integer division: the quotient is truncated toward zero and the
  // remainder takes the sign of the dividend.

  function TruncDiv(a: int, b: int): int
    requires b > 0
  {
    if a >= 0 then a / b else -((-a) / b)
  }

  function TruncRem(a: int, b: int): int
    requires b > 0
  {
    if a >= 0 then a % b else -((-a) % b)
  }

  lemma TruncDivRem(a: int, b: int)
    requires b > 0
    ensures TruncDiv(a, b) * b + TruncRem(a, b) == a
    ensures a >= 0 ==> 0 <= TruncRem(a, b) < b && TruncDiv(a, b) >= 0
    ensures a < 0 ==> -b < TruncRem(a, b) <= 0 && TruncDiv(a, b) <= 0
  {
  }
}
