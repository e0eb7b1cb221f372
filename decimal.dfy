/**
 * Base-10 integer text as `strconv.ParseInt(s, 10, 64)` reads it and as
 * `fmt.Sprintf("%v", n)` / `strconv.Itoa(n)` write it.
 */
module Decimal {
  import opened GoTime

  predicate IsDigit(c: char) {
    '0' <= c <= '9'
  }

  predicate AllDigits(s: string) {
    forall i :: 0 <= i < |s| ==> IsDigit(s[i])
  }

  function DigitValue(c: char): (d: nat)
    requires IsDigit(c)
    ensures d < 10
  {
    c as int - '0' as int
  }

  function DigitChar(d: nat): (c: char)
    requires d < 10
    ensures IsDigit(c) && DigitValue(c) == d
  {
    ('0' as int + d) as char
  }

  /** The number a string of decimal digits denotes, most significant first. */
  function DigitsValue(s: string): nat
    requires AllDigits(s)
    decreases |s|
  {
    if s == [] then 0 else DigitsValue(s[..|s| - 1]) * 10 + DigitValue(s[|s| - 1])
  }

  /**
   * The pair `strconv.ParseInt` returns: the value, and whether the error
   * result was nil.
   */
  datatype IntParse = IntParse(value: int, ok: bool)

  const MaxUint64: int := 0xffff_ffff_ffff_ffff

  /** The length of the run of decimal digits `s` starts with. */
  function DigitRun(s: string): (n: nat)
    ensures n <= |s|
    ensures forall i :: 0 <= i < n ==> IsDigit(s[i])
    ensures n < |s| ==> !IsDigit(s[n])
    decreases |s|
  {
    if s == [] || !IsDigit(s[0]) then 0 else 1 + DigitRun(s[1..])
  }

  /** The text after an optional leading `+` or `-`. */
  function Magnitude(s: string): string {
    if s != [] && (s[0] == '+' || s[0] == '-') then s[1..] else s
  }

  predicate Negative(s: string) {
    s != [] && s[0] == '-'
  }

  /** The int64 bound a number of the sign of `s` is clamped to. */
  function Clamped(s: string): int {
    if Negative(s) then MinInt64 else MaxInt64
  }

  /** The value of an optionally signed digit string. */
  function SignedValue(s: string): int
    requires AllDigits(Magnitude(s))
  {
    var v: int := DigitsValue(Magnitude(s));
    if Negative(s) then -v else v
  }

  /** How the digit loop of `strconv.ParseUint(s, 10, 64)` ends. */
  datatype UintScan = Scanned(n: nat) | NotDigit | TooLarge

  /**
   * The digit loop of `strconv.ParseUint`, from the left, with `acc` the
   * value of the digits read so far: a non-digit is a syntax error, and a
   * digit that takes the value past the uint64 range is a range error, at
   * once, whatever follows.
   */
  function ScanUint(s: string, acc: nat): UintScan
    decreases |s|
  {
    if s == [] then Scanned(acc)
    else if !IsDigit(s[0]) then NotDigit
    else if acc * 10 + DigitValue(s[0]) > MaxUint64 then TooLarge
    else ScanUint(s[1..], acc * 10 + DigitValue(s[0]))
  }

  /**
   * What the digit loop yields, stated over the leading run of digits: the
   * run's value past the uint64 range is a range error, else a non-digit
   * after the run is a syntax error, else the value of the whole text.
   */
  function ScanOutcome(s: string): UintScan {
    var run := DigitRun(s);
    var value: int := DigitsValue(s[..run]);
    if value > MaxUint64 then TooLarge
    else if run < |s| then NotDigit
    else Scanned(value)
  }

  /**
   * `strconv.ParseInt(s, 10, 64)`: an optional `+` or `-`, then the digit
   * loop over the rest. No digits, or a syntax error, give 0; a range error
   * in the loop, or a value outside int64, gives the int64 bound of the
   * sign. All of these report an error.
   */
  function ParseInt(s: string): (r: IntParse)
    ensures InInt64(r.value)
    ensures !r.ok ==> r.value == 0 || r.value == Clamped(s)
    ensures Magnitude(s) == [] ==> r == IntParse(0, false)
  {
    var digits := Magnitude(s);
    if digits == [] then IntParse(0, false)
    else
      match ScanUint(digits, 0)
      case NotDigit => IntParse(0, false)
      case TooLarge => IntParse(Clamped(s), false)
      case Scanned(n) =>
        if !Negative(s) && n > MaxInt64 then IntParse(MaxInt64, false)
        else if Negative(s) && n > -MinInt64 then IntParse(MinInt64, false)
        else IntParse(if Negative(s) then -(n as int) else n, true)
  }

  /** A longer run of leading digits denotes at least as large a number. */
  lemma {:induction false} DigitsValuePrefixMonotone(s: string, i: nat, j: nat)
    requires i <= j <= |s| && AllDigits(s[..j])
    ensures AllDigits(s[..i]) && DigitsValue(s[..i]) <= DigitsValue(s[..j])
    decreases j
  {
    if i < j {
      assert s[..j][..j - 1] == s[..j - 1];
      DigitsValuePrefixMonotone(s, i, j - 1);
    }
  }

  /** The loop, started after the first `k` digits, ends as `ScanOutcome` says. */
  lemma {:induction false} ScanFrom(s: string, k: nat)
    requires k <= |s| && AllDigits(s[..k]) && DigitsValue(s[..k]) <= MaxUint64
    ensures ScanUint(s[k..], DigitsValue(s[..k])) == ScanOutcome(s)
    decreases |s| - k
  {
    var run := DigitRun(s);
    if k == |s| {
      assert s[..k] == s && run == k;
    } else if !IsDigit(s[k]) {
      assert run == k;
    } else {
      assert s[..k + 1][..k] == s[..k];
      assert DigitsValue(s[..k + 1]) == DigitsValue(s[..k]) * 10 + DigitValue(s[k]);
      assert AllDigits(s[..k + 1]);
      if DigitsValue(s[..k + 1]) > MaxUint64 {
        assert run > k;
        DigitsValuePrefixMonotone(s, k + 1, run);
      } else {
        assert s[k..][1..] == s[k + 1..];
        ScanFrom(s, k + 1);
      }
    }
  }

  lemma ScanMatchesOutcome(s: string)
    ensures ScanUint(s, 0) == ScanOutcome(s)
  {
    assert s[..0] == [] && s[0..] == s;
    ScanFrom(s, 0);
  }

  /**
   * `ParseInt` succeeds exactly on an optional sign followed by digits whose
   * signed value fits in int64, and then yields that value.
   */
  lemma ParseIntAccepts(s: string)
    ensures ParseInt(s).ok <==> Magnitude(s) != [] && AllDigits(Magnitude(s)) && InInt64(SignedValue(s))
    ensures ParseInt(s).ok ==> ParseInt(s).value == SignedValue(s)
  {
    var m := Magnitude(s);
    ScanMatchesOutcome(m);
    if AllDigits(m) {
      assert DigitRun(m) == |m| && m[..|m|] == m;
    }
  }

  /**
   * Leading digits that already exceed the uint64 range make the result the
   * int64 bound of the sign, with an error, whatever text follows them.
   */
  lemma ParseIntOverflowingRun(s: string, k: nat)
    requires 0 < k <= |Magnitude(s)| && AllDigits(Magnitude(s)[..k])
    requires DigitsValue(Magnitude(s)[..k]) > MaxUint64
    ensures ParseInt(s) == IntParse(Clamped(s), false)
  {
    var m := Magnitude(s);
    ScanMatchesOutcome(m);
    DigitsValuePrefixMonotone(m, k, DigitRun(m));
  }

  /**
   * A non-digit after leading digits within the uint64 range is a syntax
   * error: the result is 0.
   */
  lemma ParseIntSyntaxError(s: string, k: nat)
    requires k < |Magnitude(s)| && AllDigits(Magnitude(s)[..k]) && !IsDigit(Magnitude(s)[k])
    requires DigitsValue(Magnitude(s)[..k]) <= MaxUint64
    ensures ParseInt(s) == IntParse(0, false)
  {
    var m := Magnitude(s);
    ScanMatchesOutcome(m);
    assert DigitRun(m) == k;
  }

  /**
   * Digits only, denoting a number outside int64 once signed, make the
   * result the int64 bound of the sign, with an error.
   */
  lemma ParseIntRange(s: string)
    requires Magnitude(s) != [] && AllDigits(Magnitude(s)) && !InInt64(SignedValue(s))
    ensures ParseInt(s) == IntParse(Clamped(s), false)
  {
    var m := Magnitude(s);
    ScanMatchesOutcome(m);
    assert DigitRun(m) == |m| && m[..|m|] == m;
  }

  /** The shortest decimal spelling of a natural number. */
  function FormatNat(n: nat): (s: string)
    ensures |s| > 0 && AllDigits(s)
    decreases n
  {
    if n < 10 then [DigitChar(n)] else FormatNat(n / 10) + [DigitChar(n % 10)]
  }

  /** `fmt.Sprintf("%v", n)` for an int64 `n`; also `strconv.Itoa(n)`. */
  function FormatInt(n: int): (s: string)
    ensures Magnitude(s) != [] && AllDigits(Magnitude(s))
    ensures Negative(s) <==> n < 0
  {
    if n < 0 then "-" + FormatNat(-n) else FormatNat(n)
  }

  lemma {:induction false} FormatNatValue(n: nat)
    ensures DigitsValue(FormatNat(n)) == n
    decreases n
  {
    if n >= 10 {
      var s := FormatNat(n);
      assert s[..|s| - 1] == FormatNat(n / 10);
      FormatNatValue(n / 10);
    }
  }

  /** Every int64 survives formatting and parsing unchanged. */
  lemma {:induction false} ParseFormatRoundTrip(n: int)
    requires InInt64(n)
    ensures ParseInt(FormatInt(n)) == IntParse(n, true)
  {
    FormatNatValue(if n < 0 then -n else n);
    ParseIntAccepts(FormatInt(n));
    if n < 0 {
      var s := FormatInt(n);
      assert s[1..] == FormatNat(-n);
    } else {
      assert IsDigit(FormatNat(n)[0]);
    }
  }
}
