/**
 * The part of Go's `strconv` package that port.go relies on, for a 64-bit `int`:
 * `Atoi`, which reads a port's text, and the decimal rendering `encoding/json`
 * uses when it emits an `int`.
 */
module Strconv {
  import opened Wrappers

  const MinInt: int := -0x8000_0000_0000_0000
  const MaxInt: int := 0x7fff_ffff_ffff_ffff

  predicate IsDigit(c: char)
  {
    '0' <= c <= '9'
  }

  function DigitValue(c: char): nat
    requires IsDigit(c)
  {
    c as int - '0' as int
  }

  function DigitChar(d: nat): (c: char)
    requires d < 10
    ensures IsDigit(c) && DigitValue(c) == d
  {
    ('0' as int + d) as char
  }

  /**
   * The value of the decimal digits `s[lo..hi]`, most significant first (leading zeros
   * allowed); None when one of those characters is not a digit.
   */
  function DecimalValue(s: string, lo: nat, hi: nat): (r: Option<nat>)
    requires lo <= hi <= |s|
    decreases hi - lo
  {
    if hi == lo then Some(0)
    else if !IsDigit(s[hi - 1]) then None
    else match DecimalValue(s, lo, hi - 1)
      case None => None
      case Some(v) => Some(v * 10 + DigitValue(s[hi - 1]))
  }

  /** A range has a value exactly when it holds only digits. */
  lemma {:induction false} DecimalValueDigits(s: string, lo: nat, hi: nat)
    requires lo <= hi <= |s|
    ensures DecimalValue(s, lo, hi).Some? <==> forall i :: lo <= i < hi ==> IsDigit(s[i])
    decreases hi - lo
  {
    if hi > lo {
      DecimalValueDigits(s, lo, hi - 1);
    }
  }

  /** The value depends only on the characters in the range. */
  lemma {:induction false} DecimalValueOfSlice(s: string, lo: nat, hi: nat)
    requires lo <= hi <= |s|
    ensures DecimalValue(s, lo, hi) == DecimalValue(s[lo..hi], 0, hi - lo)
    decreases hi - lo
  {
    if hi > lo {
      DecimalValueOfSlice(s, lo, hi - 1);
      DecimalValueOfSlice(s[lo..hi], 0, hi - lo - 1);
      assert s[lo..hi][0..hi - lo - 1] == s[lo..hi - 1];
    }
  }

  /**
   * `strconv.Atoi(s)`: an optional `+` or `-`, then one or more decimal digits and
   * nothing else; the value must fit a 64-bit `int`, otherwise Go reports a range error.
   * None stands for Atoi's error.
   */
  function Atoi(s: string): (r: Option<int>)
    ensures r.Some? ==> MinInt <= r.value <= MaxInt
    ensures r.Some? ==> s != [] && IsDigit(s[|s| - 1])
    ensures r.Some? && r.value < 0 ==> s[0] == '-'
  {
    var signed := |s| > 0 && (s[0] == '+' || s[0] == '-');
    var start := if signed then 1 else 0;
    if start == |s| then None
    else match DecimalValue(s, start, |s|)
      case None => None
      case Some(magnitude) =>
        var m: int := magnitude;
        var v := if signed && s[0] == '-' then -m else m;
        if MinInt <= v <= MaxInt then Some(v) else None
  }

  /** The decimal digits of `n`, without leading zeros. */
  function Digits(n: nat): (s: string)
    ensures s != [] && DecimalValue(s, 0, |s|) == Some(n)
    ensures IsDigit(s[0]) && (n > 0 ==> s[0] != '0')
    ensures forall i :: 0 <= i < |s| ==> IsDigit(s[i])
  {
    if n < 10 then [DigitChar(n)]
    else
      var s := Digits(n / 10) + [DigitChar(n % 10)];
      DecimalValueOfSlice(s, 0, |s| - 1);
      assert s[0..|s| - 1] == Digits(n / 10);
      s
  }

  /** `strconv.FormatInt(n, 10)`, which is also how `encoding/json` writes an `int`. */
  function FormatInt(n: int): (r: string)
    ensures r != []
    ensures r[0] == '-' <==> n < 0
    ensures n > 0 ==> r[0] != '0'
    ensures n < 0 ==> |r| >= 2 && IsDigit(r[1]) && r[1] != '0'
    ensures forall i :: 0 <= i < |r| ==> IsDigit(r[i]) || (i == 0 && r[i] == '-')
  {
    if n < 0 then "-" + Digits(-n) else Digits(n)
  }

  /** FormatInt and Atoi are inverse on every 64-bit value. */
  lemma AtoiFormatInt(n: int)
    requires MinInt <= n <= MaxInt
    ensures Atoi(FormatInt(n)) == Some(n)
  {
    var s := FormatInt(n);
    if n < 0 {
      DecimalValueOfSlice(s, 1, |s|);
      assert s[1..|s|] == Digits(-n);
    } else {
      DecimalValueDigits(s, 0, |s|);
      assert IsDigit(s[0]);
    }
  }

  /** Text that Atoi accepts holds only digits, apart from a sign in front. */
  lemma AtoiChars(s: string, i: int)
    requires Atoi(s).Some? && 0 <= i < |s|
    ensures IsDigit(s[i]) || (i == 0 && (s[i] == '+' || s[i] == '-'))
  {
    DecimalValueDigits(s, if s[0] == '+' || s[0] == '-' then 1 else 0, |s|);
  }

  /** Atoi keeps the raw text's meaning, not its spelling: a sign and leading zeros are accepted. */
  lemma AtoiSignsAndZeros()
    ensures Atoi("80") == Some(80)
    ensures Atoi("+80") == Some(80)
    ensures Atoi("0080") == Some(80)
    ensures Atoi("-80") == Some(-80)
  {
    assert DecimalValue("80", 0, 2) == Some(80);
    assert DecimalValue("+80", 1, 3) == Some(80);
    assert DecimalValue("-80", 1, 3) == Some(80);
    assert DecimalValue("0080", 0, 4) == Some(80);
  }

  /** Atoi needs at least one digit and nothing but digits after the sign. */
  lemma AtoiRejects()
    ensures Atoi("") == None
    ensures Atoi("+") == None
    ensures Atoi("a") == None
    ensures Atoi("8 0") == None
  {
    assert DecimalValue("a", 0, 1) == None;
    assert DecimalValue("8 0", 0, 3) == None;
  }
}
