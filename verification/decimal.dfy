/**
 * Decimal integers as Go reads and writes them: `strconv.Atoi` on a 64-bit
 * platform (where `int` is 64 bits wide), its inverse rendering, and Go's
 * truncating integer division.
 */
module Decimal {
  import opened Wrappers

  /** Bounds of Go's 64-bit `int`. */
  const MinInt: int := -0x8000_0000_0000_0000
  const MaxInt: int := 0x7fff_ffff_ffff_ffff

  predicate InIntRange(n: int) {
    MinInt <= n <= MaxInt
  }

  predicate IsDigit(c: char) {
    '0' <= c <= '9'
  }

  predicate AllDigits(s: string) {
    forall i :: 0 <= i < |s| ==> IsDigit(s[i])
  }

  /** The value of a digit string, most significant digit first; leading zeros allowed. */
  function DigitsValue(ds: string): nat
    requires AllDigits(ds)
    decreases |ds|
  {
    if |ds| == 0 then 0
    else DigitsValue(ds[..|ds| - 1]) * 10 + (ds[|ds| - 1] as int - '0' as int)
  }

  /**
   * `strconv.Atoi`: an optional `+` or `-` followed by one or more decimal
   * digits, whose value fits a 64-bit `int`. Anything else (the empty string,
   * a bare sign, any other character, spaces, underscores, an out-of-range
   * value) is an error, here None. Go's fast path for short inputs and its
   * `ParseInt(s, 10, 0)` fallback accept exactly the same strings, so one
   * definition serves both.
   */
  function Atoi(s: string): (r: Option<int>)
    ensures r.Some? ==> InIntRange(r.value)
    ensures r.Some? ==> |s| > 0 && (IsDigit(s[0]) || s[0] == '-' || s[0] == '+')
  {
    if |s| == 0 then None
    else
      var digits := if s[0] == '-' || s[0] == '+' then s[1..] else s;
      if |digits| == 0 || !AllDigits(digits) then None
      else
        var v: int := DigitsValue(digits);
        var n := if s[0] == '-' then -v else v;
        if InIntRange(n) then Some(n) else None
  }

  function DigitChar(d: nat): (c: char)
    requires d < 10
    ensures IsDigit(c)
  {
    ('0' as int + d) as char
  }

  /** The shortest digit string of `n`: no leading zeros. */
  function Digits(n: nat): (s: string)
    ensures |s| > 0 && AllDigits(s)
    ensures DigitsValue(s) == n
    decreases n
  {
    if n < 10 then [DigitChar(n)]
    else
      var prefix := Digits(n / 10);
      var s := prefix + [DigitChar(n % 10)];
      assert s[..|s| - 1] == prefix;
      s
  }

  /** `strconv.Itoa`: the decimal text of `n`, with a leading `-` when negative. */
  function FormatInt(n: int): string {
    if n < 0 then "-" + Digits(-n) else Digits(n)
  }

  /** Atoi reads back every 64-bit integer from its decimal text. */
  lemma AtoiFormatInt(n: int)
    requires InIntRange(n)
    ensures Atoi(FormatInt(n)) == Some(n)
  {
    var s := FormatInt(n);
    if n < 0 {
      assert s[1..] == Digits(-n);
    } else {
      assert IsDigit(s[0]);
    }
  }

  /** AtoiFormatInt for every 64-bit integer at once. */
  lemma AtoiFormatIntAll()
    ensures forall n :: InIntRange(n) ==> Atoi(FormatInt(n)) == Some(n)
  {
    forall n | InIntRange(n) ensures Atoi(FormatInt(n)) == Some(n) {
      AtoiFormatInt(n);
    }
  }

  /** A value outside the 64-bit range is refused, not wrapped or clamped. */
  lemma AtoiOutOfRange(n: int)
    requires !InIntRange(n)
    ensures Atoi(FormatInt(n)) == None
  {
    var s := FormatInt(n);
    if n < 0 {
      assert s[1..] == Digits(-n);
    } else {
      assert IsDigit(s[0]);
    }
  }

  /** A digit string with an extra leading zero has the same value. */
  lemma {:induction false} LeadingZeroValue(ds: string)
    requires AllDigits(ds)
    ensures AllDigits("0" + ds) && DigitsValue("0" + ds) == DigitsValue(ds)
    decreases |ds|
  {
    var z := "0" + ds;
    assert AllDigits(z) by {
      forall i | 0 <= i < |z| ensures IsDigit(z[i]) {
        if i > 0 { assert z[i] == ds[i - 1]; }
      }
    }
    if |ds| > 0 {
      var init := ds[..|ds| - 1];
      assert z[..|z| - 1] == "0" + init;
      LeadingZeroValue(init);
    }
  }

  /** Leading zeros and an explicit `+` do not change what Atoi reads. */
  lemma AtoiLeadingZeroAndPlus(ds: string)
    requires |ds| > 0 && AllDigits(ds)
    ensures Atoi("0" + ds) == Atoi(ds)
    ensures Atoi("+" + ds) == Atoi(ds)
  {
    LeadingZeroValue(ds);
    assert ("+" + ds)[1..] == ds;
  }

  /** `k` zero digits. */
  function Zeros(k: nat): (z: string)
    ensures |z| == k && AllDigits(z)
  {
    if k == 0 then "" else "0" + Zeros(k - 1)
  }

  function Abs(n: int): nat {
    if n < 0 then -n else n
  }

  /** The sign Atoi accepts at the head of `s`, or "" when there is none. */
  function SignPrefix(s: string): (sign: string)
    ensures sign == "" || sign == "+" || sign == "-"
    ensures sign <= s
  {
    if |s| > 0 && (s[0] == '-' || s[0] == '+') then s[..1] else ""
  }

  /** Any number of leading zeros leaves the value unchanged. */
  lemma {:induction false} ZerosValue(k: nat, ds: string)
    requires AllDigits(ds)
    ensures AllDigits(Zeros(k) + ds) && DigitsValue(Zeros(k) + ds) == DigitsValue(ds)
    decreases k
  {
    if k > 0 {
      ZerosValue(k - 1, ds);
      assert Zeros(k) + ds == "0" + (Zeros(k - 1) + ds);
      LeadingZeroValue(Zeros(k - 1) + ds);
    } else {
      assert Zeros(k) + ds == ds;
    }
  }

  /** A digit string that starts with a non-zero digit has a positive value. */
  lemma {:induction false} NonZeroLeadPositive(ds: string)
    requires |ds| > 0 && AllDigits(ds) && ds[0] != '0'
    ensures DigitsValue(ds) > 0
    decreases |ds|
  {
    if |ds| > 1 {
      NonZeroLeadPositive(ds[..|ds| - 1]);
    }
  }

  /** A digit string without leading zeros is the shortest digit string of its value. */
  lemma {:induction false} CanonicalDigits(ds: string)
    requires |ds| > 0 && AllDigits(ds)
    requires |ds| == 1 || ds[0] != '0'
    ensures ds == Digits(DigitsValue(ds))
    decreases |ds|
  {
    var init := ds[..|ds| - 1];
    var last := ds[|ds| - 1];
    var e := last as int - '0' as int;
    assert DigitChar(e) == last;
    if |ds| > 1 {
      CanonicalDigits(init);
      NonZeroLeadPositive(init);
      var v := DigitsValue(ds);
      assert v == DigitsValue(init) * 10 + e;
      assert v / 10 == DigitsValue(init) && v % 10 == e;
      assert Digits(v) == Digits(DigitsValue(init)) + [DigitChar(e)];
      assert ds == init + [last];
    } else {
      assert init == [];
    }
  }

  /** Every non-empty digit string is some zeros followed by the shortest digits of its value. */
  lemma {:induction false} StripZeros(ds: string) returns (k: nat)
    requires |ds| > 0 && AllDigits(ds)
    ensures k < |ds| && ds == Zeros(k) + Digits(DigitsValue(ds))
    decreases |ds|
  {
    if |ds| == 1 || ds[0] != '0' {
      k := 0;
      CanonicalDigits(ds);
      assert Zeros(0) + ds == ds;
    } else {
      var rest := ds[1..];
      assert "0" <= ds;
      Regroup(ds, "0", rest, []);
      assert rest + [] == rest;
      LeadingZeroValue(rest);
      var j := StripZeros(rest);
      k := j + 1;
      assert Zeros(k) == "0" + Zeros(j);
      Regroup(ds, "0", Zeros(j), Digits(DigitsValue(rest)));
      Assoc("0", Zeros(j), Digits(DigitsValue(rest)));
    }
  }

  /**
   * Atoi accepts every spelling of a 64-bit integer: an optional sign (a `-`
   * also on zero, never a `+` or nothing on a negative), any number of leading
   * zeros, then the shortest digits of its magnitude.
   */
  lemma AtoiAcceptsSpelling(sign: string, k: nat, n: int)
    requires sign == "" || sign == "+" || sign == "-"
    requires InIntRange(n)
    requires n < 0 ==> sign == "-"
    requires sign == "-" ==> n <= 0
    ensures Atoi(sign + Zeros(k) + Digits(Abs(n))) == Some(n)
  {
    var digits := Zeros(k) + Digits(Abs(n));
    ZerosValue(k, Digits(Abs(n)));
    AtoiSignedDigits(sign, digits);
    Assoc(sign, Zeros(k), Digits(Abs(n)));
  }

  /** Atoi on a sign (or none) followed by a non-empty digit string. */
  lemma AtoiSignedDigits(sign: string, ds: string)
    requires sign == "" || sign == "+" || sign == "-"
    requires |ds| > 0 && AllDigits(ds)
    ensures var v: int := DigitsValue(ds);
      var m := if sign == "-" then -v else v;
      Atoi(sign + ds) == if InIntRange(m) then Some(m) else None
  {
    var s := sign + ds;
    assert IsDigit(ds[0]);
    if sign == "" {
      assert s == ds;
    } else {
      assert s[0] == sign[0] && s[1..] == ds;
    }
  }

  /**
   * Atoi accepts nothing else: whatever it reads as `n` is such a spelling,
   * with the sign it starts with and the zeros in front of the digits.
   */
  lemma AtoiOnlySpellings(s: string, n: int)
    requires Atoi(s) == Some(n)
    ensures var sign := SignPrefix(s); var d := Digits(Abs(n));
      && |sign| + |d| <= |s|
      && s == sign + Zeros(|s| - |sign| - |d|) + d
      && (n < 0 ==> sign == "-")
      && (sign == "-" ==> n <= 0)
  {
    AtoiParts(s, n);
    var k := SpellingOfParts(s, SignPrefix(s), Abs(n));
  }

  /** The rearrangement behind AtoiOnlySpellings, once Atoi has been unfolded. */
  lemma SpellingOfParts(s: string, sign: string, v: nat) returns (k: nat)
    requires |sign| < |s| && sign <= s && AllDigits(s[|sign|..])
    requires v == DigitsValue(s[|sign|..])
    ensures |sign| + k + |Digits(v)| == |s|
    ensures s == sign + Zeros(k) + Digits(v)
  {
    k := StripZeros(s[|sign|..]);
    Regroup(s, sign, Zeros(k), Digits(v));
  }

  lemma Assoc(a: string, b: string, c: string)
    ensures a + b + c == a + (b + c)
  {
  }

  /** A string split after its prefix `sign`, with the rest split again. */
  lemma Regroup(s: string, sign: string, z: string, d: string)
    requires sign <= s && s[|sign|..] == z + d
    ensures |s| - |sign| - |d| == |z|
    ensures s == sign + z + d
  {
    assert s == sign + s[|sign|..];
  }

  /** What Atoi's acceptance says about the sign and the digits after it. */
  lemma AtoiParts(s: string, n: int)
    requires Atoi(s) == Some(n)
    ensures var sign := SignPrefix(s);
      && |sign| < |s| && AllDigits(s[|sign|..])
      && Abs(n) == DigitsValue(s[|sign|..])
      && (n < 0 ==> sign == "-")
      && (sign == "-" ==> n <= 0)
  {
    if s[0] == '-' || s[0] == '+' {
      assert SignPrefix(s) == s[..1];
    } else {
      assert SignPrefix(s) == "";
      assert s[0..] == s;
    }
  }

  /** Spellings with a sign and leading zeros, as the characterisation allows. */
  lemma AtoiSpellingExamples()
    ensures Atoi("-01500") == Some(-1500)
    ensures Atoi("+007") == Some(7)
    ensures Atoi("-0") == Some(0)
  {
    assert Digits(15) == "15";
    assert Digits(150) == "150";
    assert Digits(1500) == "1500";
    assert Zeros(1) == "0";
    assert "-01500" == "-" + Zeros(1) + Digits(1500);
    AtoiAcceptsSpelling("-", 1, -1500);
    assert Zeros(2) == "00";
    assert "+007" == "+" + Zeros(2) + Digits(7);
    AtoiAcceptsSpelling("+", 2, 7);
    assert "-0" == "-" + Zeros(0) + Digits(0);
    AtoiAcceptsSpelling("-", 0, 0);
  }

  /** An explicit plus sign on a multi-digit value. */
  lemma AtoiPlusExample()
    ensures Atoi("+5000") == Some(5000)
  {
    assert Digits(50) == "50" && Digits(500) == "500" && Digits(5000) == "5000";
    assert "+5000" == "+" + Zeros(0) + Digits(5000);
    AtoiAcceptsSpelling("+", 0, 5000);
  }

  /** Strings Atoi refuses. */
  lemma AtoiRefuses()
    ensures Atoi("invalid-date") == None
    ensures Atoi("") == None
    ensures Atoi("-") == None
    ensures Atoi("+") == None
    ensures Atoi("12a") == None
    ensures Atoi(" 1") == None
  {
    assert !IsDigit("invalid-date"[0]);
    assert !IsDigit("12a"[2]);
    assert !IsDigit(" 1"[0]);
  }

  /**
   * Go's `a / b` for a positive constant divisor: the quotient truncated toward
   * zero (Dafny's own `/` rounds toward negative infinity for negative `a`).
   */
  function Quot(a: int, b: int): (q: int)
    requires b > 0
    ensures a >= 0 ==> 0 <= a - q * b < b
    ensures a < 0 ==> -b < a - q * b <= 0
  {
    if a >= 0 then a / b else -((-a) / b)
  }
}
