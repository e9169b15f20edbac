/**
 * Rendering of non-negative integers as the Python formatting the endpoint
 * uses renders them: plain decimal, and "0x" followed by lower-case hex
 * digits padded with zeros to at least four, together with the parser that
 * inverts them.
 */
module Formatting {

  const DIGIT_CHARS: string := "0123456789abcdef"

  /** The value of one lower-case hex (or decimal) digit character. */
  function DigitValue(c: char): nat
  {
    if '0' <= c <= '9' then c as nat - '0' as nat
    else if 'a' <= c <= 'f' then c as nat - 'a' as nat + 10
    else 0
  }

  lemma NonZeroDigit(d: nat)
    ensures 1 <= d < 16 ==> DIGIT_CHARS[d] != '0'
  {
    if 1 <= d < 16 {
      DigitValueOfChar(d);
    }
  }

  lemma DigitValueOfChar(d: nat)
    requires d < 16
    ensures DigitValue(DIGIT_CHARS[d]) == d
  {
  }

  /** The digits of `n` in `base`, most significant first, without leading zeros ("0" for zero). */
  function Digits(n: nat, base: nat): (r: string)
    requires 2 <= base <= 16
    ensures 1 <= |r|
    ensures forall i | 0 <= i < |r| :: r[i] in DIGIT_CHARS[..base]
    ensures n < base <==> |r| == 1
    ensures |r| == 1 || r[0] != '0'
    decreases n
  {
    if n < base then [DIGIT_CHARS[n]]
    else
      DivMod(n, base);
      var front, last := Digits(n / base, base), DIGIT_CHARS[n % base];
      assert last in DIGIT_CHARS[..base];
      assert |front| == 1 ==> front[0] == DIGIT_CHARS[n / base];
      NonZeroDigit(n / base);
      assert (front + [last])[0] == front[0];
      front + [last]
  }

  /**
   * A digit string as Python writes an integer in `base`: at least one
   * digit, and no leading zero unless the number is zero itself.
   */
  predicate Canonical(s: string, base: nat)
    requires 2 <= base <= 16
  {
    && 1 <= |s|
    && (forall i | 0 <= i < |s| :: s[i] in DIGIT_CHARS[..base])
    && (|s| == 1 || s[0] != '0')
  }

  /** The number a string of digits denotes in `base`; the parser that `Digits` is checked against. */
  function Value(s: string, base: nat): nat
  {
    if s == [] then 0 else Value(s[..|s| - 1], base) * base + DigitValue(s[|s| - 1])
  }

  lemma ValueOfAppend(s: string, c: char, base: nat)
    ensures Value(s + [c], base) == Value(s, base) * base + DigitValue(c)
  {
    assert (s + [c])[..|s|] == s;
  }

  lemma DivMod(n: nat, base: nat)
    requires 2 <= base
    ensures n == (n / base) * base + n % base
    ensures 0 < n ==> n / base < n
    ensures base <= n ==> 1 <= n / base
  {
  }

  /** A number written as `a * base + d` with a digit `d` has one such form. */
  lemma DivModUnique(a: nat, d: nat, b: nat, e: nat, base: nat)
    requires d < base && e < base && a * base + d == b * base + e
    ensures a == b && d == e
  {
    if a < b {
      MulLe(a + 1, b, base);
    } else if b < a {
      MulLe(b + 1, a, base);
    }
  }

  lemma MulLe(x: nat, y: nat, k: nat)
    requires x <= y
    ensures x * k <= y * k
  {
    var z := y - x;
    assert y * k == x * k + z * k;
  }

  /** A digit character of `base` denotes a digit below `base`, and that digit is written with it. */
  lemma CharOfDigit(c: char, base: nat)
    requires 2 <= base <= 16 && c in DIGIT_CHARS[..base]
    ensures DigitValue(c) < base && DIGIT_CHARS[DigitValue(c)] == c
  {
    var i :| 0 <= i < base && DIGIT_CHARS[i] == c;
    DigitValueOfChar(i);
  }

  lemma {:induction false} ValueOfDigits(n: nat, base: nat)
    requires 2 <= base <= 16
    ensures Value(Digits(n, base), base) == n
    decreases n
  {
    if n < base {
      DigitValueOfChar(n);
      ValueOfAppend([], DIGIT_CHARS[n], base);
      assert [] + [DIGIT_CHARS[n]] == Digits(n, base);
    } else {
      var q, m := n / base, n % base;
      var d := Digits(q, base);
      assert Digits(n, base) == d + [DIGIT_CHARS[m]];
      DivMod(n, base);
      ValueOfDigits(q, base);
      DigitValueOfChar(m);
      ValueOfAppend(d, DIGIT_CHARS[m], base);
      var v := Value(d, base);
      assert Value(d + [DIGIT_CHARS[m]], base) == q * base + m;
    }
  }

  function Zeros(k: nat): (r: string)
    ensures |r| == k && forall i | 0 <= i < k :: r[i] == '0'
  {
    if k == 0 then [] else Zeros(k - 1) + ['0']
  }

  lemma {:induction false} LeadingZerosIgnored(k: nat, s: string, base: nat)
    ensures Value(Zeros(k) + s, base) == Value(s, base)
    decreases |s|, k
  {
    if s == [] {
      assert Zeros(k) + s == Zeros(k);
      if k > 0 {
        LeadingZerosIgnored(k - 1, [], base);
        assert Zeros(k - 1) + [] == Zeros(k - 1);
        assert Zeros(k)[..k - 1] == Zeros(k - 1);
      }
    } else {
      var t := Zeros(k) + s;
      assert t[..|t| - 1] == Zeros(k) + s[..|s| - 1];
      LeadingZerosIgnored(k, s[..|s| - 1], base);
    }
  }

  /** The last digit of a string splits off its value. */
  lemma ValueOfLast(s: string, base: nat)
    requires s != []
    ensures Value(s, base) == Value(s[..|s| - 1], base) * base + DigitValue(s[|s| - 1])
  {
  }

  /** Two digit strings of one length that denote the same number are the same string. */
  lemma {:induction false} ValueInjective(s: string, t: string, base: nat)
    requires 2 <= base <= 16 && |s| == |t|
    requires forall i | 0 <= i < |s| :: s[i] in DIGIT_CHARS[..base]
    requires forall i | 0 <= i < |t| :: t[i] in DIGIT_CHARS[..base]
    requires Value(s, base) == Value(t, base)
    ensures s == t
    decreases |s|
  {
    if s != [] {
      var s', t' := s[..|s| - 1], t[..|t| - 1];
      var c, c' := s[|s| - 1], t[|t| - 1];
      ValueOfLast(s, base);
      ValueOfLast(t, base);
      CharOfDigit(c, base);
      CharOfDigit(c', base);
      DivModUnique(Value(s', base), DigitValue(c), Value(t', base), DigitValue(c'), base);
      ValueInjective(s', t', base);
      assert s == s' + [c] && t == t' + [c'];
    }
  }

  /** A digit string that starts with a non-zero digit denotes a positive number. */
  lemma {:induction false} PositiveValue(s: string, base: nat)
    requires 2 <= base <= 16 && 1 <= |s| && s[0] != '0'
    requires forall i | 0 <= i < |s| :: s[i] in DIGIT_CHARS[..base]
    ensures 1 <= Value(s, base)
    decreases |s|
  {
    var init := s[..|s| - 1];
    ValueOfLast(s, base);
    if |s| == 1 {
      assert init == [];
      CharOfDigit(s[0], base);
      assert DIGIT_CHARS[0] == '0';
    } else {
      PositiveValue(init, base);
      MulLe(1, Value(init, base), base);
    }
  }

  /** A number `m * base + d` with `m` positive and `d` a digit has quotient `m` and remainder `d`. */
  lemma SplitLast(n: nat, m: nat, d: nat, base: nat)
    requires 2 <= base && 1 <= m && d < base && n == m * base + d
    ensures base <= n && n / base == m && n % base == d
  {
    MulLe(1, m, base);
    DivMod(n, base);
    DivModUnique(n / base, n % base, m, d, base);
  }

  /** `Digits` inverts `Value` on canonical strings: every canonical string is the rendering of its value. */
  lemma {:induction false} DigitsOfValue(s: string, base: nat)
    requires 2 <= base <= 16 && Canonical(s, base)
    ensures Digits(Value(s, base), base) == s
    decreases |s|
  {
    var n := Value(s, base);
    var init, c := s[..|s| - 1], s[|s| - 1];
    ValueOfLast(s, base);
    CharOfDigit(c, base);
    if |s| == 1 {
      assert init == [];
      assert n == DigitValue(c) < base;
      assert s == [c];
    } else {
      assert init[0] == s[0];
      DigitsOfValue(init, base);
      PositiveValue(init, base);
      var m := Value(init, base);
      SplitLast(n, m, DigitValue(c), base);
      calc {
        Digits(n, base);
        Digits(n / base, base) + [DIGIT_CHARS[n % base]];
        Digits(m, base) + [DIGIT_CHARS[DigitValue(c)]];
        init + [c];
        s;
      }
    }
  }

  /** The decimal digits of a non-negative integer, as Python's `str` renders it. */
  function Decimal(n: nat): (r: string)
    ensures Value(r, 10) == n
    ensures Canonical(r, 10)
    ensures forall i | 0 <= i < |r| :: '0' <= r[i] <= '9'
  {
    ValueOfDigits(n, 10);
    Digits(n, 10)
  }

  /** The decimal rendering is the only canonical decimal string for its number. */
  lemma DecimalUnique(s: string, n: nat)
    requires Canonical(s, 10) && Value(s, 10) == n
    ensures s == Decimal(n)
  {
    DigitsOfValue(s, 10);
  }

  lemma DecimalInjective(m: nat, n: nat)
    requires Decimal(m) == Decimal(n)
    ensures m == n
  {
  }

  /** "0x" followed by lower-case hex digits, zero-padded to four and no further. */
  predicate IsHex04(s: string)
  {
    && |s| >= 6 && s[..2] == "0x"
    && (forall i | 2 <= i < |s| :: s[i] in DIGIT_CHARS)
    && (|s| == 6 || s[2] != '0')
  }

  /** "0x", then the lower-case hex digits of `n` left-padded with zeros to four. */
  function Hex04(n: nat): (r: string)
    ensures IsHex04(r)
    ensures n < 0x1_0000 ==> |r| == 6
    ensures Value(r[2..], 16) == n
  {
    var d := Digits(n, 16);
    var pad := if |d| < 4 then 4 - |d| else 0;
    LowValuesHaveFewDigits(n);
    ValueOfDigits(n, 16);
    LeadingZerosIgnored(pad, d, 16);
    assert ("0x" + Zeros(pad) + d)[2..] == Zeros(pad) + d;
    assert pad == 0 ==> ("0x" + Zeros(pad) + d)[2] == d[0];
    "0x" + Zeros(pad) + d
  }

  function Pow16(k: nat): nat
  {
    if k == 0 then 1 else 16 * Pow16(k - 1)
  }

  /** `k` hex digits denote a number below 16 to the `k`. */
  lemma {:induction false} ValueBound16(s: string)
    requires forall i | 0 <= i < |s| :: s[i] in DIGIT_CHARS
    ensures Value(s, 16) < Pow16(|s|)
    decreases |s|
  {
    if s != [] {
      ValueOfLast(s, 16);
      CharOfDigit(s[|s| - 1], 16);
      ValueBound16(s[..|s| - 1]);
    }
  }

  /** `Hex04` is the only string of its form that denotes `n`: the rendering is pinned down. */
  lemma Hex04Unique(s: string, n: nat)
    requires IsHex04(s) && Value(s[2..], 16) == n
    ensures s == Hex04(n)
  {
    var t, r := s[2..], Hex04(n);
    assert s == "0x" + t;
    assert r == "0x" + r[2..];
    assert DIGIT_CHARS[..16] == DIGIT_CHARS;
    if |s| > 6 {
      assert t[0] == s[2];
      assert forall i | 0 <= i < |t| :: t[i] == s[i + 2];
      DigitsOfValue(t, 16);
      assert Zeros(0) == [];
    } else {
      ValueBound16(t);
      assert Pow16(4) == 0x1_0000;
      ValueInjective(t, r[2..], 16);
    }
  }

  lemma {:induction false} LowValuesHaveFewDigits(n: nat)
    ensures n < 0x1_0000 ==> |Digits(n, 16)| <= 4
  {
    if 16 <= n < 0x1_0000 {
      LowValuesHaveFewDigits(n / 16);
    }
  }

  /** Profile 0x0104 (Home Automation) renders as "0x0104". */
  lemma Hex04Example()
    ensures Hex04(0x0104) == "0x0104"
  {
    assert Digits(1, 16) == "1";
    assert Digits(0x10, 16) == "10";
    assert Digits(0x0104, 16) == "104";
    assert Zeros(1) == "0";
  }

  lemma Hex04DeviceTypeExample()
    ensures Hex04(0x0051) == "0x0051"
  {
    assert Digits(5, 16) == "5";
    assert Digits(0x51, 16) == "51";
    assert Zeros(2) == "00";
  }

  lemma Hex04ZeroExample()
    ensures Hex04(0) == "0x0000"
  {
    assert Digits(0, 16) == "0";
    assert Zeros(3) == "000";
  }

  lemma Hex04ClusterExamples()
    ensures Hex04(0x12) == "0x0012"
    ensures Hex04(0x19) == "0x0019"
  {
    assert Digits(1, 16) == "1";
    assert Digits(0x12, 16) == "12";
    assert Digits(0x19, 16) == "19";
    assert Zeros(2) == "00";
  }
}
