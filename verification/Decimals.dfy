/** Decimal numerals: the printed form of a natural number, its value, zero filling and the
    stripping of trailing zeros that the duration printer uses (loop/size.py:141-146). */
module Decimals {
  predicate IsDigit(c: char) {
    '0' <= c <= '9'
  }

  predicate AllDigits(s: string) {
    forall c :: c in s ==> IsDigit(c)
  }

  function DigitOf(c: char): (d: nat)
    requires IsDigit(c)
    ensures d < 10
  {
    (c - '0') as nat
  }

  function CharOf(d: nat): (c: char)
    requires d < 10
    ensures IsDigit(c) && DigitOf(c) == d
  {
    '0' + d as char
  }

  function Pow10(k: nat): (p: nat)
    ensures p >= 1
  {
    if k == 0 then 1 else 10 * Pow10(k - 1)
  }

  /** The number a string of digits stands for; 0 for the empty string. */
  function Val(s: string): (n: nat)
    requires AllDigits(s)
  {
    if s == "" then 0 else 10 * Val(s[..|s| - 1]) + DigitOf(s[|s| - 1])
  }

  function Decimal(n: nat): (s: string)
    ensures s != "" && AllDigits(s)
  {
    if n < 10 then [CharOf(n)] else Decimal(n / 10) + [CharOf(n % 10)]
  }

  /** Zero filling on the left up to a width. */
  function Fill(s: string, width: nat): (r: string)
    requires AllDigits(s)
    ensures AllDigits(r) && |r| == if |s| < width then width else |s|
    decreases width - |s|
  {
    if |s| >= width then s else Fill("0" + s, width)
  }

  /** rstrip("0"). */
  function Strip(s: string): (r: string)
    ensures r <= s && (r == "" || r[|r| - 1] != '0')
  {
    if s == "" || s[|s| - 1] != '0' then s else Strip(s[..|s| - 1])
  }

  lemma {:induction false} ValOfDecimal(n: nat)
    ensures Val(Decimal(n)) == n
  {
    if n < 10 {
      assert [CharOf(n)][..0] == "";
    } else {
      ValOfDecimal(n / 10);
      var s := Decimal(n);
      assert s[..|s| - 1] == Decimal(n / 10);
    }
  }

  lemma {:induction false} DecimalWidth(n: nat, k: nat)
    requires n < Pow10(k) && k > 0
    ensures |Decimal(n)| <= k
  {
    if n >= 10 {
      assert k > 1 by {
        assert Pow10(1) == 10 * Pow10(0);
      }
      DecimalWidth(n / 10, k - 1);
    }
  }

  lemma Monotone(a: nat, b: nat, p: nat)
    requires a <= b
    ensures a * p <= b * p
  {
    assert b * p == a * p + (b - a) * p;
  }

  /** The whole part of a scaled number. */
  function Quotient(n: nat, p: nat): (q: nat)
    requires p > 0
    ensures q * p <= n < q * p + p
  {
    n / p
  }

  lemma Between(a: nat, b: nat, p: nat)
    requires a * p < b * p + p
    ensures a <= b
  {
    Monotone(b + 1, if a > b then a else b + 1, p);
    assert (b + 1) * p == b * p + p;
  }

  lemma Cancel(n: nat, p: nat)
    requires p > 0
    ensures Quotient(n * p, p) == n
  {
    var q := Quotient(n * p, p);
    Between(q, n, p);
    Between(n, q, p);
  }

  lemma {:induction false} Pow10Adds(a: nat, b: nat)
    ensures Pow10(a + b) == Pow10(a) * Pow10(b)
  {
    if a > 0 {
      Pow10Adds(a - 1, b);
      assert Pow10(a + b) == 10 * Pow10(a - 1 + b);
      assert 10 * (Pow10(a - 1) * Pow10(b)) == (10 * Pow10(a - 1)) * Pow10(b);
    }
  }

  lemma ShiftIn(v: nat, p: nat, c: nat, d: nat)
    ensures 10 * (v * p + c) + d == v * (10 * p) + (10 * c + d)
  {
  }

  lemma {:induction false} ValOfConcat(a: string, b: string)
    requires AllDigits(a) && AllDigits(b)
    ensures Val(a + b) == Val(a) * Pow10(|b|) + Val(b)
  {
    if b == "" {
      assert a + b == a;
    } else {
      var c, last := b[..|b| - 1], b[|b| - 1];
      ValOfConcat(a, c);
      assert (a + b)[..|a + b| - 1] == a + c;
      ShiftIn(Val(a), Pow10(|c|), Val(c), DigitOf(last));
    }
  }

  lemma {:induction false} FillKeepsValue(s: string, width: nat)
    requires AllDigits(s)
    ensures Val(Fill(s, width)) == Val(s)
    decreases width - |s|
  {
    if |s| < width {
      ValOfConcat("0", s);
      assert Val("0") == 0 by {
        assert "0"[..0] == "";
      }
      FillKeepsValue("0" + s, width);
    }
  }

  lemma AppendZero(s: string)
    requires AllDigits(s)
    ensures Val(s + "0") == 10 * Val(s)
  {
    assert (s + "0")[..|s|] == s;
  }

  lemma ScaleUp(v: nat, k: nat)
    ensures 10 * (v * Pow10(k)) == v * Pow10(k + 1)
  {
    assert Pow10(k + 1) == 10 * Pow10(k);
  }

  /** What stripping removes is put back by the scale. */
  lemma {:induction false} StripKeepsValue(whole: string, s: string)
    requires AllDigits(whole) && AllDigits(s)
    ensures AllDigits(whole + Strip(s))
    ensures Val(whole + s) == Val(whole + Strip(s)) * Pow10(|s| - |Strip(s)|)
  {
    if s == "" || s[|s| - 1] != '0' {
      assert Pow10(0) == 1;
    } else {
      var t := s[..|s| - 1];
      StripKeepsValue(whole, t);
      assert whole + s == (whole + t) + "0";
      AppendZero(whole + t);
      ScaleUp(Val(whole + Strip(t)), |t| - |Strip(t)|);
    }
  }
}
