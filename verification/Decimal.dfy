/** Decimal numerals: the rational they denote, and the normal forms that decide equality of rationals. */
module Decimal {
  import opened Options
  import opened Text

  // ------------------------------------------------------------ digits and powers of ten

  function DigitValue(c: char): (v: nat)
    requires IsDigit(c)
    ensures v < 10
  {
    c as int - '0' as int
  }

  function NatOf(d: string): nat
    requires AllDigits(d)
  {
    if d == "" then 0 else 10 * NatOf(d[..|d| - 1]) + DigitValue(d[|d| - 1])
  }

  function Ten(k: nat): (r: nat)
    ensures r > 0
  {
    if k == 0 then 1 else 10 * Ten(k - 1)
  }

  function Pow10(p: int): (r: real)
    ensures r > 0.0
  {
    if p >= 0 then Ten(p) as real else 1.0 / Ten(-p) as real
  }

  lemma {:induction false} Pow10Step(p: int)
    ensures Pow10(p + 1) == 10.0 * Pow10(p)
  {
    if p < -1 {
      assert Ten(-p) == 10 * Ten(-p - 1);
      var t := Ten(-p - 1) as real;
      assert 1.0 / t == 10.0 * (1.0 / (10.0 * t));
    }
  }

  /** n times ten to the p. */
  function Scaled(n: nat, p: int): (r: real)
    ensures r >= 0.0
  {
    n as real * Pow10(p)
  }

  lemma {:induction false} ScaledStep(n: nat, p: int)
    ensures Scaled(10 * n, p) == Scaled(n, p + 1)
  {
    Pow10Step(p);
    Regroup(n, Pow10(p));
  }

  lemma {:induction false} Regroup(n: nat, p: real)
    ensures (10 * n) as real * p == n as real * (10.0 * p)
  {
  }

  lemma {:induction false} TenTimes(n: nat, k: nat)
    requires k > 0
    ensures n * Ten(k) == 10 * (n * Ten(k - 1))
  {
  }

  /** Zeros moved from the digits to the power. */
  lemma {:induction false} ScaledShift(n: nat, k: nat, p: int)
    ensures Scaled(n * Ten(k), p) == Scaled(n, p + k)
    decreases k
  {
    hide Scaled;
    if k > 0 {
      TenTimes(n, k);
      hide Ten;
      ScaledStep(n * Ten(k - 1), p);
      ScaledShift(n, k - 1, p + 1);
    } else {
      assert n * Ten(k) == n;
    }
  }

  lemma {:induction false} ScaledCancels(a: nat, b: nat, p: int)
    ensures Scaled(a, p) == Scaled(b, p) <==> a == b
    ensures Scaled(a, p) == 0.0 <==> a == 0
  {
    hide Pow10;
    var x, y, t := a as real, b as real, Pow10(p);
    Cancels(x, y, t);
    Cancels(x, 0.0, t);
    assert x == y <==> a == b;
    assert x == 0.0 <==> a == 0;
    assert 0.0 * t == 0.0;
    assert Scaled(a, p) == x * t && Scaled(b, p) == y * t;
  }

  lemma {:induction false} Cancels(a: real, b: real, p: real)
    requires p > 0.0
    ensures a * p == b * p <==> a == b
  {
    Bigger(a, b, p);
    Bigger(b, a, p);
  }

  lemma {:induction false} Bigger(a: real, b: real, p: real)
    requires p > 0.0
    ensures a > b ==> a * p > b * p
  {
    if a > b {
      var d := a - b;
      assert d * p > 0.0;
      assert (b + d) * p == b * p + d * p;
    }
  }

  // ------------------------------------------------------------ numerals

  /** A numeral taken apart: sign, digits before and after the point, power of ten. */
  datatype Parts = Parts(neg: bool, whole: string, fraction: string, exponent: int)

  predicate Proper(p: Parts) {
    AllDigits(p.whole) && AllDigits(p.fraction)
  }

  function Signed(neg: bool, magnitude: real): real {
    if neg then -magnitude else magnitude
  }

  function Magnitude(p: Parts): (r: real)
    requires Proper(p)
    ensures r >= 0.0
  {
    Scaled(NatOf(p.whole + p.fraction), p.exponent - |p.fraction|)
  }

  /** The rational a numeral denotes. */
  function Value(p: Parts): real
    requires Proper(p)
  {
    Signed(p.neg, Magnitude(p))
  }

  function ParseInt(s: string): Option<int> {
    var digits := if s != "" && (s[0] == '-' || s[0] == '+') then s[1..] else s;
    if digits == "" || !AllDigits(digits) then None
    else
      var n: int := NatOf(digits);
      Some(if s[0] == '-' then -n else n)
  }

  function Unsigned(m: string): string {
    if m != "" && (m[0] == '-' || m[0] == '+') then m[1..] else m
  }

  /** Digits with at most one point among them. */
  function ParseMantissa(neg: bool, m: string, exponent: int): (r: Option<Parts>)
    ensures r.Some? ==> Proper(r.value)
  {
    var dot := FirstOf(m, {'.'});
    var fraction := if dot < |m| then m[dot + 1..] else "";
    if AllDigits(m[..dot]) && AllDigits(fraction) then Some(Parts(neg, m[..dot], fraction, exponent)) else None
  }

  /** Mantissa with optional sign and point, then optionally `e` and a power. */
  function Parse(text: string): (r: Option<Parts>)
    ensures r.Some? ==> Proper(r.value)
  {
    var e := FirstOf(text, {'e', 'E'});
    var exponent := if e < |text| then ParseInt(text[e + 1..]) else Some(0);
    if exponent.None? then None
    else ParseMantissa(e > 0 && text[0] == '-', Unsigned(text[..e]), exponent.value)
  }

  // ------------------------------------------------------------ the normal form

  function DropLeading(d: string): (r: string)
    ensures |r| <= |d| && r == d[|d| - |r|..]
    ensures r != "" ==> r[0] != '0'
  {
    if d != "" && d[0] == '0' then DropLeading(d[1..]) else d
  }

  function DropTrailing(d: string): (r: string)
    ensures r <= d
    ensures r != "" ==> r[|r| - 1] != '0'
  {
    if d != "" && d[|d| - 1] == '0' then DropTrailing(d[..|d| - 1]) else d
  }

  /** Digits without zeros at either end; nothing at all for zero. */
  datatype Normal = Normal(neg: bool, digits: string, power: int)

  function Significant(p: Parts): string {
    DropLeading(p.whole + p.fraction)
  }

  function NormalOf(p: Parts): Normal {
    var digits := Significant(p);
    if digits == "" then Normal(false, "", 0)
    else Normal(p.neg, DropTrailing(digits), p.exponent - |p.fraction| + |digits| - |DropTrailing(digits)|)
  }

  lemma {:induction false} NatOfLeadingZero(d: string)
    requires AllDigits(d)
    ensures AllDigits("0" + d) && NatOf("0" + d) == NatOf(d)
    decreases |d|
  {
    var z := "0" + d;
    if d != "" {
      NatOfLeadingZero(d[..|d| - 1]);
      assert z[..|z| - 1] == "0" + d[..|d| - 1];
    } else {
      assert z[..0] == "" && NatOf(z[..0]) == 0;
    }
  }

  lemma {:induction false} NatOfDropLeading(d: string)
    requires AllDigits(d)
    ensures AllDigits(DropLeading(d)) && NatOf(DropLeading(d)) == NatOf(d)
    decreases |d|
  {
    if d != "" && d[0] == '0' {
      NatOfDropLeading(d[1..]);
      assert d == "0" + d[1..];
      NatOfLeadingZero(d[1..]);
    }
  }

  lemma {:induction false} NatOfDropTrailing(d: string)
    requires AllDigits(d)
    ensures AllDigits(DropTrailing(d))
    ensures NatOf(d) == NatOf(DropTrailing(d)) * Ten(|d| - |DropTrailing(d)|)
    decreases |d|
  {
    if d != "" && d[|d| - 1] == '0' {
      var front := d[..|d| - 1];
      NatOfDropTrailing(front);
      var k := |front| - |DropTrailing(front)|;
      assert Ten(k + 1) == 10 * Ten(k);
      assert NatOf(d) == 10 * NatOf(front);
      calc {
        10 * NatOf(front);
        10 * (NatOf(DropTrailing(front)) * Ten(k));
        NatOf(DropTrailing(front)) * (10 * Ten(k));
      }
    }
  }

  lemma {:induction false} NatOfPositive(d: string)
    requires AllDigits(d) && d != "" && d[0] != '0'
    ensures NatOf(d) > 0
    decreases |d|
  {
    if |d| > 1 { NatOfPositive(d[..|d| - 1]); }
  }

  function NormalMagnitude(n: Normal): (r: real)
    requires AllDigits(n.digits)
    ensures r >= 0.0
  {
    Scaled(NatOf(n.digits), n.power)
  }

  predicate IsNormal(n: Normal) {
    AllDigits(n.digits) &&
    (if n.digits == "" then !n.neg && n.power == 0
     else n.digits[0] != '0' && n.digits[|n.digits| - 1] != '0')
  }

  lemma {:induction false} StillPositive(d: string)
    requires d != "" && d[0] != '0'
    ensures DropTrailing(d) != "" && DropTrailing(d)[0] == d[0]
    decreases |d|
  {
    if |d| > 1 { StillPositive(d[..|d| - 1]); }
  }

  /** Normalising keeps the rational. */
  lemma {:induction false} NormalKeepsValue(p: Parts)
    requires Proper(p)
    ensures IsNormal(NormalOf(p))
    ensures Value(p) == Signed(NormalOf(p).neg, NormalMagnitude(NormalOf(p)))
    ensures NormalOf(p).digits == "" <==> Magnitude(p) == 0.0
  {
    hide Scaled, Ten, NatOf, DropLeading, DropTrailing;
    var d := Significant(p);
    var power := p.exponent - |p.fraction|;
    NatOfDropLeading(p.whole + p.fraction);
    ScaledCancels(NatOf(d), 0, power);
    if d == "" {
      NatOfNothing();
      ScaledCancels(NatOf(d), 0, 0);
    } else {
      NatOfDropTrailing(d);
      NatOfPositive(d);
      StillPositive(d);
      ScaledShift(NatOf(DropTrailing(d)), |d| - |DropTrailing(d)|, power);
    }
  }

  lemma {:induction false} NatOfNothing()
    ensures NatOf("") == 0
  {
  }

  lemma {:induction false} SameDigits(a: string, b: string)
    requires AllDigits(a) && AllDigits(b) && NatOf(a) == NatOf(b)
    requires (a != "" ==> a[0] != '0') && (b != "" ==> b[0] != '0')
    ensures a == b
    decreases |a|
  {
    if a == "" {
      if b != "" { NatOfPositive(b); }
    } else {
      NatOfPositive(a);
      assert b != "";
      SameDigits(a[..|a| - 1], b[..|b| - 1]);
      assert a[|a| - 1] == b[|b| - 1];
      assert a == a[..|a| - 1] + [a[|a| - 1]];
    }
  }

  lemma {:induction false} LastDigit(d: string)
    requires AllDigits(d) && d != ""
    ensures NatOf(d) % 10 == 0 <==> d[|d| - 1] == '0'
  {
  }

  lemma {:induction false} TenDivides(n: nat, k: nat)
    ensures k > 0 ==> (n * Ten(k)) % 10 == 0
    ensures k == 0 ==> n * Ten(k) == n
  {
    if k > 0 { TenTimes(n, k); }
  }

  /** With the smaller power first, equal magnitudes force equal powers. */
  lemma {:induction false} SamePower(a: Normal, b: Normal)
    requires IsNormal(a) && IsNormal(b) && a.digits != "" && b.digits != "" && a.power <= b.power
    requires NormalMagnitude(a) == NormalMagnitude(b)
    ensures a.digits == b.digits && a.power == b.power
  {
    hide Scaled, NatOf, Ten;
    var k := b.power - a.power;
    ScaledShift(NatOf(b.digits), k, a.power);
    ScaledCancels(NatOf(a.digits), NatOf(b.digits) * Ten(k), a.power);
    LastDigit(a.digits);
    TenDivides(NatOf(b.digits), k);
    SameDigits(a.digits, b.digits);
  }

  /** Two numerals have the same normal form exactly when they denote the same rational. */
  lemma {:induction false} NormalDecides(a: Parts, b: Parts)
    requires Proper(a) && Proper(b)
    ensures NormalOf(a) == NormalOf(b) <==> Value(a) == Value(b)
  {
    hide NormalOf, Magnitude;
    NormalKeepsValue(a);
    NormalKeepsValue(b);
    NormalsAgree(NormalOf(a), NormalOf(b));
  }

  lemma {:induction false} NormalsAgree(m: Normal, n: Normal)
    requires IsNormal(m) && IsNormal(n)
    ensures m == n <==> Signed(m.neg, NormalMagnitude(m)) == Signed(n.neg, NormalMagnitude(n))
  {
    hide Scaled, NatOf;
    Sign(m);
    Sign(n);
    if m.digits != "" && n.digits != "" && NormalMagnitude(m) == NormalMagnitude(n) {
      if m.power <= n.power { SamePower(m, n); } else { SamePower(n, m); }
    }
  }

  lemma {:induction false} Sign(n: Normal)
    requires IsNormal(n)
    ensures NormalMagnitude(n) == 0.0 <==> n.digits == ""
  {
    hide Scaled;
    ScaledCancels(NatOf(n.digits), 0, n.power);
    if n.digits != "" { NatOfPositive(n.digits); }
  }
}
