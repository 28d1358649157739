/** The canonical JSON text: printing values, strings, numbers and sorted members. */
module CanonicalText {
  import opened Options
  import opened Text
  import opened Decimal
  import opened Numerals
  import opened Json
  import opened KeyOrder

  // ------------------------------------------------------------ numbers

  const SAFE_INTEGER: real := 9007199254740991.0

  /** Digits and the place of the point, as the layouts take them. */
  function PointOf(n: Normal): int {
    n.power + |n.digits|
  }

  function Layout(n: Normal, magnitude: real): string
    requires n.digits != ""
  {
    if 0.000001 <= magnitude < 1_000_000_000_000_000_000_000.0 then Plain(n.neg, n.digits, PointOf(n))
    else Scientific(n.neg, n.digits, PointOf(n) - 1)
  }

  function NumberText(n: Number): Option<string>
    requires GoodNumber(n)
  {
    if n.integral && Magnitude(n.parts) > SAFE_INTEGER then None
    else if NormalOf(n.parts).digits == "" then Some("0")
    else Some(Layout(NormalOf(n.parts), Magnitude(n.parts)))
  }

  /** The digit loops of the number branch: leading zeros move the point, trailing zeros are dropped. */
  method Shorten(mantissa: string, start: int) returns (digits: string, point: int)
    requires DropLeading(mantissa) != ""
    ensures digits == DropTrailing(DropLeading(mantissa))
    ensures point == start + |DropLeading(mantissa)| - |mantissa|
  {
    digits, point := mantissa, start;
    while digits[0] == '0' && |digits| > 1
      invariant digits != "" && DropLeading(digits) == DropLeading(mantissa)
      invariant |digits| <= |mantissa| && point == start + |digits| - |mantissa|
      decreases |digits|
    {
      digits, point := digits[1..], point - 1;
    }
    ghost var all := digits;
    assert digits == DropLeading(mantissa);
    StillPositive(all);
    while digits[|digits| - 1] == '0' && |digits| > 1
      invariant digits != "" && digits[0] == all[0] && DropTrailing(digits) == DropTrailing(all)
      decreases |digits|
    {
      digits := digits[..|digits| - 1];
    }
  }

  /** Exactly the integers that a binary float cannot hold apart are refused. */
  lemma {:induction false} UnsafeIsRefused(n: Number)
    requires GoodNumber(n)
    ensures NumberText(n).None? <==>
      n.integral && !(-9007199254740991.0 <= Decimal.Value(n.parts) <= 9007199254740991.0)
  {
    assert Magnitude(n.parts) >= 0.0;
    hide Magnitude, NormalOf, Layout;
  }

  /** What the loops leave is the normal form, unless the number is zero. */
  lemma {:induction false} ShortIsNormal(n: Number, digits: string, point: int)
    requires GoodNumber(n) && Magnitude(n.parts) != 0.0
    requires var mantissa := n.parts.whole + n.parts.fraction;
      digits == DropTrailing(DropLeading(mantissa)) &&
      point == |n.parts.whole| + n.parts.exponent + |DropLeading(mantissa)| - |mantissa|
    ensures NormalOf(n.parts).digits != "" && NormalOf(n.parts) == Normal(n.parts.neg, digits, point - |digits|)
  {
    hide Magnitude, Proper, DropLeading, DropTrailing;
    NormalKeepsValue(n.parts);
  }

  lemma {:induction false} ZeroHasNoDigits(n: Number)
    requires GoodNumber(n)
    ensures Magnitude(n.parts) == 0.0 <==> NormalOf(n.parts).digits == ""
    ensures Magnitude(n.parts) != 0.0 ==> DropLeading(n.parts.whole + n.parts.fraction) != ""
  {
    hide Magnitude, Proper, DropLeading, DropTrailing;
    NormalKeepsValue(n.parts);
  }

  method PrintNumber(n: Number) returns (r: Option<string>)
    requires GoodNumber(n)
    ensures r == NumberText(n)
  {
    hide Magnitude, Layout, Proper, DropLeading, DropTrailing, NormalOf;
    ZeroHasNoDigits(n);
    if n.integral && Magnitude(n.parts) > SAFE_INTEGER { return None; }
    if Magnitude(n.parts) == 0.0 { return Some("0"); }
    var digits, point := Shorten(n.parts.whole + n.parts.fraction, |n.parts.whole| + n.parts.exponent);
    ShortIsNormal(n, digits, point);
    var normal := Normal(n.parts.neg, digits, point - |digits|);
    return Some(Layout(normal, Magnitude(n.parts)));
  }

  /** The printed number denotes the number. */
  lemma {:induction false} NumberTextDenotes(n: Number)
    requires GoodNumber(n) && NumberText(n).Some?
    ensures Parse(NumberText(n).value).Some?
    ensures Decimal.Value(Parse(NumberText(n).value).value) == Decimal.Value(n.parts)
  {
    hide Parse, Plain, Scientific, NormalOf, Magnitude, Proper;
    NormalKeepsValue(n.parts);
    var m := NormalOf(n.parts);
    if m.digits == "" {
      ZeroDenotes();
    } else {
      PlainDenotes(m.neg, m.digits, PointOf(m));
      ScientificDenotes(m.neg, m.digits, PointOf(m) - 1);
    }
  }

  /** Equal numbers are printed alike, different numbers differently. */
  lemma {:induction false} NumberTextDecides(m: Number, n: Number)
    requires GoodNumber(m) && GoodNumber(n) && NumberText(m).Some? && NumberText(n).Some?
    ensures NumberText(m) == NumberText(n) <==> Decimal.Value(m.parts) == Decimal.Value(n.parts)
  {
    hide Parse, Layout, NormalOf, Magnitude;
    NumberTextDenotes(m);
    NumberTextDenotes(n);
    NormalDecides(m.parts, n.parts);
    if Decimal.Value(m.parts) == Decimal.Value(n.parts) { SameMagnitude(m.parts, n.parts); }
  }

  lemma {:induction false} SameMagnitude(p: Parts, q: Parts)
    requires Proper(p) && Proper(q) && Decimal.Value(p) == Decimal.Value(q)
    ensures Magnitude(p) == Magnitude(q)
  {
    hide Magnitude;
  }

  // ------------------------------------------------------------ the layout is that of ECMAScript

  lemma {:induction false} TenBounds(d: string)
    requires AllDigits(d) && d != "" && d[0] != '0'
    ensures Ten(|d| - 1) <= NatOf(d) < Ten(|d|)
    decreases |d|
  {
    if |d| == 1 {
      assert NatOf(d[..0]) == 0 && Ten(0) == 1 && Ten(1) == 10 * Ten(0);
    } else {
      TenBounds(d[..|d| - 1]);
    }
  }

  lemma {:induction false} Pow10Grows(p: int, q: int)
    requires p <= q
    ensures Pow10(p) <= Pow10(q)
    decreases q - p
  {
    if p < q {
      Pow10Step(q - 1);
      Pow10Grows(p, q - 1);
    }
  }

  lemma {:induction false} ScaledOne(k: nat, p: int)
    ensures Scaled(Ten(k), p) == Pow10(p + k)
  {
    hide Pow10;
    ScaledShift(1, k, p);
    assert 1 * Ten(k) == Ten(k);
    Once(Pow10(p + k));
  }

  lemma {:induction false} Once(x: real)
    ensures (1 as nat) as real * x == x
  {
  }

  lemma {:induction false} ScaledGrows(a: nat, b: nat, p: int)
    requires a < b
    ensures Scaled(a, p) < Scaled(b, p)
  {
    hide Pow10;
    var x, y, t := a as real, b as real, Pow10(p);
    Bigger(y, x, t);
    assert Scaled(a, p) == x * t && Scaled(b, p) == y * t;
  }

  lemma {:induction false} MagnitudeBounds(n: Normal)
    requires IsNormal(n) && n.digits != ""
    ensures Pow10(PointOf(n) - 1) <= NormalMagnitude(n) < Pow10(PointOf(n))
  {
    hide Scaled, Ten, NatOf, Pow10;
    var d := n.digits;
    TenBounds(d);
    ScaledOne(|d| - 1, n.power);
    ScaledOne(|d|, n.power);
    ScaledGrows(NatOf(d), Ten(|d|), n.power);
    if Ten(|d| - 1) < NatOf(d) { ScaledGrows(Ten(|d| - 1), NatOf(d), n.power); }
  }

  lemma {:induction false} Thresholds()
    ensures Pow10(-6) == 0.000001 && Pow10(21) == 1_000_000_000_000_000_000_000.0
  {
    assert Ten(3) == 1000 by { assert Ten(1) == 10 && Ten(2) == 100; }
    assert Ten(6) == 1_000_000 by { assert Ten(4) == 10_000 && Ten(5) == 100_000; }
    assert Ten(9) == 1_000_000_000 by { assert Ten(7) == 10_000_000 && Ten(8) == 100_000_000; }
    assert Ten(12) == 1_000_000_000_000 by { assert Ten(10) == 10_000_000_000 && Ten(11) == 100_000_000_000; }
    assert Ten(15) == 1_000_000_000_000_000 by {
      assert Ten(13) == 10_000_000_000_000 && Ten(14) == 100_000_000_000_000;
    }
    assert Ten(18) == 1_000_000_000_000_000_000 by {
      assert Ten(16) == 10_000_000_000_000_000 && Ten(17) == 100_000_000_000_000_000;
    }
    assert Ten(21) == 1_000_000_000_000_000_000_000 by {
      assert Ten(19) == 10_000_000_000_000_000_000 && Ten(20) == 100_000_000_000_000_000_000;
    }
  }

  /** The choice by magnitude is the choice by the place of the point that section 3.2.2.3 of RFC 8785 takes over from
      ECMAScript: with the point at -5 to 21 the number is written out, otherwise it gets an exponent. */
  lemma {:induction false} LayoutByPoint(n: Number)
    requires GoodNumber(n) && NumberText(n).Some? && NormalOf(n.parts).digits != ""
    ensures var m := NormalOf(n.parts);
      NumberText(n).value ==
        if -5 <= PointOf(m) <= 21 then Plain(m.neg, m.digits, PointOf(m))
        else Scientific(m.neg, m.digits, PointOf(m) - 1)
  {
    hide Pow10, Plain, Scientific, NormalOf, Magnitude, Proper, NormalMagnitude;
    var m := NormalOf(n.parts);
    NormalKeepsValue(n.parts);
    assert Magnitude(n.parts) == NormalMagnitude(m) by { SignedSame(n.parts); }
    MagnitudeBounds(m);
    Thresholds();
    var point := PointOf(m);
    if point >= -5 { Pow10Grows(-6, point - 1); } else { Pow10Grows(point, -6); }
    if point <= 21 { Pow10Grows(point, 21); } else { Pow10Grows(21, point - 1); }
  }

  lemma {:induction false} SignedSame(p: Parts)
    requires Proper(p) && IsNormal(NormalOf(p))
    requires Decimal.Value(p) == Signed(NormalOf(p).neg, NormalMagnitude(NormalOf(p)))
    ensures Magnitude(p) == NormalMagnitude(NormalOf(p))
  {
    hide Magnitude, NormalMagnitude, NormalOf;
  }
}
