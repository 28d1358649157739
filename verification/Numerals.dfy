/** Printing numerals, reading them back, and the normal forms of the Rust and Go ports. */
module Numerals {
  import opened Options
  import opened Text
  import opened Decimal

  // ------------------------------------------------------------ whole numbers as text

  function DigitOf(v: nat): (c: char)
    requires v < 10
    ensures IsDigit(c) && DigitValue(c) == v
  {
    ('0' as int + v) as char
  }

  function NatText(n: nat): (r: string)
    ensures r != "" && AllDigits(r) && NatOf(r) == n
  {
    if n < 10 then NatTextOne(n) else NatTextMore(NatText(n / 10), n % 10)
  }

  function NatTextOne(n: nat): (r: string)
    requires n < 10
    ensures r != "" && AllDigits(r) && NatOf(r) == n
  {
    assert [DigitOf(n)][..0] == "";
    [DigitOf(n)]
  }

  function NatTextMore(front: string, v: nat): (r: string)
    requires v < 10 && AllDigits(front)
    ensures r != "" && AllDigits(r) && NatOf(r) == 10 * NatOf(front) + v
  {
    assert (front + [DigitOf(v)])[..|front|] == front;
    front + [DigitOf(v)]
  }

  function IntText(i: int): string {
    if i < 0 then "-" + NatText(-i) else NatText(i)
  }

  function PlusText(i: int): string {
    if i < 0 then IntText(i) else "+" + IntText(i)
  }

  lemma {:induction false} IntRoundTrip(i: int)
    ensures ParseInt(IntText(i)) == Some(i) && ParseInt(PlusText(i)) == Some(i)
  {
    hide NatText, NatOf;
    var digits := NatText(if i < 0 then -i else i);
    assert IsDigit(digits[0]);
    assert ("-" + digits)[1..] == digits && ("+" + digits)[1..] == digits;
  }

  // ------------------------------------------------------------ spelling a numeral

  /** A sign, digits, and optionally a point with more digits and a power. */
  function Spell(neg: bool, whole: string, fraction: Option<string>, power: Option<string>): string {
    (if neg then "-" else "") + (whole + PointText(fraction)) + PowerText(power)
  }

  function PointText(fraction: Option<string>): string {
    if fraction.Some? then "." + fraction.value else ""
  }

  function PowerText(power: Option<string>): string {
    if power.Some? then "e" + power.value else ""
  }

  lemma {:induction false} MantissaParses(neg: bool, whole: string, fraction: Option<string>, exponent: int)
    requires AllDigits(whole) && (fraction.Some? ==> AllDigits(fraction.value))
    ensures ParseMantissa(neg, whole + PointText(fraction), exponent) ==
      Some(Parts(neg, whole, if fraction.Some? then fraction.value else "", exponent))
  {
    var m := whole + PointText(fraction);
    FirstOfAt(whole, PointText(fraction), {'.'});
    assert m[..|whole|] == whole;
    if fraction.Some? {
      assert m[|whole| + 1..] == fraction.value;
    }
  }

  lemma {:induction false} PowerSplits(front: string, power: Option<string>)
    requires forall i :: 0 <= i < |front| ==> front[i] !in {'e', 'E'}
    ensures var text := front + PowerText(power);
      FirstOf(text, {'e', 'E'}) == |front| && text[..|front|] == front &&
      (if power.Some? then |front| < |text| && text[|front| + 1..] == power.value else |front| == |text|)
  {
    FirstOfAt(front, PowerText(power), {'e', 'E'});
  }

  function Front(neg: bool, whole: string, fraction: Option<string>): string {
    (if neg then "-" else "") + (whole + PointText(fraction))
  }

  lemma {:induction false} SignSplits(neg: bool, whole: string, fraction: Option<string>)
    requires whole != "" && AllDigits(whole) && (fraction.Some? ==> AllDigits(fraction.value))
    ensures var front := Front(neg, whole, fraction);
      front != "" && (front[0] == '-' <==> neg) && Unsigned(front) == whole + PointText(fraction) &&
      forall i :: 0 <= i < |front| ==> front[i] !in {'e', 'E'}
  {
    hide AllDigits, Unsigned, PointText;
    var m := whole + PointText(fraction);
    MantissaChars(whole, fraction);
    assert m[0] == whole[0];
    assert IsDigit(m[0]) by { FirstIsDigit(whole); }
    SignTaken(neg, m);
    if neg {
      assert Front(neg, whole, fraction) == "-" + m;
    } else {
      assert Front(neg, whole, fraction) == m;
    }
  }

  lemma {:induction false} FirstIsDigit(s: string)
    requires AllDigits(s) && s != ""
    ensures IsDigit(s[0])
  {
  }

  lemma {:induction false} SignTaken(neg: bool, m: string)
    requires m != "" && IsDigit(m[0])
    ensures Unsigned((if neg then "-" else "") + m) == m
  {
    assert ("-" + m)[1..] == m && "" + m == m;
  }

  lemma {:induction false} MantissaChars(whole: string, fraction: Option<string>)
    requires AllDigits(whole) && (fraction.Some? ==> AllDigits(fraction.value))
    ensures var m := whole + PointText(fraction);
      forall i :: 0 <= i < |m| ==> m[i] == '.' || IsDigit(m[i])
  {
    var m := whole + PointText(fraction);
    forall i | 0 <= i < |m| ensures m[i] == '.' || IsDigit(m[i]) {
      if i < |whole| {
        assert m[i] == whole[i];
      } else if fraction.Some? && i > |whole| {
        assert m[i] == fraction.value[i - |whole| - 1];
      }
    }
  }

  /** Reading a spelled numeral gives its parts back. */
  lemma {:induction false} SpellParses(neg: bool, whole: string, fraction: Option<string>, power: Option<string>)
    requires whole != "" && AllDigits(whole) && (fraction.Some? ==> AllDigits(fraction.value))
    requires power.Some? ==> ParseInt(power.value).Some?
    ensures Parse(Spell(neg, whole, fraction, power)) ==
      Some(Parts(neg, whole, if fraction.Some? then fraction.value else "",
                 if power.Some? then ParseInt(power.value).value else 0))
  {
    hide ParseInt, ParseMantissa, FirstOf, Unsigned, PowerText, AllDigits, Front, PointText, Spell;
    var front := Front(neg, whole, fraction);
    SpellIs(neg, whole, fraction, power);
    SignSplits(neg, whole, fraction);
    PowerSplits(front, power);
    MantissaParses(neg, whole, fraction, if power.Some? then ParseInt(power.value).value else 0);
    assert (front + PowerText(power))[0] == front[0];
  }

  lemma {:induction false} SpellIs(neg: bool, whole: string, fraction: Option<string>, power: Option<string>)
    ensures Spell(neg, whole, fraction, power) == Front(neg, whole, fraction) + PowerText(power)
  {
  }

  // ------------------------------------------------------------ positional and scientific layout

  function Zeros(k: nat): (r: string)
    ensures |r| == k && AllDigits(r)
  {
    if k == 0 then "" else Zeros(k - 1) + "0"
  }

  /** The digits with the point after the first `point` of them, filled up with zeros. */
  function Plain(neg: bool, digits: string, point: int): string {
    if point <= 0 then Spell(neg, "0", Some(Zeros(-point) + digits), None)
    else if point >= |digits| then Spell(neg, digits + Zeros(point - |digits|), None, None)
    else Spell(neg, digits[..point], Some(digits[point..]), None)
  }

  function Scientific(neg: bool, digits: string, exponent: int): string
    requires digits != ""
  {
    Spell(neg, digits[..1], if |digits| == 1 then None else Some(digits[1..]), Some(PlusText(exponent)))
  }

  lemma {:induction false} NatOfAppendZeros(d: string, k: nat)
    requires AllDigits(d)
    ensures NatOf(d + Zeros(k)) == NatOf(d) * Ten(k)
    decreases k
  {
    if k == 0 {
      assert d + Zeros(k) == d;
    } else {
      var z := d + Zeros(k);
      assert z[..|z| - 1] == d + Zeros(k - 1);
      NatOfAppendZeros(d, k - 1);
      assert NatOf(z) == 10 * NatOf(d + Zeros(k - 1));
      TenTimes(NatOf(d), k);
    }
  }

  lemma {:induction false} NatOfPrependZeros(k: nat, d: string)
    requires AllDigits(d)
    ensures NatOf("0" + (Zeros(k) + d)) == NatOf(d)
    decreases k
  {
    if k == 0 {
      assert "0" + (Zeros(k) + d) == "0" + d;
      NatOfLeadingZero(d);
    } else {
      NatOfLeadingZero(d);
      assert "0" + (Zeros(k) + d) == "0" + (Zeros(k - 1) + ("0" + d));
      NatOfPrependZeros(k - 1, "0" + d);
    }
  }

  /** The positional layout denotes the digits times a power of ten. */
  lemma {:induction false} PlainDenotes(neg: bool, digits: string, point: int)
    requires AllDigits(digits) && digits != ""
    ensures Parse(Plain(neg, digits, point)).Some?
    ensures Value(Parse(Plain(neg, digits, point)).value) == Signed(neg, Scaled(NatOf(digits), point - |digits|))
  {
    hide Parse, Spell, Scaled, NatOf, Ten;
    if point <= 0 {
      SpellParses(neg, "0", Some(Zeros(-point) + digits), None);
      NatOfPrependZeros(-point, digits);
    } else if point >= |digits| {
      var k := point - |digits|;
      SpellParses(neg, digits + Zeros(k), None, None);
      assert digits + Zeros(k) + "" == digits + Zeros(k);
      NatOfAppendZeros(digits, k);
      ScaledShift(NatOf(digits), k, 0);
    } else {
      SpellParses(neg, digits[..point], Some(digits[point..]), None);
      assert digits[..point] + digits[point..] == digits;
    }
  }

  /** So does the scientific layout. */
  lemma {:induction false} ScientificDenotes(neg: bool, digits: string, exponent: int)
    requires AllDigits(digits) && digits != ""
    ensures Parse(Scientific(neg, digits, exponent)).Some?
    ensures Value(Parse(Scientific(neg, digits, exponent)).value) ==
      Signed(neg, Scaled(NatOf(digits), exponent + 1 - |digits|))
  {
    hide Parse, Spell, Scaled, NatOf, IntText, PlusText, ParseInt;
    IntRoundTrip(exponent);
    SpellParses(neg, digits[..1], if |digits| == 1 then None else Some(digits[1..]), Some(PlusText(exponent)));
    assert digits[..1] + digits[1..] == digits;
  }

  // ------------------------------------------------------------ the bounded normal forms of the Rust port

  const MAX_I32: int := 0x7fff_ffff
  const MAX_I64: int := 0x7fff_ffff_ffff_ffff

  predicate Within(i: int, max: int) {
    -max - 1 <= i <= max
  }

  /** A length cast to a 32-bit signed integer. */
  function AsI32(n: nat): int {
    var low := n % 0x1_0000_0000;
    if low <= MAX_I32 then low else low - 0x1_0000_0000
  }

  /** Normalise with checked arithmetic on the power; `length` is the fraction's length as the port sees it. */
  function Reduced(p: Parts, length: int, max: int): Option<Normal> {
    var digits, power := Significant(p), p.exponent - length;
    var reduced := DropTrailing(digits);
    if !Within(p.exponent, max) then None
    else if digits == "" then Some(Normal(false, "", 0))
    else if Within(power, max) && Within(power + |digits| - |reduced|, max)
    then Some(Normal(p.neg, reduced, power + |digits| - |reduced|))
    else None
  }

  function NormalText(n: Normal): string {
    if n.digits == "" then "0" else Spell(n.neg, n.digits, None, Some(IntText(n.power)))
  }

  /** What `decimal_canonical` returns. */
  function CanonicalDecimal(value: string): Option<string> {
    var p := Parse(Trim(value));
    if p.None? then None
    else
      var n := Reduced(p.value, AsI32(|p.value.fraction|), MAX_I32);
      if n.None? then None else Some(NormalText(n.value))
  }

  /** What `decimal_equal` compares. */
  function Comparable(value: string): Option<Normal> {
    var p := Parse(Trim(value));
    if p.None? || p.value.whole + p.value.fraction == "" then None
    else Reduced(p.value, |p.value.fraction|, MAX_I64)
  }

  predicate DecimalEqual(left: string, right: string) {
    Comparable(left).Some? && Comparable(left) == Comparable(right)
  }

  /** The rational a text denotes, when it is a numeral. */
  function Denoted(value: string): Option<real> {
    var p := Parse(Trim(value));
    if p.Some? then Some(Value(p.value)) else None
  }

  method TrimLeading(all: string) returns (digits: string)
    ensures digits == DropLeading(all)
  {
    digits := all;
    while digits != "" && digits[0] == '0'
      invariant DropLeading(digits) == DropLeading(all)
      decreases |digits|
    {
      digits := digits[1..];
    }
  }

  /** Trailing zeros go into the power, which must not overflow. */
  method TrimTrailing(all: string, start: int, max: int) returns (digits: string, power: int, ok: bool)
    requires Within(start, max)
    ensures ok <==> start + |all| - |DropTrailing(all)| <= max
    ensures ok ==> digits == DropTrailing(all) && power == start + |all| - |digits|
  {
    digits, power, ok := all, start, true;
    while digits != "" && digits[|digits| - 1] == '0'
      invariant DropTrailing(digits) == DropTrailing(all) && |digits| <= |all|
      invariant power == start + |all| - |digits| <= max
      decreases |digits|
    {
      digits := digits[..|digits| - 1];
      if power == max { return digits, power, false; }
      power := power + 1;
    }
  }

  /** The digit loops of `decimal_canonical`, on the numeral taken apart. */
  method ReduceInPlace(p: Parts, length: int, max: int) returns (r: Option<Normal>)
    requires max >= 0
    ensures r == Reduced(p, length, max)
  {
    hide DropLeading, DropTrailing;
    if !Within(p.exponent, max) { return None; }
    var digits := TrimLeading(p.whole + p.fraction);
    if digits == "" { return Some(Normal(false, "", 0)); }
    if !Within(p.exponent - length, max) { return None; }
    var reduced, power, ok := TrimTrailing(digits, p.exponent - length, max);
    return if ok then Some(Normal(p.neg, reduced, power)) else None;
  }

  /** The power as written, after the point is taken out and after trailing zeros are dropped stays within a word. */
  predicate PowersFit(p: Parts, max: int) {
    Within(p.exponent, max) &&
    (NormalOf(p).digits == "" || (Within(p.exponent - |p.fraction|, max) && Within(NormalOf(p).power, max)))
  }

  /** A numeral with at least one digit whose powers fit 64 bits. */
  predicate FitsWord(text: string) {
    var p := Parse(Trim(text));
    p.Some? && p.value.whole + p.value.fraction != "" && PowersFit(p.value, MAX_I64)
  }

  /** Checked arithmetic succeeds exactly when the powers fit, and then yields the normal form. */
  lemma {:induction false} ReducedIff(p: Parts, max: int)
    requires Proper(p)
    ensures Reduced(p, |p.fraction|, max) == if PowersFit(p, max) then Some(NormalOf(p)) else None
  {
    hide DropLeading, DropTrailing;
    if Significant(p) != "" { StillPositive(Significant(p)); }
  }

  /** The printed normal form reads back as the same rational. */
  lemma {:induction false} NormalTextDenotes(n: Normal)
    requires IsNormal(n)
    ensures Parse(NormalText(n)).Some?
    ensures Value(Parse(NormalText(n)).value) == Signed(n.neg, NormalMagnitude(n))
  {
    hide Parse, Spell, Scaled, NatOf, IntText, ParseInt;
    if n.digits == "" {
      ZeroDenotes();
      NatOfNothing();
      ScaledCancels(NatOf(""), 0, n.power);
    } else {
      IntRoundTrip(n.power);
      SpellParses(n.neg, n.digits, None, Some(IntText(n.power)));
      assert n.digits + "" == n.digits;
    }
  }

  lemma {:induction false} ZeroDenotes()
    ensures Parse("0").Some? && Value(Parse("0").value) == 0.0
  {
    hide Parse, Spell, Scaled;
    assert Spell(false, "0", None, None) == "0" by { SpelledZero(); }
    SpellParses(false, "0", None, None);
    assert "0" + "" == "0";
    NatOfLeadingZero("");
    ScaledCancels(NatOf("0"), 0, 0);
  }

  lemma {:induction false} SpelledZero()
    ensures Spell(false, "0", None, None) == "0"
  {
  }

  /** Same text exactly for the same rational. */
  lemma {:induction false} NormalTextsAgree(m: Normal, n: Normal)
    requires IsNormal(m) && IsNormal(n)
    ensures NormalText(m) == NormalText(n) <==> m == n
  {
    hide NormalText, Parse, NormalMagnitude;
    NormalTextDenotes(m);
    NormalTextDenotes(n);
    NormalsAgree(m, n);
  }

  lemma {:induction false} CastIff(n: nat)
    ensures AsI32(n) == n <==> n <= MAX_I32
  {
  }

  /** Reduced with a length that may be wrong: only the power can go wrong with it. */
  lemma {:induction false} ReducedShift(p: Parts, length: int, max: int)
    requires Proper(p) && Reduced(p, length, max).Some?
    ensures var m := NormalOf(p);
      Reduced(p, length, max) ==
        Some(if m.digits == "" then m else m.(power := m.power + |p.fraction| - length))
  {
    hide DropLeading, DropTrailing;
    if Significant(p) != "" { StillPositive(Significant(p)); }
  }

  /** A numeral whose fraction is shorter than 2^31 digits, or that is zero. */
  predicate ShortFraction(value: string) {
    var p := Parse(Trim(value));
    p.Some? && (|p.value.fraction| <= MAX_I32 || NormalOf(p.value).digits == "")
  }

  /** The text `decimal_canonical` returns denotes the rational it was given, exactly when the cast of the fraction's
      length to 32 bits did no harm. */
  lemma {:induction false} CanonicalKeepsValue(value: string)
    requires CanonicalDecimal(value).Some?
    ensures Parse(CanonicalDecimal(value).value).Some?
    ensures Denoted(value) == Some(Value(Parse(CanonicalDecimal(value).value).value)) <==> ShortFraction(value)
  {
    hide Trim, NormalText, NormalOf, Reduced, Value, Parse, AsI32, NormalMagnitude;
    var p := Parse(Trim(value)).value;
    var length := AsI32(|p.fraction|);
    CastIff(|p.fraction|);
    ReducedShift(p, length, MAX_I32);
    NormalKeepsValue(p);
    var m, n := NormalOf(p), Reduced(p, length, MAX_I32).value;
    NormalTextDenotes(n);
    NormalsAgree(m, n);
  }

  lemma {:induction false} ZerosDropped(s: string, rest: string)
    requires (forall i :: 0 <= i < |s| ==> s[i] == '0') && rest != "" && rest[0] != '0'
    ensures DropLeading(s + rest) == rest
    decreases |s|
  {
    if s == "" {
      assert s + rest == rest;
    } else {
      assert (s + rest)[1..] == s[1..] + rest;
      ZerosDropped(s[1..], rest);
    }
  }

  lemma {:induction false} ZerosAreZeros(k: nat)
    ensures forall i :: 0 <= i < k ==> Zeros(k)[i] == '0'
    decreases k
  {
    if k > 0 { ZerosAreZeros(k - 1); }
  }

  lemma {:induction false} LastKept(d: string)
    requires d != "" && d[|d| - 1] != '0'
    ensures DropTrailing(d) == d
  {
  }

  lemma {:induction false} DigitAfterZeros(k: nat, d: string)
    requires |d| == 1 && AllDigits(d) && d[0] != '0'
    ensures var p := Parts(false, "0", Zeros(k) + d, 0);
      Proper(p) && Significant(p) == d && DropTrailing(d) == d && NormalOf(p) == Normal(false, d, -(k + 1))
  {
    ZerosAreZeros(k);
    hide Zeros, DropLeading, DropTrailing;
    LastKept(d);
    ZerosDropped("0" + Zeros(k), d);
    assert "0" + (Zeros(k) + d) == "0" + Zeros(k) + d;
  }

  lemma {:induction false} SpelledIsTrimmed(whole: string, fraction: string)
    requires whole != "" && fraction != "" && AllDigits(whole) && AllDigits(fraction)
    ensures Trim(Spell(false, whole, Some(fraction), None)) == Spell(false, whole, Some(fraction), None)
  {
    hide Trim;
    var text := Spell(false, whole, Some(fraction), None);
    assert text == whole + "." + fraction;
    FirstIsDigit(whole);
    assert IsDigit(fraction[|fraction| - 1]);
    assert text[0] == whole[0] && text[|text| - 1] == fraction[|fraction| - 1];
    TrimOfTrimmed(text);
  }

  lemma {:induction false} LongIsAccepted(p: Parts, d: string)
    requires |p.fraction| == 0x1_0000_0000 && p.exponent == 0
    requires Significant(p) == d && d != "" && DropTrailing(d) == d
    ensures Reduced(p, AsI32(|p.fraction|), MAX_I32).Some?
  {
    hide Significant, DropTrailing;
  }

  /** With 2^32 digits behind the point the cast length is zero, and a tiny numeral is taken for one. */
  lemma {:induction false} LongFractionIsMisread() returns (text: string)
    ensures CanonicalDecimal(text).Some? && Parse(CanonicalDecimal(text).value).Some?
    ensures Denoted(text) != Some(Value(Parse(CanonicalDecimal(text).value).value))
  {
    hide Parse, Zeros, Value, NormalText, Trim, Significant, DropTrailing, Spell, AsI32, Reduced, NormalOf;
    var k, d := 0x1_0000_0000 - 1, ['1'];
    var p := Parts(false, "0", Zeros(k) + d, 0);
    text := Spell(false, "0", Some(p.fraction), None);
    DigitAfterZeros(k, d);
    SpellParses(false, "0", Some(p.fraction), None);
    SpelledIsTrimmed("0", p.fraction);
    LongIsAccepted(p, d);
    CanonicalKeepsValue(text);
  }

  /** `decimal_canonical` decides numeric equality: two accepted numerals get the same text exactly when they denote
      the same rational. */
  lemma {:induction false} CanonicalDecimalDecides(a: string, b: string)
    requires CanonicalDecimal(a).Some? && CanonicalDecimal(b).Some? && ShortFraction(a) && ShortFraction(b)
    ensures CanonicalDecimal(a) == CanonicalDecimal(b) <==> Denoted(a) == Denoted(b)
  {
    hide Trim, NormalText, NormalOf, Reduced, Value, Parse, AsI32;
    var p, q := Parse(Trim(a)).value, Parse(Trim(b)).value;
    CastIff(|p.fraction|);
    CastIff(|q.fraction|);
    ReducedShift(p, AsI32(|p.fraction|), MAX_I32);
    ReducedShift(q, AsI32(|q.fraction|), MAX_I32);
    NormalKeepsValue(p);
    NormalKeepsValue(q);
    NormalTextsAgree(NormalOf(p), NormalOf(q));
    NormalDecides(p, q);
  }

  /** `decimal_equal` holds exactly when both sides are numerals whose powers fit 64 bits, and denote the same
      rational. */
  lemma {:induction false} DecimalEqualDecides(a: string, b: string)
    ensures DecimalEqual(a, b) <==> FitsWord(a) && FitsWord(b) && Denoted(a) == Denoted(b)
  {
    hide Trim, NormalOf, Reduced, Value, Parse, PowersFit;
    var p, q := Parse(Trim(a)), Parse(Trim(b));
    if p.Some? { ReducedIff(p.value, MAX_I64); }
    if q.Some? { ReducedIff(q.value, MAX_I64); }
    if p.Some? && q.Some? { NormalDecides(p.value, q.value); }
  }

  /** The bound matters: this numeral is not even equal to itself, because dropping its zero overflows the power. */
  lemma {:induction false} OverflowIsUnequal() returns (text: string)
    ensures Denoted(text).Some? && !DecimalEqual(text, text)
  {
    hide Parse, ParseInt, NatText;
    var power := IntText(MAX_I64);
    IntRoundTrip(MAX_I64);
    text := Spell(false, "10", None, Some(power));
    SpellParses(false, "10", None, Some(power));
    assert !IsSpace(text[0]) && text[|text| - 1] == power[|power| - 1] && IsDigit(power[|power| - 1]);
    TrimOfTrimmed(text);
    TenReduced();
  }

  lemma {:induction false} TenReduced()
    ensures Reduced(Parts(false, "10", "", MAX_I64), 0, MAX_I64) == None
  {
    assert "10" + "" == "10";
    assert DropLeading("10") == "10";
    assert "10"[..1] == "1";
    assert DropTrailing("10") == "1";
  }

  // ------------------------------------------------------------ the positional normal form of the Go port

  const GO_EXPONENT_LIMIT: int := 10000

  function GoText(n: Normal): string {
    if n.digits == "" then "0" else Plain(n.neg, n.digits, n.power + |n.digits|)
  }

  /** Trailing zeros are dropped while they stand behind the point. */
  method DropZeros(all: string, start: int) returns (digits: string, scale: int)
    requires all != "" && all[0] != '0'
    ensures digits <= all && digits != "" && scale - |digits| == start - |all|
    ensures if start <= 0 then digits == all else scale >= 0
    ensures DropTrailing(digits) == DropTrailing(all) && (scale > 0 ==> digits == DropTrailing(all))
  {
    digits, scale := all, start;
    while scale > 0 && digits != "" && digits[|digits| - 1] == '0'
      invariant DropTrailing(digits) == DropTrailing(all) && digits <= all
      invariant scale - |digits| == start - |all|
      invariant if start <= 0 then digits == all else scale >= 0
      decreases |digits|
    {
      digits, scale := digits[..|digits| - 1], scale - 1;
    }
    StillPositive(all);
    assert digits != "";
  }

  /** Zeros are appended until the point stands behind the last digit. */
  method AddZeros(start: string, from: int) returns (digits: string)
    ensures digits == start + Zeros(if from < 0 then -from else 0)
  {
    digits := start;
    var scale := from;
    while scale < 0
      invariant scale <= 0 || scale == from
      invariant digits == start + Zeros(if from < 0 then scale - from else 0)
      decreases -scale
    {
      digits, scale := digits + "0", scale + 1;
    }
  }

  /** Rewriting a numeral to plain positional digits, step by step as the Go port does. */
  method ExactDecimal(p: Parts) returns (r: Option<string>)
    requires Proper(p)
    ensures r.Some? <==> -GO_EXPONENT_LIMIT <= p.exponent <= GO_EXPONENT_LIMIT
    ensures r.Some? ==> r.value == GoText(NormalOf(p))
  {
    hide Spell, Zeros, DropTrailing, DropLeading, Laid, Plain;
    if p.exponent > GO_EXPONENT_LIMIT || p.exponent < -GO_EXPONENT_LIMIT { return None; }
    var all := TrimLeading(p.whole + p.fraction);
    if all == "" { return Some("0"); }
    var reduced, scale := DropZeros(all, |p.fraction| - p.exponent);
    var digits := AddZeros(reduced, scale);
    var text := Layout(p.neg, digits, scale);
    LayoutIsPlain(p.neg, all, |p.fraction| - p.exponent, reduced, scale, digits);
    StillPositive(all);
    r := Some(text);
  }

  method Layout(neg: bool, digits: string, scale: int) returns (r: string)
    ensures r == Laid(neg, digits, scale)
  {
    if scale <= 0 { return Spell(neg, digits, None, None); }
    if scale >= |digits| { return Spell(neg, "0", Some(Zeros(scale - |digits|) + digits), None); }
    return Spell(neg, digits[..|digits| - scale], Some(digits[|digits| - scale..]), None);
  }

  function Laid(neg: bool, digits: string, scale: int): string {
    if scale <= 0 then Spell(neg, digits, None, None) else Plain(neg, digits, |digits| - scale)
  }

  /** However many zeros were dropped and added, the layout is that of the reduced digits. */
  lemma {:induction false} LayoutIsPlain(neg: bool, all: string, start: int, reduced: string, scale: int, digits: string)
    requires all != "" && all[0] != '0'
    requires scale - |reduced| == start - |all|
    requires DropTrailing(reduced) == DropTrailing(all) && (scale > 0 ==> reduced == DropTrailing(all))
    requires digits == reduced + Zeros(if scale < 0 then -scale else 0)
    ensures Laid(neg, digits, scale) == Plain(neg, DropTrailing(all), |all| - start)
  {
    hide Spell, Zeros, DropTrailing;
    StillPositive(all);
    TrailingZeros(reduced);
    NoZeros(reduced);
    var d := DropTrailing(all);
    if scale <= 0 { ZerosJoin(d, |reduced| - |d|, -scale); }
  }

  lemma {:induction false} NoZeros(d: string)
    ensures d + Zeros(0) == d
  {
  }

  lemma {:induction false} ZerosJoin(d: string, j: nat, k: nat)
    ensures d + Zeros(j) + Zeros(k) == d + Zeros(j + k)
    decreases k
  {
    if k == 0 {
      NoZeros(d + Zeros(j));
    } else {
      ZerosJoin(d, j, k - 1);
      assert d + Zeros(j) + Zeros(k) == d + Zeros(j) + Zeros(k - 1) + "0";
      assert d + Zeros(j + k) == d + Zeros(j + k - 1) + "0";
    }
  }

  lemma {:induction false} TrailingZeros(d: string)
    ensures d == DropTrailing(d) + Zeros(|d| - |DropTrailing(d)|)
    decreases |d|
  {
    if d != "" && d[|d| - 1] == '0' {
      TrailingZeros(d[..|d| - 1]);
    }
  }

  /** The Go normal form decides numeric equality too, so it agrees with the Rust one. */
  lemma {:induction false} GoTextDecides(p: Parts, q: Parts)
    requires Proper(p) && Proper(q)
    ensures GoText(NormalOf(p)) == GoText(NormalOf(q)) <==> Value(p) == Value(q)
    ensures GoText(NormalOf(p)) == GoText(NormalOf(q)) <==> NormalText(NormalOf(p)) == NormalText(NormalOf(q))
  {
    hide GoText, NormalText, NormalOf, Value, NormalMagnitude, Parse;
    NormalKeepsValue(p);
    NormalKeepsValue(q);
    NormalTextsAgree(NormalOf(p), NormalOf(q));
    NormalDecides(p, q);
    GoTextDenotes(NormalOf(p));
    GoTextDenotes(NormalOf(q));
  }

  lemma {:induction false} GoTextDenotes(n: Normal)
    requires IsNormal(n)
    ensures Parse(GoText(n)).Some?
    ensures Value(Parse(GoText(n)).value) == Signed(n.neg, NormalMagnitude(n))
  {
    hide Parse, Plain, Scaled, NatOf;
    if n.digits == "" {
      ZeroDenotes();
      NatOfNothing();
      ScaledCancels(NatOf(""), 0, n.power);
    } else {
      PlainDenotes(n.neg, n.digits, n.power + |n.digits|);
    }
  }
}
