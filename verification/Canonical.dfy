/** JSON values as the Rust port holds them. */
module Json {
  import opened Options
  import opened Text
  import opened Decimal
  import opened Numerals

  /** A number as it is printed, and whether it is stored as an integer. */
  datatype Number = Number(parts: Parts, integral: bool)
  datatype Member = Member(key: string, value: Value)
  datatype Value =
    | Null
    | Bool(flag: bool)
    | Num(number: Number)
    | Str(text: string)
    | Arr(items: seq<Value>)
    | Obj(members: seq<Member>)

  predicate GoodNumber(n: Number) {
    Proper(n.parts) && n.parts.whole != ""
  }

  predicate DistinctKeys(members: seq<Member>) {
    forall i, j :: 0 <= i < j < |members| ==> members[i].key != members[j].key
  }

  /** Well-formed: digits where digits belong, and no key twice in an object. */
  predicate Good(v: Value) {
    match v
    case Num(n) => GoodNumber(n)
    case Arr(items) => forall i :: 0 <= i < |items| ==> Good(items[i])
    case Obj(members) => DistinctKeys(members) && forall i :: 0 <= i < |members| ==> Good(members[i].value)
    case _ => true
  }

  /** Equal as JSON: numbers by the rational they denote, objects whatever the order of their members. */
  predicate Same(a: Value, b: Value)
    requires Good(a) && Good(b)
  {
    match a
    case Num(n) => b.Num? && Decimal.Value(n.parts) == Decimal.Value(b.number.parts)
    case Arr(items) =>
      b.Arr? && |items| == |b.items| && forall i :: 0 <= i < |items| ==> Same(items[i], b.items[i])
    case Obj(members) =>
      b.Obj? && |members| == |b.members| &&
      forall i :: 0 <= i < |members| ==> Held(members[i], b.members)
    case _ => a == b
  }

  /** Some member has the same key and value. */
  predicate Held(m: Member, members: seq<Member>)
    requires Good(m.value) && forall j :: 0 <= j < |members| ==> Good(members[j].value)
  {
    exists j :: 0 <= j < |members| && members[j].key == m.key && Same(m.value, members[j].value)
  }
}

/** The order of object keys: UTF-16 code units, as section 3.2.3 of RFC 8785 asks. */
module KeyOrder {
  function Units(c: char): (r: seq<int>)
    ensures 1 <= |r| <= 2
  {
    var n := c as int;
    if n < 0x1_0000 then [n] else [0xd800 + (n - 0x1_0000) / 0x400, 0xdc00 + (n - 0x1_0000) % 0x400]
  }

  function Utf16(s: string): seq<int> {
    if s == "" then [] else Units(s[0]) + Utf16(s[1..])
  }

  predicate Before(a: seq<int>, b: seq<int>)
    decreases |a|
  {
    b != [] && (a == [] || a[0] < b[0] || (a[0] == b[0] && Before(a[1..], b[1..])))
  }

  predicate Less(a: string, b: string) {
    Before(Utf16(a), Utf16(b))
  }

  /** No surrogate is a character, so one character's units never run into the next one's. */
  lemma {:induction false} UnitsApart(a: char, b: char, x: seq<int>, y: seq<int>)
    requires Units(a) + x == Units(b) + y
    ensures a == b && x == y
  {
    var u, v := Units(a) + x, Units(b) + y;
    assert u[0] == Units(a)[0] && v[0] == Units(b)[0];
    if |Units(a)| == 2 && |Units(b)| == 2 { assert u[1] == Units(a)[1] && v[1] == Units(b)[1]; }
    assert x == u[|Units(a)|..] && y == v[|Units(b)|..];
  }

  lemma {:induction false} Utf16Injective(a: string, b: string)
    requires Utf16(a) == Utf16(b)
    ensures a == b
    decreases |a|
  {
    if a != "" && b != "" {
      UnitsApart(a[0], b[0], Utf16(a[1..]), Utf16(b[1..]));
      Utf16Injective(a[1..], b[1..]);
      assert a == [a[0]] + a[1..] && b == [b[0]] + b[1..];
    }
  }

  lemma {:induction false} BeforeTotal(a: seq<int>, b: seq<int>)
    ensures a == b || Before(a, b) || Before(b, a)
    ensures !(Before(a, b) && Before(b, a)) && !Before(a, a)
    decreases |a|
  {
    if a != [] {
      BeforeTotal(a[1..], if b == [] then [] else b[1..]);
      if b != [] && a[0] == b[0] && a[1..] == b[1..] {
        assert a == [a[0]] + a[1..] && b == [b[0]] + b[1..];
      }
    }
  }

  lemma {:induction false} BeforeTransitive(a: seq<int>, b: seq<int>, c: seq<int>)
    requires Before(a, b) && Before(b, c)
    ensures Before(a, c)
    decreases |a|
  {
    if a != [] && a[0] == b[0] == c[0] { BeforeTransitive(a[1..], b[1..], c[1..]); }
  }

  /** The key order is a strict total order. */
  lemma {:induction false} LessIsTotal(a: string, b: string, c: string)
    ensures a == b || Less(a, b) || Less(b, a)
    ensures !Less(a, a) && !(Less(a, b) && Less(b, a))
    ensures Less(a, b) && Less(b, c) ==> Less(a, c)
  {
    hide Before, Utf16;
    BeforeTotal(Utf16(a), Utf16(b));
    BeforeTotal(Utf16(a), Utf16(a));
    if Utf16(a) == Utf16(b) { Utf16Injective(a, b); }
    if Less(a, b) && Less(b, c) { BeforeTransitive(Utf16(a), Utf16(b), Utf16(c)); }
  }

  lemma {:induction false} Utf16Concat(a: string, b: string)
    ensures Utf16(a + b) == Utf16(a) + Utf16(b)
    decreases |a|
  {
    if a == "" {
      assert a + b == b;
    } else {
      assert (a + b)[1..] == a[1..] + b;
      Utf16Concat(a[1..], b);
      assert Units(a[0]) + (Utf16(a[1..]) + Utf16(b)) == Utf16(a) + Utf16(b);
    }
  }

  /** What two sequences begin with in common does not decide their order. */
  lemma {:induction false} BeforeCommon(p: seq<int>, a: seq<int>, b: seq<int>)
    ensures Before(p + a, p + b) <==> Before(a, b)
    decreases |p|
  {
    if p == [] {
      assert p + a == a && p + b == b;
    } else {
      assert (p + a)[1..] == p[1..] + a && (p + b)[1..] == p[1..] + b;
      BeforeCommon(p[1..], a, b);
    }
  }

  /** One character takes two units and the other comes after the surrogates. */
  predicate Crossed(c: char, d: char) {
    (c as int >= 0x1_0000 && 0xe000 <= d as int < 0x1_0000) || (d as int >= 0x1_0000 && 0xe000 <= c as int < 0x1_0000)
  }

  lemma {:induction false} UnitsOrder(c: char, d: char, x: seq<int>, y: seq<int>)
    requires c != d
    ensures Before(Units(c) + x, Units(d) + y) <==> if Crossed(c, d) then d < c else c < d
  {
    var u, v := Units(c) + x, Units(d) + y;
    assert u[0] == Units(c)[0] && v[0] == Units(d)[0];
    if |Units(c)| == 2 && |Units(d)| == 2 && u[0] == v[0] {
      assert u[1..][0] == Units(c)[1] && v[1..][0] == Units(d)[1];
    }
  }

  /** The order is that of code points except where the first difference is between a character of two units and one
      that comes after the surrogates; there it is the other way round. */
  lemma {:induction false} OrderAtDifference(common: string, c: char, d: char, x: string, y: string)
    requires c != d
    ensures Less(common + [c] + x, common + [d] + y) <==> if Crossed(c, d) then d < c else c < d
  {
    hide Before, Units, Crossed;
    Tail(common, c, x);
    Tail(common, d, y);
    BeforeCommon(Utf16(common), Units(c) + Utf16(x), Units(d) + Utf16(y));
    UnitsOrder(c, d, Utf16(x), Utf16(y));
  }

  lemma {:induction false} Tail(common: string, c: char, x: string)
    ensures Utf16(common + [c] + x) == Utf16(common) + (Units(c) + Utf16(x))
  {
    hide Units;
    assert common + [c] + x == common + ([c] + x) && ([c] + x)[1..] == x;
    Utf16Concat(common, [c] + x);
  }
}
