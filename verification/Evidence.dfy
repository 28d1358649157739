/** Matching a tool result against the evidence a workflow phase asks for. */
module Evidence {
  import opened Options
  import opened Text
  import opened Decimal
  import opened Numerals
  import opened Json

  // ------------------------------------------------------------ numbers as printed

  function Printed(p: Parts): string {
    Spell(p.neg, p.whole, if p.fraction == "" then None else Some(p.fraction),
          if p.exponent == 0 then None else Some(IntText(p.exponent)))
  }

  /** Stored numbers are 64-bit integers or floats, so they are printed with few digits and a small power. */
  predicate Sized(p: Parts) {
    |p.whole| <= 400 && |p.fraction| <= 400 && -400 <= p.exponent <= 400
  }

  /** Well-formed, with stored numbers only. */
  predicate Stored(v: Value) {
    match v
    case Num(n) => GoodNumber(n) && Sized(n.parts)
    case Arr(items) => forall i :: 0 <= i < |items| ==> Stored(items[i])
    case Obj(members) => DistinctKeys(members) && forall i :: 0 <= i < |members| ==> Stored(members[i].value)
    case _ => true
  }

  /** A value as it is held at run time. */
  type Data = v: Value | Stored(v) witness Null

  lemma {:induction false} StoredIsGood(v: Value)
    requires Stored(v)
    ensures Good(v)
    decreases v
  {
    match v {
      case Arr(items) => forall i | 0 <= i < |items| ensures Good(items[i]) { StoredIsGood(items[i]); }
      case Obj(members) =>
        forall i | 0 <= i < |members| ensures Good(members[i].value) { StoredIsGood(members[i].value); }
      case _ => {}
    }
  }

  /** Not empty, and a digit at the end. */
  predicate EndsInDigit(s: string) {
    s != "" && IsDigit(s[|s| - 1])
  }

  lemma {:induction false} EndKept(a: string, b: string)
    requires if b == "" then EndsInDigit(a) else EndsInDigit(b)
    ensures EndsInDigit(a + b)
  {
    if b == "" {
      assert a + b == a;
    } else {
      assert (a + b)[|a + b| - 1] == b[|b| - 1];
    }
  }

  lemma {:induction false} SpelledEnds(neg: bool, whole: string, fraction: Option<string>, power: Option<string>)
    requires whole != "" && AllDigits(whole)
    requires fraction.Some? ==> fraction.value != "" && AllDigits(fraction.value)
    requires power.Some? ==> EndsInDigit(power.value)
    ensures EndsInDigit(Spell(neg, whole, fraction, power))
    ensures !IsSpace(Spell(neg, whole, fraction, power)[0])
  {
    assert power.Some? ==> power.value != "";
    hide AllDigits, EndsInDigit;
    var sign := if neg then "-" else "";
    assert EndsInDigit(whole) && IsDigit(whole[0]) by { DigitsEnd(whole); }
    if fraction.Some? {
      DigitsEnd(fraction.value);
      EndKept(".", fraction.value);
    }
    EndKept(whole, PointText(fraction));
    EndKept(sign, whole + PointText(fraction));
    if power.Some? { EndKept("e", power.value); }
    EndKept(sign + (whole + PointText(fraction)), PowerText(power));
    assert Spell(neg, whole, fraction, power)[0] == if neg then '-' else whole[0];
  }

  lemma {:induction false} DigitsEnd(s: string)
    requires AllDigits(s) && s != ""
    ensures EndsInDigit(s) && IsDigit(s[0])
  {
  }

  lemma {:induction false} IntEnds(i: int)
    ensures EndsInDigit(IntText(i))
  {
    hide NatText;
    DigitsEnd(NatText(if i < 0 then -i else i));
    EndKept("-", NatText(if i < 0 then -i else i));
  }

  lemma {:induction false} PrintedTrimmed(p: Parts)
    requires Proper(p) && p.whole != ""
    ensures Trim(Printed(p)) == Printed(p)
  {
    hide Spell, IntText;
    IntEnds(p.exponent);
    SpelledEnds(p.neg, p.whole, if p.fraction == "" then None else Some(p.fraction),
                if p.exponent == 0 then None else Some(IntText(p.exponent)));
    TrimOfTrimmed(Printed(p));
  }

  lemma {:induction false} PrintedParses(p: Parts)
    requires Proper(p) && p.whole != ""
    ensures Parse(Printed(p)) == Some(p)
  {
    hide Parse, ParseInt, Spell, IntText, PlusText;
    IntRoundTrip(p.exponent);
    SpellParses(p.neg, p.whole, if p.fraction == "" then None else Some(p.fraction),
                if p.exponent == 0 then None else Some(IntText(p.exponent)));
  }

  /** Two stored numbers compare equal exactly when they denote the same rational. */
  lemma {:induction false} NumbersCompare(m: Parts, n: Parts)
    requires Proper(m) && Proper(n) && m.whole != "" && n.whole != "" && Sized(m) && Sized(n)
    ensures DecimalEqual(Printed(m), Printed(n)) <==> Decimal.Value(m) == Decimal.Value(n)
  {
    hide FitsWord, Printed, Sized, Proper;
    StoredFits(m);
    StoredFits(n);
    DecimalEqualDecides(Printed(m), Printed(n));
  }

  /** The text of a stored number denotes it and is within the bounds of `decimal_equal`. */
  lemma {:induction false} StoredFits(p: Parts)
    requires Proper(p) && p.whole != "" && Sized(p)
    ensures FitsWord(Printed(p)) && Denoted(Printed(p)) == Some(Decimal.Value(p))
  {
    hide Parse, Trim, Printed, Decimal.Value, DropLeading, DropTrailing, AllDigits;
    PrintedTrimmed(p);
    PrintedParses(p);
  }

  // ------------------------------------------------------------ typed_equal and contains

  predicate TypedEqual(a: Value, b: Value) {
    match a
    case Num(n) => b.Num? && DecimalEqual(Printed(n.parts), Printed(b.number.parts))
    case Arr(items) =>
      b.Arr? && |items| == |b.items| && forall i :: 0 <= i < |items| ==> TypedEqual(items[i], b.items[i])
    case Obj(members) =>
      b.Obj? && |members| == |b.members| && forall i :: 0 <= i < |members| ==> EqualUnder(members[i], b.members)
    case _ => a == b
  }

  /** The member under the same key has an equal value. */
  predicate EqualUnder(m: Member, others: seq<Member>) {
    exists j :: 0 <= j < |others| && others[j].key == m.key && TypedEqual(m.value, others[j].value)
  }

  /** `a` has everything `b` asks for. */
  predicate Contains(a: Value, b: Value)
    decreases b, 0
  {
    match b
    case Obj(members) => a.Obj? && forall i :: 0 <= i < |members| ==> HasMember(a.members, members[i])
    case Arr(items) => a.Arr? && forall i :: 0 <= i < |items| ==> HasItem(a.items, items[i])
    case _ => TypedEqual(a, b)
  }

  predicate HasMember(members: seq<Member>, wanted: Member)
    decreases wanted, 1
  {
    exists j :: 0 <= j < |members| && members[j].key == wanted.key && Contains(members[j].value, wanted.value)
  }

  predicate HasItem(items: seq<Value>, wanted: Value)
    decreases wanted, 1
  {
    exists j :: 0 <= j < |items| && Contains(items[j], wanted)
  }

  // ------------------------------------------------------------ typed_equal is equality of JSON

  /** The runtime's equality and the equality behind canonical texts are the same relation. */
  lemma {:induction false} TypedEqualIsSame(a: Value, b: Value)
    requires Stored(a) && Stored(b) && Good(a) && Good(b)
    ensures TypedEqual(a, b) <==> Same(a, b)
    decreases a
  {
    match a {
      case Num(n) => if b.Num? { NumbersCompare(n.parts, b.number.parts); }
      case Arr(items) =>
        if b.Arr? && |items| == |b.items| {
          forall i | 0 <= i < |items| ensures TypedEqual(items[i], b.items[i]) <==> Same(items[i], b.items[i]) {
            TypedEqualIsSame(items[i], b.items[i]);
          }
        }
      case Obj(members) =>
        if b.Obj? {
          forall i | 0 <= i < |members| ensures EqualUnder(members[i], b.members) <==> Held(members[i], b.members) {
            forall j | 0 <= j < |b.members|
              ensures TypedEqual(members[i].value, b.members[j].value) <==> Same(members[i].value, b.members[j].value)
            {
              TypedEqualIsSame(members[i].value, b.members[j].value);
            }
          }
        }
      case _ => {}
    }
  }

  lemma {:induction false} SameReflexive(a: Value)
    requires Good(a)
    ensures Same(a, a)
    decreases a
  {
    match a {
      case Arr(items) => forall i | 0 <= i < |items| ensures Same(items[i], items[i]) { SameReflexive(items[i]); }
      case Obj(members) =>
        forall i | 0 <= i < |members| ensures Held(members[i], members) { SameReflexive(members[i].value); }
      case _ => {}
    }
  }

  lemma {:induction false} SameTransitive(a: Value, b: Value, c: Value)
    requires Good(a) && Good(b) && Good(c) && Same(a, b) && Same(b, c)
    ensures Same(a, c)
    decreases a
  {
    match a {
      case Arr(items) =>
        forall i | 0 <= i < |items| ensures Same(items[i], c.items[i]) {
          SameTransitive(items[i], b.items[i], c.items[i]);
        }
      case Obj(members) =>
        forall i | 0 <= i < |members| ensures Held(members[i], c.members) {
          assert Held(members[i], b.members);
          var j :| 0 <= j < |b.members| && b.members[j].key == members[i].key &&
                   Same(members[i].value, b.members[j].value);
          assert Held(b.members[j], c.members);
          var k :| 0 <= k < |c.members| && c.members[k].key == b.members[j].key &&
                   Same(b.members[j].value, c.members[k].value);
          SameTransitive(members[i].value, b.members[j].value, c.members[k].value);
        }
      case _ => {}
    }
  }

  function Keys(members: seq<Member>): (r: set<string>)
    ensures forall i :: 0 <= i < |members| ==> members[i].key in r
    ensures forall k :: k in r ==> exists i :: 0 <= i < |members| && members[i].key == k
  {
    if members == [] then {} else {members[0].key} + Keys(members[1..])
  }

  lemma {:induction false} KeysCount(members: seq<Member>)
    requires DistinctKeys(members)
    ensures |Keys(members)| == |members|
    decreases |members|
  {
    if members != [] { KeysCount(members[1..]); }
  }

  /** With as many keys on both sides, every key of one object being found in the other means the converse. */
  lemma {:induction false} KeysBothWays(a: seq<Member>, b: seq<Member>)
    requires DistinctKeys(a) && DistinctKeys(b) && |a| == |b|
    requires forall i | 0 <= i < |a| :: a[i].key in Keys(b)
    ensures forall j | 0 <= j < |b| :: b[j].key in Keys(a)
  {
    KeysCount(a);
    KeysCount(b);
    FullSubset(Keys(a), Keys(b));
  }

  lemma {:induction false} SameSymmetric(a: Value, b: Value)
    requires Good(a) && Good(b) && Same(a, b)
    ensures Same(b, a)
    decreases a
  {
    hide Keys;
    match a {
      case Arr(items) =>
        forall i | 0 <= i < |items| ensures Same(b.items[i], items[i]) { SameSymmetric(items[i], b.items[i]); }
      case Obj(members) =>
        forall i | 0 <= i < |members| ensures members[i].key in Keys(b.members) {
          assert Held(members[i], b.members);
        }
        KeysBothWays(members, b.members);
        forall j | 0 <= j < |b.members| ensures Held(b.members[j], members) {
          assert b.members[j].key in Keys(members);
          var i :| 0 <= i < |members| && members[i].key == b.members[j].key;
          assert Held(members[i], b.members);
          SameSymmetric(members[i].value, b.members[j].value);
        }
      case _ => {}
    }
  }

  /** `typed_equal` is an equivalence on stored values. */
  lemma {:induction false} TypedEqualIsEquivalence(a: Value, b: Value, c: Value)
    requires Stored(a) && Stored(b) && Stored(c)
    ensures TypedEqual(a, a)
    ensures TypedEqual(a, b) <==> TypedEqual(b, a)
    ensures TypedEqual(a, b) && TypedEqual(b, c) ==> TypedEqual(a, c)
  {
    hide Stored, Good, TypedEqual, Same;
    StoredIsGood(a);
    StoredIsGood(b);
    StoredIsGood(c);
    TypedEqualIsSame(a, a);
    TypedEqualIsSame(a, b);
    TypedEqualIsSame(b, a);
    TypedEqualIsSame(b, c);
    TypedEqualIsSame(a, c);
    SameReflexive(a);
    if Same(a, b) { SameSymmetric(a, b); }
    if Same(b, a) { SameSymmetric(b, a); }
    if Same(a, b) && Same(b, c) { SameTransitive(a, b, c); }
  }

  // ------------------------------------------------------------ contains is a preorder

  /** Equal values contain each other. */
  lemma {:induction false} EqualContains(a: Value, b: Value)
    requires Stored(a) && Stored(b) && TypedEqual(a, b)
    ensures Contains(b, a)
    decreases a
  {
    match a {
      case Arr(items) =>
        forall i | 0 <= i < |items| ensures HasItem(b.items, items[i]) { EqualContains(items[i], b.items[i]); }
      case Obj(members) =>
        forall i | 0 <= i < |members| ensures HasMember(b.members, members[i]) {
          assert EqualUnder(members[i], b.members);
          var j :| 0 <= j < |b.members| && b.members[j].key == members[i].key &&
                   TypedEqual(members[i].value, b.members[j].value);
          EqualContains(members[i].value, b.members[j].value);
        }
      case _ => TypedEqualIsEquivalence(a, b, a);
    }
  }

  lemma {:induction false} ContainsTransitive(a: Value, b: Value, c: Value)
    requires Stored(a) && Stored(b) && Stored(c) && Contains(a, b) && Contains(b, c)
    ensures Contains(a, c)
    decreases c
  {
    match c {
      case Arr(items) =>
        forall i | 0 <= i < |items| ensures HasItem(a.items, items[i]) {
          assert HasItem(b.items, items[i]);
          var j :| 0 <= j < |b.items| && Contains(b.items[j], items[i]);
          assert HasItem(a.items, b.items[j]);
          var k :| 0 <= k < |a.items| && Contains(a.items[k], b.items[j]);
          ContainsTransitive(a.items[k], b.items[j], items[i]);
        }
      case Obj(members) =>
        forall i | 0 <= i < |members| ensures HasMember(a.members, members[i]) {
          assert HasMember(b.members, members[i]);
          var j :| 0 <= j < |b.members| && b.members[j].key == members[i].key &&
                   Contains(b.members[j].value, members[i].value);
          assert HasMember(a.members, b.members[j]);
          var k :| 0 <= k < |a.members| && a.members[k].key == b.members[j].key &&
                   Contains(a.members[k].value, b.members[j].value);
          ContainsTransitive(a.members[k].value, b.members[j].value, members[i].value);
        }
      case _ => TypedEqualIsEquivalence(a, b, c);
    }
  }

  /** Containing evidence is a preorder, and equal values are interchangeable on either side of it. */
  lemma {:induction false} ContainsIsPreorder(a: Value, b: Value, c: Value)
    requires Stored(a) && Stored(b) && Stored(c)
    ensures Contains(a, a)
    ensures Contains(a, b) && Contains(b, c) ==> Contains(a, c)
    ensures TypedEqual(a, b) ==> Contains(a, b) && (Contains(a, c) <==> Contains(b, c)) && (Contains(c, a) <==> Contains(c, b))
  {
    hide Stored, Contains, TypedEqual;
    TypedEqualIsEquivalence(a, b, c);
    EqualContains(a, a);
    if Contains(a, b) && Contains(b, c) { ContainsTransitive(a, b, c); }
    if TypedEqual(a, b) {
      EqualContains(a, b);
      EqualContains(b, a);
      if Contains(a, c) { ContainsTransitive(b, a, c); }
      if Contains(b, c) { ContainsTransitive(a, b, c); }
      if Contains(c, a) { ContainsTransitive(c, a, b); }
      if Contains(c, b) { ContainsTransitive(c, b, a); }
    }
  }

  // ------------------------------------------------------------ what containing means, place by place

  /** One step down into a value: to the member under a key, or to some element. */
  datatype Step = Under(key: string) | Within

  /** `place` is found by going down the path. */
  predicate Reaches(v: Value, path: seq<Step>, place: Value)
    decreases |path|
  {
    if path == [] then v == place
    else
      match path[0]
      case Under(key) =>
        v.Obj? && exists j :: 0 <= j < |v.members| && v.members[j].key == key && Reaches(v.members[j].value, path[1..], place)
      case Within => v.Arr? && exists j :: 0 <= j < |v.items| && Reaches(v.items[j], path[1..], place)
  }

  /** Of the same type and, for anything but objects and arrays, of the same value. */
  predicate Agrees(found: Value, wanted: Value) {
    match wanted
    case Null => found == Null
    case Bool(flag) => found == Bool(flag)
    case Num(n) =>
      found.Num? && GoodNumber(found.number) && GoodNumber(n) &&
      Decimal.Value(found.number.parts) == Decimal.Value(n.parts)
    case Str(text) => found == Str(text)
    case Arr(_) => found.Arr?
    case Obj(_) => found.Obj?
  }

  ghost predicate FoundAt(a: Value, path: seq<Step>, wanted: Value) {
    exists found :: Reaches(a, path, found) && Agrees(found, wanted)
  }

  /** Everything `b` holds anywhere is found in `a` along the same path. */
  ghost predicate Covers(a: Value, b: Value) {
    forall path, wanted | Reaches(b, path, wanted) :: FoundAt(a, path, wanted)
  }

  /** Values of which one contains the other agree at the top. */
  lemma {:induction false} ContainsAgrees(a: Value, b: Value)
    requires Stored(a) && Stored(b) && Contains(a, b)
    ensures Agrees(a, b)
  {
    if b.Num? { NumbersCompare(a.number.parts, b.number.parts); }
  }

  lemma {:induction false} FoundBelow(a: Value, step: Step, path: seq<Step>, wanted: Value, below: Value)
    requires FoundAt(below, path, wanted)
    requires match step
      case Under(key) => a.Obj? && exists j :: 0 <= j < |a.members| && a.members[j] == Member(key, below)
      case Within => a.Arr? && below in a.items
    ensures FoundAt(a, [step] + path, wanted)
  {
    var found :| Reaches(below, path, found) && Agrees(found, wanted);
    assert ([step] + path)[1..] == path;
    assert Reaches(a, [step] + path, found);
  }

  /** Sound: whatever is asked for at some path is there along the same path, of the same type and value. */
  lemma {:induction false} ContainsFinds(a: Value, b: Value, path: seq<Step>, wanted: Value)
    requires Stored(a) && Stored(b) && Contains(a, b) && Reaches(b, path, wanted)
    ensures FoundAt(a, path, wanted)
    decreases |path|
  {
    hide Agrees, FoundAt;
    if path == [] {
      ContainsAgrees(a, b);
      FoundHere(a, wanted);
    } else {
      var rest := path[1..];
      assert path == [path[0]] + rest;
      match path[0] {
        case Under(key) =>
          var i :| 0 <= i < |b.members| && b.members[i].key == key && Reaches(b.members[i].value, rest, wanted);
          assert HasMember(a.members, b.members[i]);
          var j :| 0 <= j < |a.members| && a.members[j].key == key && Contains(a.members[j].value, b.members[i].value);
          ContainsFinds(a.members[j].value, b.members[i].value, rest, wanted);
          FoundBelow(a, path[0], rest, wanted, a.members[j].value);
        case Within =>
          var i :| 0 <= i < |b.items| && Reaches(b.items[i], rest, wanted);
          assert HasItem(a.items, b.items[i]);
          var j :| 0 <= j < |a.items| && Contains(a.items[j], b.items[i]);
          ContainsFinds(a.items[j], b.items[i], rest, wanted);
          FoundBelow(a, path[0], rest, wanted, a.items[j]);
      }
    }
  }

  lemma {:induction false} FoundHere(a: Value, wanted: Value)
    requires Agrees(a, wanted)
    ensures FoundAt(a, [], wanted)
  {
    assert Reaches(a, [], a);
  }

  predicate NoArrays(v: Value) {
    !v.Arr? && (v.Obj? ==> forall i :: 0 <= i < |v.members| ==> NoArrays(v.members[i].value))
  }

  /** Complete, as long as no array is asked for: what is covered is contained. */
  lemma {:induction false} CoversContains(a: Value, b: Value)
    requires Stored(a) && Stored(b) && NoArrays(b) && Covers(a, b)
    ensures Contains(a, b)
    decreases b
  {
    hide Covers, FoundAt, Agrees;
    CoveredTop(a, b);
    match b {
      case Obj(members) =>
        assert a.Obj? by { AgreesObject(a, b); }
        forall i | 0 <= i < |members| ensures HasMember(a.members, members[i]) {
          var j := CoveredMember(a, b, i);
          CoversContains(a.members[j].value, members[i].value);
        }
      case _ => AgreesEqual(a, b);
    }
  }

  lemma {:induction false} AgreesObject(a: Value, b: Value)
    requires Agrees(a, b) && b.Obj?
    ensures a.Obj?
  {
  }

  lemma {:induction false} AgreesEqual(a: Value, b: Value)
    requires Stored(a) && Stored(b) && Agrees(a, b) && !b.Obj? && !b.Arr?
    ensures TypedEqual(a, b)
  {
    if b.Num? { NumbersCompare(a.number.parts, b.number.parts); }
  }

  lemma {:induction false} CoveredTop(a: Value, b: Value)
    requires Covers(a, b)
    ensures Agrees(a, b)
  {
    hide Agrees;
    assert Reaches(b, [], b);
    assert FoundAt(a, [], b);
    var found :| Reaches(a, [], found) && Agrees(found, b);
  }

  /** A covered member is covered by the one member under its key. */
  lemma {:induction false} CoveredMember(a: Value, b: Value, i: nat) returns (j: nat)
    requires Stored(a) && b.Obj? && a.Obj? && i < |b.members| && Covers(a, b)
    ensures j < |a.members| && a.members[j].key == b.members[i].key && Covers(a.members[j].value, b.members[i].value)
  {
    hide Agrees, Stored, FoundAt, Covers;
    var step, wanted := Under(b.members[i].key), b.members[i].value;
    ReachesMember(b, i, [], wanted);
    j := FoundMember(a, step, [], wanted, b);
    forall path, place | Reaches(wanted, path, place) ensures FoundAt(a.members[j].value, path, place) {
      ReachesMember(b, i, path, place);
      var k := FoundMember(a, step, path, place, b);
      OneUnder(a, j, k);
    }
    assert Covers(a.members[j].value, wanted) by { CoversIf(a.members[j].value, wanted); }
  }

  lemma {:induction false} CoversIf(a: Value, b: Value)
    requires forall path, place | Reaches(b, path, place) :: FoundAt(a, path, place)
    ensures Covers(a, b)
  {
  }

  lemma {:induction false} OneUnder(a: Value, j: nat, k: nat)
    requires Stored(a) && a.Obj? && j < |a.members| && k < |a.members| && a.members[j].key == a.members[k].key
    ensures j == k
  {
  }

  lemma {:induction false} ReachesMember(b: Value, i: nat, path: seq<Step>, place: Value)
    requires b.Obj? && i < |b.members| && Reaches(b.members[i].value, path, place)
    ensures Reaches(b, [Under(b.members[i].key)] + path, place)
  {
    assert ([Under(b.members[i].key)] + path)[1..] == path;
  }

  lemma {:induction false} FoundMember(a: Value, step: Step, path: seq<Step>, wanted: Value, b: Value) returns (j: nat)
    requires a.Obj? && step.Under? && Covers(a, b) && Reaches(b, [step] + path, wanted)
    ensures j < |a.members| && a.members[j].key == step.key && FoundAt(a.members[j].value, path, wanted)
  {
    hide Agrees;
    assert FoundAt(a, [step] + path, wanted);
    var found :| Reaches(a, [step] + path, found) && Agrees(found, wanted);
    assert ([step] + path)[1..] == path;
    j :| 0 <= j < |a.members| && a.members[j].key == step.key && Reaches(a.members[j].value, path, found);
  }

  /** What containing means: everything asked for is there along the same path. Without arrays on the asking side this
      is exactly it. */
  lemma {:induction false} ContainsIsCovering(a: Value, b: Value)
    requires Stored(a) && Stored(b)
    ensures Contains(a, b) ==> Covers(a, b)
    ensures NoArrays(b) ==> (Contains(a, b) <==> Covers(a, b))
  {
    hide Contains, NoArrays, Stored, FoundAt, Reaches;
    if Contains(a, b) {
      forall path, wanted | Reaches(b, path, wanted) ensures FoundAt(a, path, wanted) {
        ContainsFinds(a, b, path, wanted);
      }
    }
    if NoArrays(b) && Covers(a, b) { CoversContains(a, b); }
  }

  /** With arrays one element has to have everything asked of it at once, which covering alone does not say. */
  lemma {:induction false} ArraysItemwise(a: Value, b: Value)
    requires Stored(a) && Stored(b) && b.Arr? && forall i :: 0 <= i < |b.items| ==> NoArrays(b.items[i])
    ensures Contains(a, b) <==> a.Arr? && forall i :: 0 <= i < |b.items| ==> CoveredItem(a.items, b.items[i])
  {
    hide Covers, NoArrays;
    if a.Arr? {
      forall i | 0 <= i < |b.items| ensures HasItem(a.items, b.items[i]) <==> CoveredItem(a.items, b.items[i]) {
        forall j | 0 <= j < |a.items| ensures Contains(a.items[j], b.items[i]) <==> Covers(a.items[j], b.items[i]) {
          ContainsIsCovering(a.items[j], b.items[i]);
        }
      }
    }
  }

  ghost predicate CoveredItem(items: seq<Value>, wanted: Value) {
    exists j :: 0 <= j < |items| && Covers(items[j], wanted)
  }
}
