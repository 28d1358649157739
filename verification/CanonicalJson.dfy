/** Canonical JSON as an identity: equal texts exactly for equal values. */
module CanonicalJson {
  import opened Options
  import opened Text
  import opened Decimal
  import opened Numerals
  import opened Json
  import opened KeyOrder
  import opened CanonicalText

  // ------------------------------------------------------------ strings

  function Hex(v: nat): char
    requires v < 16
  {
    if v < 10 then ('0' as int + v) as char else ('a' as int + v - 10) as char
  }

  function Escape(c: char): (r: string)
    ensures r != "" && r[0] != '"'
  {
    if c == '"' then "\\\"" else if c == '\\' then "\\\\"
    else if c == '\U{8}' then "\\b" else if c == '\U{c}' then "\\f"
    else if c == '\n' then "\\n" else if c == '\r' then "\\r" else if c == '\t' then "\\t"
    else if c < ' ' then "\\u00" + [Hex(c as int / 16), Hex(c as int % 16)]
    else [c]
  }

  function Body(s: string): string {
    if s == "" then "" else Escape(s[0]) + Body(s[1..])
  }

  function Quote(s: string): string {
    "\"" + (Body(s) + "\"")
  }

  lemma {:induction false} HexInjective(a: nat, b: nat)
    requires a < 16 && b < 16 && Hex(a) == Hex(b)
    ensures a == b
  {
  }

  lemma {:induction false} EscapeShape(c: char)
    ensures Escape(c)[0] == '\\' <==> |Escape(c)| > 1
    ensures |Escape(c)| in {1, 2, 6}
    ensures |Escape(c)| == 6 <==> |Escape(c)| > 1 && Escape(c)[1] == 'u'
    ensures |Escape(c)| == 6 ==> c < ' ' && Escape(c)[4] == Hex(c as int / 16) && Escape(c)[5] == Hex(c as int % 16)
  {
  }

  lemma {:induction false} EscapeInjective(a: char, b: char)
    requires Escape(a) == Escape(b)
    ensures a == b
  {
    EscapeShape(a);
    EscapeShape(b);
    if |Escape(a)| == 6 {
      HexInjective(a as int / 16, b as int / 16);
      HexInjective(a as int % 16, b as int % 16);
    }
  }

  lemma {:induction false} EscapeApart(a: char, b: char, x: string, y: string)
    requires Escape(a) + x == Escape(b) + y
    ensures a == b && x == y
  {
    hide Escape;
    EscapeShape(a);
    EscapeShape(b);
    var u, v := Escape(a) + x, Escape(b) + y;
    assert u[0] == Escape(a)[0] && v[0] == Escape(b)[0];
    if |Escape(a)| > 1 { assert u[1] == Escape(a)[1] && v[1] == Escape(b)[1]; }
    assert u[..|Escape(a)|] == Escape(a) && v[..|Escape(b)|] == Escape(b);
    assert u[|Escape(a)|..] == x && v[|Escape(b)|..] == y;
    EscapeInjective(a, b);
  }

  lemma {:induction false} BodyApart(a: string, b: string, x: string, y: string)
    requires Body(a) + "\"" + x == Body(b) + "\"" + y
    ensures a == b && x == y
    decreases |a|
  {
    hide Escape;
    var u, v := Body(a) + "\"" + x, Body(b) + "\"" + y;
    assert a == "" ==> u == "\"" + x;
    assert b == "" ==> v == "\"" + y;
    assert a != "" ==> u[0] == Escape(a[0])[0];
    assert b != "" ==> v[0] == Escape(b[0])[0];
    if a == "" {
      assert x == u[1..] && y == v[1..];
    } else {
      var p, q := Body(a[1..]) + "\"" + x, Body(b[1..]) + "\"" + y;
      assert u == Escape(a[0]) + p && v == Escape(b[0]) + q;
      EscapeApart(a[0], b[0], p, q);
      BodyApart(a[1..], b[1..], x, y);
      assert a == [a[0]] + a[1..] && b == [b[0]] + b[1..];
    }
  }

  /** A quoted string is read back in one way only. */
  lemma {:induction false} QuoteApart(a: string, b: string, x: string, y: string)
    requires Quote(a) + x == Quote(b) + y
    ensures a == b && x == y
  {
    hide Body;
    assert (Quote(a) + x)[1..] == Body(a) + "\"" + x;
    assert (Quote(b) + y)[1..] == Body(b) + "\"" + y;
    BodyApart(a, b, x, y);
  }

  // ------------------------------------------------------------ values

  /** A printed member: its key, and the canonical text of its value. */
  datatype Entry = Entry(key: string, text: string)

  function Insert(e: Entry, sorted: seq<Entry>): (r: seq<Entry>)
    ensures |r| == |sorted| + 1
  {
    if sorted == [] || Less(e.key, sorted[0].key) then [e] + sorted else [sorted[0]] + Insert(e, sorted[1..])
  }

  function Sort(entries: seq<Entry>): (r: seq<Entry>)
    ensures |r| == |entries|
  {
    if entries == [] then [] else Insert(entries[0], Sort(entries[1..]))
  }

  function Tail(texts: seq<string>): string {
    if texts == [] then "" else "," + texts[0] + Tail(texts[1..])
  }

  /** The texts with commas between them. */
  function Join(texts: seq<string>): string {
    if texts == [] then "" else texts[0] + Tail(texts[1..])
  }

  function EntryText(e: Entry): string {
    Quote(e.key) + ":" + e.text
  }

  function EntryTexts(entries: seq<Entry>): (r: seq<string>)
    ensures |r| == |entries| && forall i :: 0 <= i < |r| ==> r[i] == EntryText(entries[i])
  {
    seq(|entries|, i requires 0 <= i < |entries| => EntryText(entries[i]))
  }

  function Canonical(v: Value): Option<string>
    requires Good(v)
    decreases v
  {
    match v
    case Null => Some("null")
    case Bool(flag) => Some(if flag then "true" else "false")
    case Str(text) => Some(Quote(text))
    case Num(number) => NumberText(number)
    case Arr(items) =>
      var texts := CanonicalItems(items);
      if texts.None? then None else Some("[" + (Join(texts.value) + "]"))
    case Obj(members) =>
      var entries := CanonicalMembers(members);
      if entries.None? then None else Some("{" + (Join(EntryTexts(Sort(entries.value))) + "}"))
  }

  function CanonicalItems(items: seq<Value>): (r: Option<seq<string>>)
    requires forall i :: 0 <= i < |items| ==> Good(items[i])
    ensures r.Some? <==> forall i :: 0 <= i < |items| ==> Canonical(items[i]).Some?
    ensures r.Some? ==> |r.value| == |items|
    ensures r.Some? ==> forall i | 0 <= i < |items| :: Canonical(items[i]) == Some(r.value[i])
    decreases items
  {
    if items == [] then Some([])
    else
      var first, rest := Canonical(items[0]), CanonicalItems(items[1..]);
      if first.None? || rest.None? then None else Some([first.value] + rest.value)
  }

  function CanonicalMembers(members: seq<Member>): (r: Option<seq<Entry>>)
    requires forall i :: 0 <= i < |members| ==> Good(members[i].value)
    ensures r.Some? <==> forall i :: 0 <= i < |members| ==> Canonical(members[i].value).Some?
    ensures r.Some? ==> |r.value| == |members|
    ensures r.Some? ==> forall i | 0 <= i < |members| ::
      r.value[i].key == members[i].key && Canonical(members[i].value) == Some(r.value[i].text)
    decreases members
  {
    if members == [] then Some([])
    else
      var first, rest := Canonical(members[0].value), CanonicalMembers(members[1..]);
      if first.None? || rest.None? then None else Some([Entry(members[0].key, first.value)] + rest.value)
  }

  // ------------------------------------------------------------ sorting

  predicate SortedEntries(es: seq<Entry>) {
    forall i, j :: 0 <= i < j < |es| ==> Less(es[i].key, es[j].key)
  }

  predicate DistinctEntries(es: seq<Entry>) {
    forall i, j :: 0 <= i < j < |es| ==> es[i].key != es[j].key
  }

  lemma {:induction false} InsertKeeps(e: Entry, es: seq<Entry>)
    ensures multiset(Insert(e, es)) == multiset{e} + multiset(es)
    decreases |es|
  {
    hide Less;
    if es == [] || Less(e.key, es[0].key) {
    } else {
      InsertKeeps(e, es[1..]);
      assert es == [es[0]] + es[1..];
    }
  }

  lemma {:induction false} SortKeeps(es: seq<Entry>)
    ensures multiset(Sort(es)) == multiset(es)
    decreases |es|
  {
    if es != [] {
      SortKeeps(es[1..]);
      InsertKeeps(es[0], Sort(es[1..]));
      assert es == [es[0]] + es[1..];
    }
  }

  lemma {:induction false} SameMembers(es: seq<Entry>, fs: seq<Entry>)
    requires multiset(es) == multiset(fs)
    ensures forall e :: e in es <==> e in fs
  {
    assert forall e :: e in es <==> e in multiset(es);
    assert forall e :: e in fs <==> e in multiset(fs);
  }

  lemma {:induction false} InsertSorts(e: Entry, es: seq<Entry>)
    requires SortedEntries(es) && forall f :: f in es ==> f.key != e.key
    ensures SortedEntries(Insert(e, es))
    decreases |es|
  {
    hide Less;
    if es == [] {
    } else if Less(e.key, es[0].key) {
      forall j | 0 <= j < |es| ensures Less(e.key, es[j].key) { LessIsTotal(e.key, es[0].key, es[j].key); }
    } else {
      assert es[0] in es;
      LessIsTotal(e.key, es[0].key, e.key);
      InsertSorts(e, es[1..]);
      InsertKeeps(e, es[1..]);
      var r := Insert(e, es[1..]);
      assert multiset([e] + es[1..]) == multiset(r);
      SameMembers([e] + es[1..], r);
      forall j | 0 <= j < |r| ensures Less(es[0].key, r[j].key) {
        assert r[j] in [e] + es[1..];
      }
    }
  }

  /** The members come out in increasing key order. */
  lemma {:induction false} SortSorts(es: seq<Entry>)
    requires DistinctEntries(es)
    ensures SortedEntries(Sort(es))
    decreases |es|
  {
    if es != [] {
      SortSorts(es[1..]);
      SortKeeps(es[1..]);
      SameMembers(Sort(es[1..]), es[1..]);
      InsertSorts(es[0], Sort(es[1..]));
    }
  }

  /** There is only one increasing sequence of given entries. */
  lemma {:induction false} SortedUnique(es: seq<Entry>, fs: seq<Entry>)
    requires |es| == |fs| && SortedEntries(es) && SortedEntries(fs) && forall e :: e in es <==> e in fs
    ensures es == fs
    decreases |es|
  {
    hide Less;
    if es != [] {
      assert es[0] in fs;
      var j :| 0 <= j < |fs| && fs[j] == es[0];
      assert fs[0] in es;
      var k :| 0 <= k < |es| && es[k] == fs[0];
      LessIsTotal(es[0].key, fs[0].key, es[0].key);
      assert es[0] == fs[0];
      TailMembers(es);
      TailMembers(fs);
      SortedUnique(es[1..], fs[1..]);
      assert es == [es[0]] + es[1..] && fs == [fs[0]] + fs[1..];
    }
  }

  lemma {:induction false} TailMembers(es: seq<Entry>)
    requires SortedEntries(es) && es != []
    ensures forall e :: e in es[1..] <==> e in es && e != es[0]
  {
    hide Less;
    forall e | e in es[1..] ensures e != es[0] {
      var i :| 1 <= i < |es| && es[i] == e;
      LessIsTotal(es[0].key, e.key, e.key);
    }
  }

  // ------------------------------------------------------------ reading a canonical text back

  predicate Ends(rest: string) {
    rest == "" || rest[0] in {',', ']', '}'}
  }

  predicate NumberChar(c: char) {
    IsDigit(c) || c in {'-', '+', '.', 'e'}
  }

  predicate NumberChars(s: string) {
    forall i :: 0 <= i < |s| ==> NumberChar(s[i])
  }

  lemma {:induction false} DigitsAreNumber(s: string)
    requires AllDigits(s)
    ensures NumberChars(s)
  {
  }

  lemma {:induction false} JoinNumbers(a: string, b: string)
    requires NumberChars(a) && NumberChars(b)
    ensures NumberChars(a + b)
  {
  }

  lemma {:induction false} SpellChars(neg: bool, whole: string, fraction: Option<string>, power: Option<string>)
    requires whole != "" && AllDigits(whole) && (fraction.Some? ==> AllDigits(fraction.value))
    requires power.Some? ==> NumberChars(power.value)
    ensures var s := Spell(neg, whole, fraction, power);
      NumberChars(s) && s != "" && (s[0] == '-' || IsDigit(s[0]))
  {
    hide NumberChars, AllDigits;
    var sign := if neg then "-" else "";
    assert NumberChars("") && NumberChars("-") && NumberChars(".") && NumberChars("e") by { Marks(); }
    DigitsAreNumber(whole);
    if fraction.Some? {
      DigitsAreNumber(fraction.value);
      JoinNumbers(".", fraction.value);
    }
    if power.Some? { JoinNumbers("e", power.value); }
    JoinNumbers(whole, PointText(fraction));
    JoinNumbers(sign, whole + PointText(fraction));
    JoinNumbers(sign + (whole + PointText(fraction)), PowerText(power));
    assert IsDigit(whole[0]) by { FirstDigit(whole); }
    assert (sign + (whole + PointText(fraction)) + PowerText(power))[0] == if neg then '-' else whole[0];
  }

  lemma {:induction false} Marks()
    ensures NumberChars("") && NumberChars("-") && NumberChars(".") && NumberChars("e") && NumberChars("+")
  {
  }

  lemma {:induction false} FirstDigit(s: string)
    requires AllDigits(s) && s != ""
    ensures IsDigit(s[0])
  {
  }

  lemma {:induction false} PowerChars(i: int)
    ensures NumberChars(PlusText(i))
  {
    hide NatText, NumberChars;
    Marks();
    DigitsAreNumber(NatText(if i < 0 then -i else i));
    JoinNumbers("-", NatText(if i < 0 then -i else i));
    JoinNumbers("+", NatText(if i < 0 then -i else i));
  }

  lemma {:induction false} NumberTextChars(n: Number)
    requires GoodNumber(n) && NumberText(n).Some?
    ensures var s := NumberText(n).value;
      NumberChars(s) && s != "" && (s[0] == '-' || IsDigit(s[0]))
  {
    hide NormalOf, Spell, NumberChars, Magnitude, Scaled, PlusText;
    NormalKeepsValue(n.parts);
    var m := NormalOf(n.parts);
    if m.digits == "" {
      DigitsAreNumber("0");
    } else {
      var point := PointOf(m);
      PowerChars(point - 1);
      if point <= 0 {
        SpellChars(m.neg, "0", Some(Zeros(-point) + m.digits), None);
      } else if point >= |m.digits| {
        SpellChars(m.neg, m.digits + Zeros(point - |m.digits|), None, None);
      } else {
        SpellChars(m.neg, m.digits[..point], Some(m.digits[point..]), None);
      }
      SpellChars(m.neg, m.digits[..1], if |m.digits| == 1 then None else Some(m.digits[1..]), Some(PlusText(point - 1)));
    }
  }

  /** A number stops where the first character stands that no number contains. */
  lemma {:induction false} NumberApart(a: string, b: string, x: string, y: string)
    requires NumberChars(a) && NumberChars(b) && Ends(x) && Ends(y) && a + x == b + y
    ensures a == b
  {
    var u, v := a + x, b + y;
    assert forall i :: 0 <= i < |a| ==> u[i] == a[i];
    assert forall i :: 0 <= i < |b| ==> v[i] == b[i];
    assert x != "" ==> u[|a|] == x[0];
    assert y != "" ==> v[|b|] == y[0];
    assert |a| == |b|;
    assert a == u[..|a|] && b == v[..|b|];
  }

  /** What a value's text begins with tells what kind of value it is. */
  function Kind(v: Value): nat {
    match v
    case Null => 0
    case Bool(_) => 1
    case Num(_) => 2
    case Str(_) => 3
    case Arr(_) => 4
    case Obj(_) => 5
  }

  function KindOf(c: char): nat {
    if c == 'n' then 0 else if c == 't' || c == 'f' then 1 else if c == '"' then 3 else if c == '[' then 4
    else if c == '{' then 5 else if c == ',' || c == ']' || c == '}' then 6 else 2
  }

  lemma {:induction false} FirstChar(v: Value)
    requires Good(v) && Canonical(v).Some?
    ensures Canonical(v).value != "" && KindOf(Canonical(v).value[0]) == Kind(v)
  {
    hide Join, Body, Sort, EntryTexts, NumberText, NumberChars, CanonicalItems, CanonicalMembers;
    if v.Num? { NumberTextChars(v.number); }
  }

  lemma {:induction false} SameKind(a: Value, b: Value, x: string, y: string)
    requires Good(a) && Good(b) && Canonical(a).Some? && Canonical(b).Some?
    requires Canonical(a).value + x == Canonical(b).value + y
    ensures Kind(a) == Kind(b)
  {
    hide Canonical, KindOf, Kind, Good;
    FirstChar(a);
    FirstChar(b);
    assert (Canonical(a).value + x)[0] == Canonical(a).value[0];
    assert (Canonical(b).value + y)[0] == Canonical(b).value[0];
  }

  // ------------------------------------------------------------ no two values share a text

  /** What follows a value inside a list: more elements or the closing bracket. */
  function More(texts: seq<string>, close: char, x: string): string {
    Tail(texts) + [close] + x
  }

  lemma {:induction false} MoreSplits(texts: seq<string>, close: char, x: string)
    requires close in {']', '}'}
    ensures Ends(More(texts, close, x)) && More(texts, close, x) != ""
    ensures More(texts, close, x)[0] == if texts == [] then close else ','
    ensures texts == [] ==> More(texts, close, x)[1..] == x
    ensures texts != [] ==> More(texts, close, x)[1..] == texts[0] + More(texts[1..], close, x)
  {
    if texts == [] {
      assert More(texts, close, x) == [close] + x;
    } else {
      assert More(texts, close, x) == "," + (texts[0] + More(texts[1..], close, x));
    }
  }

  lemma {:induction false} JoinSplits(texts: seq<string>, close: char, x: string)
    ensures Join(texts) + [close] + x ==
      if texts == [] then [close] + x else texts[0] + More(texts[1..], close, x)
  {
  }

  /** Two lists with the same text from the second element on. */
  lemma {:induction false} ItemsApart(a: seq<Value>, b: seq<Value>, x: string, y: string)
    requires (forall i :: 0 <= i < |a| ==> Good(a[i])) && (forall i :: 0 <= i < |b| ==> Good(b[i]))
    requires CanonicalItems(a).Some? && CanonicalItems(b).Some?
    requires More(CanonicalItems(a).value, ']', x) == More(CanonicalItems(b).value, ']', y)
    ensures |a| == |b| && forall i :: 0 <= i < |a| ==> Same(a[i], b[i])
    ensures CanonicalItems(a) == CanonicalItems(b) && x == y
    decreases a
  {
    hide Canonical, More, Same, Ends;
    var ta, tb := CanonicalItems(a).value, CanonicalItems(b).value;
    MoreSplits(ta, ']', x);
    MoreSplits(tb, ']', y);
    if a != [] {
      HeadItems(a);
      HeadItems(b);
      MoreSplits(ta[1..], ']', x);
      MoreSplits(tb[1..], ']', y);
      Apart(a[0], b[0], More(ta[1..], ']', x), More(tb[1..], ']', y));
      DropSame(ta[0], More(ta[1..], ']', x), More(tb[1..], ']', y));
      ItemsApart(a[1..], b[1..], x, y);
    }
  }

  lemma {:induction false} DropSame(t: string, x: string, y: string)
    requires t + x == t + y
    ensures x == y
  {
    assert (t + x)[|t|..] == x && (t + y)[|t|..] == y;
  }

  lemma {:induction false} HeadItems(a: seq<Value>)
    requires (forall i :: 0 <= i < |a| ==> Good(a[i])) && CanonicalItems(a).Some? && a != []
    ensures Canonical(a[0]) == Some(CanonicalItems(a).value[0])
    ensures CanonicalItems(a[1..]) == Some(CanonicalItems(a).value[1..])
  {
    hide Canonical;
  }

  /** Taking off the opening bracket. */
  lemma {:induction false} Opened(open: char, body: string, close: char, x: string)
    ensures ([open] + (body + [close]) + x)[1..] == body + [close] + x
  {
  }

  lemma {:induction false} ArrayText(v: Value) returns (texts: seq<string>)
    requires Good(v) && v.Arr? && Canonical(v).Some?
    ensures CanonicalItems(v.items) == Some(texts) && Canonical(v) == Some("[" + (Join(texts) + "]"))
  {
    hide Join;
    texts := CanonicalItems(v.items).value;
  }

  lemma {:induction false} ArraysApart(a: Value, b: Value, x: string, y: string)
    requires Good(a) && Good(b) && a.Arr? && b.Arr? && Canonical(a).Some? && Canonical(b).Some?
    requires Canonical(a).value + x == Canonical(b).value + y
    ensures Canonical(a) == Canonical(b) && Same(a, b)
    decreases a, 0
  {
    hide Canonical, CanonicalItems, Join;
    var ta := ArrayText(a);
    var tb := ArrayText(b);
    Opened('[', Join(ta), ']', x);
    Opened('[', Join(tb), ']', y);
    ListsApart(a.items, b.items, ta, tb, x, y);
  }

  lemma {:induction false} NotClosing(v: Value, rest: string, close: char, x: string)
    requires Good(v) && Canonical(v).Some? && close in {']', '}'}
    ensures Canonical(v).value + rest != [close] + x
  {
    hide Canonical, Good;
    FirstChar(v);
    assert (Canonical(v).value + rest)[0] == Canonical(v).value[0];
    assert ([close] + x)[0] == close;
  }

  lemma {:induction false} ListsApart(a: seq<Value>, b: seq<Value>, ta: seq<string>, tb: seq<string>,
                                      x: string, y: string)
    requires (forall i :: 0 <= i < |a| ==> Good(a[i])) && (forall i :: 0 <= i < |b| ==> Good(b[i]))
    requires CanonicalItems(a) == Some(ta) && CanonicalItems(b) == Some(tb)
    requires Join(ta) + "]" + x == Join(tb) + "]" + y
    ensures ta == tb && |a| == |b| && forall i :: 0 <= i < |a| ==> Same(a[i], b[i])
    decreases a, 1
  {
    hide Canonical, Join, More, Same, Ends;
    JoinSplits(ta, ']', x);
    JoinSplits(tb, ']', y);
    if a != [] { HeadItems(a); }
    if b != [] { HeadItems(b); }
    if a == [] && b != [] {
      NotClosing(b[0], More(tb[1..], ']', y), ']', x);
    } else if a != [] && b == [] {
      NotClosing(a[0], More(ta[1..], ']', x), ']', y);
    } else if a != [] {
      MoreSplits(ta[1..], ']', x);
      MoreSplits(tb[1..], ']', y);
      Apart(a[0], b[0], More(ta[1..], ']', x), More(tb[1..], ']', y));
      DropSame(ta[0], More(ta[1..], ']', x), More(tb[1..], ']', y));
      ItemsApart(a[1..], b[1..], x, y);
    }
  }

  // ------------------------------------------------------------ objects

  /** The entry is the printed form of one of these members. */
  predicate Prints(members: seq<Member>, e: Entry)
    requires forall i :: 0 <= i < |members| ==> Good(members[i].value)
  {
    exists i :: 0 <= i < |members| && members[i].key == e.key && Canonical(members[i].value) == Some(e.text)
  }

  predicate GoodMembers(members: seq<Member>) {
    DistinctKeys(members) && forall i :: 0 <= i < |members| ==> Good(members[i].value)
  }

  /** Members of both sides under this key have the same value. */
  predicate Matched(a: seq<Member>, b: seq<Member>, key: string)
    requires GoodMembers(a) && GoodMembers(b)
  {
    exists i :: 0 <= i < |a| && a[i].key == key && Held(a[i], b)
  }

  lemma {:induction false} EntryApart(a: Value, b: Value, e: Entry, f: Entry, x: string, y: string)
    requires a.Obj? && b.Obj? && GoodMembers(a.members) && GoodMembers(b.members)
    requires Prints(a.members, e) && Prints(b.members, f) && Ends(x) && Ends(y)
    requires EntryText(e) + x == EntryText(f) + y
    ensures e == f && x == y && Matched(a.members, b.members, e.key)
    decreases a, 0
  {
    hide Canonical, Quote, Same, Ends, Good;
    assert EntryText(e) + x == Quote(e.key) + (":" + e.text + x);
    assert EntryText(f) + y == Quote(f.key) + (":" + f.text + y);
    var u, v := ":" + e.text + x, ":" + f.text + y;
    QuoteApart(e.key, f.key, u, v);
    assert u[1..] == e.text + x && v[1..] == f.text + y;
    var i :| 0 <= i < |a.members| && a.members[i].key == e.key && Canonical(a.members[i].value) == Some(e.text);
    var j :| 0 <= j < |b.members| && b.members[j].key == f.key && Canonical(b.members[j].value) == Some(f.text);
    Apart(a.members[i].value, b.members[j].value, x, y);
    assert Held(a.members[i], b.members);
    assert (e.text + x)[|e.text|..] == x && (f.text + y)[|e.text|..] == y;
  }

  lemma {:induction false} EntriesApart(a: Value, b: Value, es: seq<Entry>, fs: seq<Entry>, x: string, y: string)
    requires a.Obj? && b.Obj? && GoodMembers(a.members) && GoodMembers(b.members)
    requires (forall i :: 0 <= i < |es| ==> Prints(a.members, es[i])) && (forall i :: 0 <= i < |fs| ==> Prints(b.members, fs[i]))
    requires More(EntryTexts(es), '}', x) == More(EntryTexts(fs), '}', y)
    ensures es == fs && forall i :: 0 <= i < |es| ==> Matched(a.members, b.members, es[i].key)
    decreases a, 1, |es|
  {
    hide Prints, Matched, More, Ends, EntryText, GoodMembers;
    MoreSplits(EntryTexts(es), '}', x);
    MoreSplits(EntryTexts(fs), '}', y);
    if es != [] {
      assert EntryTexts(es)[1..] == EntryTexts(es[1..]) && EntryTexts(fs)[1..] == EntryTexts(fs[1..]);
      MoreSplits(EntryTexts(es[1..]), '}', x);
      MoreSplits(EntryTexts(fs[1..]), '}', y);
      EntryApart(a, b, es[0], fs[0], More(EntryTexts(es[1..]), '}', x), More(EntryTexts(fs[1..]), '}', y));
      EntriesApart(a, b, es[1..], fs[1..], x, y);
    }
  }

  lemma {:induction false} QuoteStarts(e: Entry, rest: string, x: string)
    ensures EntryText(e) + rest != "}" + x
  {
    hide Body;
    assert (EntryText(e) + rest)[0] == '"';
    assert ("}" + x)[0] == '}';
  }

  lemma {:induction false} EntryListsApart(a: Value, b: Value, es: seq<Entry>, fs: seq<Entry>, x: string, y: string)
    requires a.Obj? && b.Obj? && GoodMembers(a.members) && GoodMembers(b.members)
    requires (forall i :: 0 <= i < |es| ==> Prints(a.members, es[i])) && (forall i :: 0 <= i < |fs| ==> Prints(b.members, fs[i]))
    requires Join(EntryTexts(es)) + "}" + x == Join(EntryTexts(fs)) + "}" + y
    ensures es == fs && forall i :: 0 <= i < |es| ==> Matched(a.members, b.members, es[i].key)
    decreases a, 2
  {
    hide Prints, Matched, More, Ends, EntryText, GoodMembers, Join;
    var ta, tb := EntryTexts(es), EntryTexts(fs);
    JoinSplits(ta, '}', x);
    JoinSplits(tb, '}', y);
    if es == [] && fs != [] {
      QuoteStarts(fs[0], More(tb[1..], '}', y), x);
    } else if es != [] && fs == [] {
      QuoteStarts(es[0], More(ta[1..], '}', x), y);
    } else if es != [] {
      assert ta[1..] == EntryTexts(es[1..]) && tb[1..] == EntryTexts(fs[1..]);
      MoreSplits(ta[1..], '}', x);
      MoreSplits(tb[1..], '}', y);
      EntryApart(a, b, es[0], fs[0], More(ta[1..], '}', x), More(tb[1..], '}', y));
      EntriesApart(a, b, es[1..], fs[1..], x, y);
    }
  }

  predicate Covers(es: seq<Entry>, members: seq<Member>) {
    forall i | 0 <= i < |members| :: exists k | 0 <= k < |es| :: es[k].key == members[i].key
  }

  /** Sorting the entries of an object loses none of its members. */
  lemma {:induction false} EntriesOf(v: Value) returns (es: seq<Entry>)
    requires v.Obj? && Good(v) && Canonical(v).Some?
    ensures GoodMembers(v.members) && |es| == |v.members|
    ensures Canonical(v) == Some("{" + (Join(EntryTexts(es)) + "}"))
    ensures forall i :: 0 <= i < |es| ==> Prints(v.members, es[i])
    ensures Covers(es, v.members)
    ensures SortedEntries(es)
  {
    hide Join, EntryTexts, Sort, Less;
    var printed := CanonicalMembers(v.members).value;
    es := Sort(printed);
    SortKeeps(printed);
    SameMembers(es, printed);
    SortSorts(printed);
    forall i | 0 <= i < |es| ensures Prints(v.members, es[i]) {
      assert es[i] in printed;
      var k :| 0 <= k < |printed| && printed[k] == es[i];
      assert v.members[k].key == es[i].key && Canonical(v.members[k].value) == Some(es[i].text);
    }
    forall i | 0 <= i < |v.members| ensures exists k | 0 <= k < |es| :: es[k].key == v.members[i].key {
      assert printed[i] in es;
      var k :| 0 <= k < |es| && es[k] == printed[i];
      assert es[k].key == v.members[i].key;
    }
  }

  lemma {:induction false} ObjectsApart(a: Value, b: Value, x: string, y: string)
    requires Good(a) && Good(b) && a.Obj? && b.Obj? && Canonical(a).Some? && Canonical(b).Some?
    requires Canonical(a).value + x == Canonical(b).value + y
    ensures Canonical(a) == Canonical(b) && Same(a, b)
    decreases a, 3
  {
    hide Canonical, CanonicalMembers, Join, EntryTexts, Prints, SortedEntries, Matched, Same;
    var es := EntriesOf(a);
    var fs := EntriesOf(b);
    assert (Canonical(a).value + x)[1..] == Join(EntryTexts(es)) + "}" + x;
    assert (Canonical(b).value + y)[1..] == Join(EntryTexts(fs)) + "}" + y;
    EntryListsApart(a, b, es, fs, x, y);
    MatchedIsSame(a, b, es);
  }

  lemma {:induction false} MatchedIsSame(a: Value, b: Value, es: seq<Entry>)
    requires Good(a) && Good(b) && a.Obj? && b.Obj? && |a.members| == |b.members|
    requires Covers(es, a.members)
    requires GoodMembers(a.members) && GoodMembers(b.members)
    requires forall k :: 0 <= k < |es| ==> Matched(a.members, b.members, es[k].key)
    ensures Same(a, b)
  {
    hide Held, Good;
    forall i | 0 <= i < |a.members| ensures Held(a.members[i], b.members) {
      var k :| 0 <= k < |es| && es[k].key == a.members[i].key;
      assert Matched(a.members, b.members, es[k].key);
    }
  }

  /** A canonical text is read back in one way only: two values whose texts begin the same text are the same. */
  lemma {:induction false} Apart(a: Value, b: Value, x: string, y: string)
    requires Good(a) && Good(b) && Canonical(a).Some? && Canonical(b).Some? && Ends(x) && Ends(y)
    requires Canonical(a).value + x == Canonical(b).value + y
    ensures Canonical(a) == Canonical(b) && Same(a, b)
    decreases a, 4
  {
    SameKind(a, b, x, y);
    match a {
      case Arr(_) => ArraysApart(a, b, x, y);
      case Obj(_) => ObjectsApart(a, b, x, y);
      case _ => LeavesApart(a, b, x, y);
    }
  }

  lemma {:induction false} LeavesApart(a: Value, b: Value, x: string, y: string)
    requires Good(a) && Good(b) && Canonical(a).Some? && Canonical(b).Some? && Ends(x) && Ends(y)
    requires Kind(a) == Kind(b) && Kind(a) < 4
    requires Canonical(a).value + x == Canonical(b).value + y
    ensures Canonical(a) == Canonical(b) && Same(a, b)
  {
    hide NumberText, Quote, NumberChars, Ends;
    match a {
      case Null => {}
      case Bool(flag) => {
        assert (Canonical(a).value + x)[0] == if flag then 't' else 'f';
        assert (Canonical(b).value + y)[0] == if b.flag then 't' else 'f';
      }
      case Num(m) => {
        NumberTextChars(m);
        NumberTextChars(b.number);
        NumberApart(NumberText(m).value, NumberText(b.number).value, x, y);
        NumberTextDecides(m, b.number);
      }
      case Str(t) => QuoteApart(t, b.text, x, y);
    }
  }

  // ------------------------------------------------------------ the text does not depend on the member order

  lemma {:induction false} PrintedAlike(a: Value, b: Value)
    requires Good(a) && Good(b) && Same(a, b) && Canonical(a).Some? && Canonical(b).Some?
    ensures Canonical(a) == Canonical(b)
    decreases a
  {
    match a {
      case Num(n) => NumberTextDecides(n, b.number);
      case Arr(items) => ItemsAlike(items, b.items);
      case Obj(_) => MembersAlike(a, b);
      case _ => {}
    }
  }

  lemma {:induction false} ItemsAlike(a: seq<Value>, b: seq<Value>)
    requires (forall i :: 0 <= i < |a| ==> Good(a[i])) && (forall i :: 0 <= i < |b| ==> Good(b[i]))
    requires |a| == |b| && forall i :: 0 <= i < |a| ==> Same(a[i], b[i])
    requires CanonicalItems(a).Some? && CanonicalItems(b).Some?
    ensures CanonicalItems(a) == CanonicalItems(b)
    decreases a, 0
  {
    hide Canonical, Same, Good;
    if a != [] {
      HeadItems(a);
      HeadItems(b);
      PrintedAlike(a[0], b[0]);
      ItemsAlike(a[1..], b[1..]);
    }
  }

  /** Every entry of one object is an entry of the other. */
  lemma {:induction false} EntriesFound(a: Value, b: Value, es: seq<Entry>, fs: seq<Entry>)
    requires Good(a) && Good(b) && a.Obj? && b.Obj? && Same(a, b)
    requires CanonicalMembers(a.members) == Some(es) && CanonicalMembers(b.members) == Some(fs)
    ensures forall i :: 0 <= i < |es| ==> es[i] in fs
    decreases a, 0
  {
    hide Canonical, CanonicalMembers;
    forall i | 0 <= i < |es| ensures es[i] in fs {
      var m := a.members[i];
      assert Held(m, b.members);
      var j :| 0 <= j < |b.members| && b.members[j].key == m.key && Same(m.value, b.members[j].value);
      PrintedAlike(m.value, b.members[j].value);
      assert fs[j] == es[i];
    }
  }

  lemma {:induction false} SameBothWays(es: seq<Entry>, fs: seq<Entry>)
    requires |es| == |fs| && DistinctEntries(es) && forall i :: 0 <= i < |es| ==> es[i] in fs
    ensures multiset(es) == multiset(fs)
    decreases |es|
  {
    if es != [] {
      var x, front := es[|es| - 1], es[..|es| - 1];
      assert x in fs;
      var j :| 0 <= j < |fs| && fs[j] == x;
      var rest := fs[..j] + fs[j + 1..];
      assert fs == fs[..j] + [x] + fs[j + 1..];
      forall i | 0 <= i < |front| ensures front[i] in rest {
        assert front[i] in fs && front[i] != x;
      }
      SameBothWays(front, rest);
      assert es == front + [x];
    }
  }

  lemma {:induction false} MembersAlike(a: Value, b: Value)
    requires Good(a) && Good(b) && a.Obj? && b.Obj? && Same(a, b) && Canonical(a).Some? && Canonical(b).Some?
    ensures Canonical(a) == Canonical(b)
    decreases a, 1
  {
    hide Join, EntryTexts, Sort, Same, SortedEntries, Less;
    var es, fs := CanonicalMembers(a.members).value, CanonicalMembers(b.members).value;
    assert |a.members| == |b.members| by { SameSize(a, b); }
    EntriesFound(a, b, es, fs);
    SameBothWays(es, fs);
    SortKeeps(es);
    SortKeeps(fs);
    SortSorts(es);
    SortSorts(fs);
    SameMembers(Sort(es), Sort(fs));
    SortedUnique(Sort(es), Sort(fs));
  }

  lemma {:induction false} SameSize(a: Value, b: Value)
    requires Good(a) && Good(b) && a.Obj? && Same(a, b)
    ensures b.Obj? && |a.members| == |b.members|
  {
  }

  /** Canonical JSON is a faithful identity: two values have the same canonical text exactly when they are equal as
      JSON, whatever the order of their members and however their numbers were written. */
  lemma {:induction false} CanonicalDecides(a: Value, b: Value)
    requires Good(a) && Good(b) && Canonical(a).Some? && Canonical(b).Some?
    ensures Canonical(a) == Canonical(b) <==> Same(a, b)
  {
    if Canonical(a) == Canonical(b) { Apart(a, b, "", ""); }
    if Same(a, b) { PrintedAlike(a, b); }
  }

  // ------------------------------------------------------------ action and payload identities

  /** What an action's key is the digest of. */
  function ActionSource(namespace: string, session: string, execution: string): Value {
    Arr([Str("agent-action-v1"), Str(namespace), Str(session), Str(execution)])
  }

  /** What a payload's fingerprint is the digest of. */
  function PayloadSource(tool: string, target: string, arguments: Value): Value {
    Arr([Str("agent-payload-v1"), Str(tool), Str(target), arguments])
  }

  lemma {:induction false} FourOk(a: Value, b: Value, c: Value, d: Value)
    requires Good(a) && Good(b) && Good(c) && Good(d)
    requires Canonical(a).Some? && Canonical(b).Some? && Canonical(c).Some? && Canonical(d).Some?
    ensures Good(Arr([a, b, c, d])) && Canonical(Arr([a, b, c, d])).Some?
  {
    hide Good, Canonical;
    ListOk([a, b, c, d]);
  }

  lemma {:induction false} ListOk(items: seq<Value>)
    requires forall i | 0 <= i < |items| :: Good(items[i]) && Canonical(items[i]).Some?
    ensures Good(Arr(items)) && Canonical(Arr(items)).Some?
  {
    hide Join;
  }

  lemma {:induction false} FourSame(a: Value, b: Value, c: Value, d: Value, a': Value, b': Value, c': Value, d': Value)
    requires Good(a) && Good(b) && Good(c) && Good(d) && Good(a') && Good(b') && Good(c') && Good(d')
    requires Good(Arr([a, b, c, d])) && Good(Arr([a', b', c', d']))
    ensures Same(Arr([a, b, c, d]), Arr([a', b', c', d'])) <==>
      Same(a, a') && Same(b, b') && Same(c, c') && Same(d, d')
  {
    var x, y := [a, b, c, d], [a', b', c', d'];
    assert Same(Arr(x), Arr(y)) <==> forall i :: 0 <= i < 4 ==> Same(x[i], y[i]) by { hide Good; }
    hide Good, Same;
    assert x[0] == a && x[1] == b && x[2] == c && x[3] == d;
    assert y[0] == a' && y[1] == b' && y[2] == c' && y[3] == d';
  }

  lemma {:induction false} Texts(s: string, t: string)
    ensures Good(Str(s)) && Canonical(Str(s)).Some? && Good(Str(t))
    ensures Same(Str(s), Str(t)) <==> s == t
  {
  }

  /** Two actions have the same key exactly when namespace, session and execution agree. */
  lemma {:induction false} ActionKeysDiffer(n: string, s: string, e: string, n': string, s': string, e': string)
    ensures Good(ActionSource(n, s, e)) && Canonical(ActionSource(n, s, e)).Some?
    ensures Good(ActionSource(n', s', e')) && Canonical(ActionSource(n', s', e')).Some?
    ensures Canonical(ActionSource(n, s, e)) == Canonical(ActionSource(n', s', e')) <==> n == n' && s == s' && e == e'
  {
    hide Good, Canonical, Same;
    var tag := "agent-action-v1";
    Texts(tag, tag);
    Texts(n, n');
    Texts(s, s');
    Texts(e, e');
    Texts(n', n);
    Texts(s', s);
    Texts(e', e);
    FourOk(Str(tag), Str(n), Str(s), Str(e));
    FourOk(Str(tag), Str(n'), Str(s'), Str(e'));
    FourSame(Str(tag), Str(n), Str(s), Str(e), Str(tag), Str(n'), Str(s'), Str(e'));
    CanonicalDecides(ActionSource(n, s, e), ActionSource(n', s', e'));
  }

  /** Two payloads have the same fingerprint exactly when tool, target and arguments agree as JSON. */
  lemma {:induction false} PayloadsDiffer(t: string, g: string, x: Value, t': string, g': string, x': Value)
    requires Good(x) && Good(x') && Canonical(x).Some? && Canonical(x').Some?
    ensures Good(PayloadSource(t, g, x)) && Canonical(PayloadSource(t, g, x)).Some?
    ensures Good(PayloadSource(t', g', x')) && Canonical(PayloadSource(t', g', x')).Some?
    ensures Canonical(PayloadSource(t, g, x)) == Canonical(PayloadSource(t', g', x')) <==>
      t == t' && g == g' && Same(x, x')
  {
    hide Good, Canonical, Same;
    var tag := "agent-payload-v1";
    Texts(tag, tag);
    Texts(t, t');
    Texts(g, g');
    Texts(t', t);
    Texts(g', g);
    FourOk(Str(tag), Str(t), Str(g), x);
    FourOk(Str(tag), Str(t'), Str(g'), x');
    FourSame(Str(tag), Str(t), Str(g), x, Str(tag), Str(t'), Str(g'), x');
    CanonicalDecides(PayloadSource(t, g, x), PayloadSource(t', g', x'));
  }
}
