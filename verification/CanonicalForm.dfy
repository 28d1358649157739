/** What a canonical text is, told without the printer: a compact JSON text of the value with its members in order. */
module CanonicalForm {
  import opened Options
  import opened Text
  import opened Decimal
  import opened Numerals
  import opened Json
  import opened KeyOrder
  import opened CanonicalText
  import opened CanonicalJson

  // ------------------------------------------------------------ strings, as section 7 of RFC 8259 reads them

  function HexValue(c: char): Option<nat> {
    if '0' <= c <= '9' then Some(c as int - '0' as int)
    else if 'a' <= c <= 'f' then Some(c as int - 'a' as int + 10)
    else if 'A' <= c <= 'F' then Some(c as int - 'A' as int + 10) else None
  }

  /** The character a pair of a backslash and this character stands for. */
  function Short(c: char): Option<char> {
    if c == '"' then Some('"') else if c == '\\' then Some('\\') else if c == '/' then Some('/')
    else if c == 'b' then Some('\U{8}') else if c == 'f' then Some('\U{c}') else if c == 'n' then Some('\n')
    else if c == 'r' then Some('\r') else if c == 't' then Some('\t') else None
  }

  /** Four hexadecimal digits after a backslash and a `u`; halves of surrogate pairs are left out. */
  function Coded(t: string): Option<char> {
    if |t| < 6 then None
    else
      var a, b, c, d := HexValue(t[2]), HexValue(t[3]), HexValue(t[4]), HexValue(t[5]);
      if a.None? || b.None? || c.None? || d.None? then None
      else
        var n := ((a.value * 16 + b.value) * 16 + c.value) * 16 + d.value;
        if n < 0xd800 || 0xe000 <= n < 0x1_0000 then Some(n as char) else None
  }

  /** The first character of a string's body, and how much of the text it takes. */
  function FirstOfBody(t: string): (r: Option<(char, nat)>)
    ensures r.Some? ==> 1 <= r.value.1 <= |t|
  {
    if t == "" || t[0] == '"' || t[0] < ' ' then None
    else if t[0] != '\\' then Some((t[0], 1))
    else if |t| < 2 then None
    else if t[1] == 'u' then if Coded(t).Some? then Some((Coded(t).value, 6)) else None
    else if Short(t[1]).Some? then Some((Short(t[1]).value, 2)) else None
  }

  /** The string that a body between quotes stands for. */
  function Decode(t: string): Option<string>
    decreases |t|
  {
    if t == "" then Some("")
    else
      var first := FirstOfBody(t);
      if first.None? then None
      else
        var rest := Decode(t[first.value.1..]);
        if rest.None? then None else Some([first.value.0] + rest.value)
  }

  /** The shortest way to write a character inside a string. */
  function SizeOf(c: char): nat {
    if c == '"' || c == '\\' || c == '\U{8}' || c == '\U{c}' || c == '\n' || c == '\r' || c == '\t' then 2
    else if c < ' ' then 6 else 1
  }

  function SizesOf(s: string): nat {
    if s == "" then 0 else SizeOf(s[0]) + SizesOf(s[1..])
  }

  lemma {:induction false} HexReads(v: nat)
    requires v < 16
    ensures HexValue(Hex(v)) == Some(v)
  {
  }

  lemma {:induction false} EscapeReads(c: char, rest: string)
    ensures FirstOfBody(Escape(c) + rest) == Some((c, |Escape(c)|)) && |Escape(c)| == SizeOf(c)
  {
    var t := Escape(c) + rest;
    if SizeOf(c) == 6 {
      HexReads(c as int / 16);
      HexReads(c as int % 16);
      CodedReads(c, t);
    } else if SizeOf(c) == 2 {
      assert t[0] == '\\' && t[1] == Escape(c)[1];
    } else {
      assert t[0] == c;
    }
  }

  lemma {:induction false} CodedReads(c: char, t: string)
    requires c < ' ' && |t| >= 6 && t[2] == '0' && t[3] == '0'
    requires HexValue(t[4]) == Some(c as int / 16) && HexValue(t[5]) == Some(c as int % 16)
    ensures Coded(t) == Some(c)
  {
  }

  /** A quoted string is read as itself, and is as short as can be. */
  lemma {:induction false} BodyReads(s: string)
    ensures Decode(Body(s)) == Some(s) && |Body(s)| == SizesOf(s)
    decreases |s|
  {
    hide Escape, FirstOfBody, SizeOf;
    if s != "" {
      var t := Body(s);
      EscapeReads(s[0], Body(s[1..]));
      BodyReads(s[1..]);
      assert t[|Escape(s[0])|..] == Body(s[1..]);
      assert s == [s[0]] + s[1..];
    }
  }

  /** A string in quotes that stands for `s`, written as short as can be. */
  predicate IsQuoted(s: string, t: string) {
    |t| == SizesOf(s) + 2 && t[0] == '"' && t[|t| - 1] == '"' && Decode(t[1..|t| - 1]) == Some(s)
  }

  lemma {:induction false} QuoteIsQuoted(s: string)
    ensures IsQuoted(s, Quote(s))
  {
    hide Decode, Body, SizesOf;
    BodyReads(s);
    assert Quote(s)[1..|Quote(s)| - 1] == Body(s);
  }

  // ------------------------------------------------------------ values

  /** Parts with a comma between neighbours. */
  function Commas(parts: seq<string>): string {
    if parts == [] then "" else if |parts| == 1 then parts[0] else parts[0] + "," + Commas(parts[1..])
  }

  lemma {:induction false} JoinIsCommas(parts: seq<string>)
    ensures Join(parts) == Commas(parts)
    decreases |parts|
  {
    if |parts| > 1 {
      JoinIsCommas(parts[1..]);
      assert CanonicalJson.Tail(parts[1..]) == "," + Join(parts[1..]);
      assert parts[0] + ("," + Commas(parts[1..])) == parts[0] + "," + Commas(parts[1..]);
    } else if |parts| == 1 {
      assert CanonicalJson.Tail(parts[1..]) == "";
    }
  }

  /** A printed member: the quoted key, a colon, the text of the value. */
  datatype Field = Field(key: string, quoted: string, text: string)

  function FieldTexts(fields: seq<Field>): (r: seq<string>)
    ensures |r| == |fields| && forall i :: 0 <= i < |r| ==> r[i] == fields[i].quoted + ":" + fields[i].text
  {
    seq(|fields|, i requires 0 <= i < |fields| => fields[i].quoted + ":" + fields[i].text)
  }

  /** The fields are quoted and in increasing order of their keys. */
  predicate InOrder(fields: seq<Field>) {
    (forall i :: 0 <= i < |fields| ==> IsQuoted(fields[i].key, fields[i].quoted)) &&
    forall i, j :: 0 <= i < j < |fields| ==> Less(fields[i].key, fields[j].key)
  }

  /** The text is a compact JSON text of the value: literals, strings as short as can be, a numeral that denotes the number,
      items in their order, members in the order of their keys, and nothing in between. */
  ghost predicate IsText(v: Value, t: string)
    decreases v, 0
  {
    match v
    case Null => t == "null"
    case Bool(flag) => t == if flag then "true" else "false"
    case Str(text) => IsQuoted(text, t)
    case Num(n) => GoodNumber(n) && Parse(t).Some? && Decimal.Value(Parse(t).value) == Decimal.Value(n.parts)
    case Arr(items) => exists parts: seq<string> :: t == "[" + Commas(parts) + "]" && AreTexts(items, parts)
    case Obj(members) =>
      exists fields: seq<Field> :: t == "{" + Commas(FieldTexts(fields)) + "}" && InOrder(fields) && AreFields(members, fields)
  }

  ghost predicate AreTexts(items: seq<Value>, parts: seq<string>)
    decreases items, 1
  {
    |parts| == |items| && forall i :: 0 <= i < |items| ==> IsText(items[i], parts[i])
  }

  ghost predicate AreFields(members: seq<Member>, fields: seq<Field>)
    decreases members, 1
  {
    |fields| == |members| &&
    forall k :: 0 <= k < |members| ==> Written(members[k], fields)
  }

  ghost predicate Written(m: Member, fields: seq<Field>)
    decreases m, 1
  {
    exists i :: 0 <= i < |fields| && fields[i].key == m.key && IsText(m.value, fields[i].text)
  }

  function FieldsOf(es: seq<Entry>): (r: seq<Field>)
    ensures |r| == |es| && forall i :: 0 <= i < |r| ==> r[i] == Field(es[i].key, Quote(es[i].key), es[i].text)
  {
    seq(|es|, i requires 0 <= i < |es| => Field(es[i].key, Quote(es[i].key), es[i].text))
  }

  lemma {:induction false} FieldsInOrder(es: seq<Entry>)
    requires SortedEntries(es)
    ensures InOrder(FieldsOf(es)) && FieldTexts(FieldsOf(es)) == EntryTexts(es)
  {
    hide Less, Quote, IsQuoted;
    forall i | 0 <= i < |es| ensures IsQuoted(es[i].key, Quote(es[i].key)) { QuoteIsQuoted(es[i].key); }
  }

  lemma {:induction false} KeysToEntries(members: seq<Member>, es: seq<Entry>)
    requires DistinctKeys(members) && |es| == |members|
    requires forall i :: 0 <= i < |es| ==> es[i].key == members[i].key
    ensures DistinctEntries(es)
  {
  }

  /** The canonical text of a value is such a text of it. */
  lemma {:induction false} CanonicalIsText(v: Value)
    requires Good(v) && Canonical(v).Some?
    ensures IsText(v, Canonical(v).value)
    decreases v
  {
    hide Commas, Join, Sort, Quote, IsQuoted, InOrder, EntryTexts, FieldTexts, NumberText, Parse, Decimal.Value;
    match v {
      case Str(text) => QuoteIsQuoted(text);
      case Num(n) => NumberTextDenotes(n);
      case Arr(items) =>
        var parts := CanonicalItems(items).value;
        forall i | 0 <= i < |items| ensures IsText(items[i], parts[i]) {
          assert Canonical(items[i]) == Some(parts[i]);
          CanonicalIsText(items[i]);
        }
        JoinIsCommas(parts);
        assert Canonical(v).value == "[" + Commas(parts) + "]";
      case Obj(members) =>
        var es := CanonicalMembers(members).value;
        KeysToEntries(members, es);
        SortSorts(es);
        SortKeeps(es);
        SameMembers(Sort(es), es);
        var fields := FieldsOf(Sort(es));
        FieldsInOrder(Sort(es));
        JoinIsCommas(FieldTexts(fields));
        forall k | 0 <= k < |members| ensures Written(members[k], fields) {
          assert Canonical(members[k].value) == Some(es[k].text);
          CanonicalIsText(members[k].value);
          assert es[k] in Sort(es);
          var i :| 0 <= i < |es| && Sort(es)[i] == es[k];
          assert fields[i].key == members[k].key && fields[i].text == es[k].text;
        }
        assert Canonical(v).value == "{" + Commas(FieldTexts(fields)) + "}";
      case _ => {}
    }
  }
}
