/** XML character data: which characters are allowed, escaping and unescaping. */
module XmlText {
  import opened Options
  import opened Text

  datatype Result<+T> = Ok(value: T) | Err(reason: string)

  /** The characters section 2.2 of XML 1.0 allows. */
  predicate XmlChar(c: char) {
    c == '\t' || c == '\n' || c == '\r' || ('\U{20}' <= c <= '\U{d7ff}') || ('\U{e000}' <= c <= '\U{fffd}') ||
    c >= '\U{10000}'
  }

  predicate AllXml(s: string) {
    forall i :: 0 <= i < |s| ==> XmlChar(s[i])
  }

  lemma {:induction false} XmlConcat(a: string, b: string)
    ensures AllXml(a + b) <==> AllXml(a) && AllXml(b)
  {
    if AllXml(a + b) {
      assert forall i :: 0 <= i < |a| ==> a[i] == (a + b)[i];
      assert forall i :: 0 <= i < |b| ==> b[i] == (a + b)[|a| + i];
    }
  }

  // ------------------------------------------------------------ escaping

  function ReplaceAll(s: string, c: char, with: string): string {
    if s == "" then "" else (if s[0] == c then with else [s[0]]) + ReplaceAll(s[1..], c, with)
  }

  /** Three replacements one after the other; the ampersand must come first. */
  function Escape(s: string): string {
    ReplaceAll(ReplaceAll(ReplaceAll(s, '&', "&amp;"), '<', "&lt;"), '>', "&gt;")
  }

  function EscapeChar(c: char): string {
    if c == '&' then "&amp;" else if c == '<' then "&lt;" else if c == '>' then "&gt;" else [c]
  }

  lemma {:induction false} ReplaceConcat(a: string, b: string, c: char, with: string)
    ensures ReplaceAll(a + b, c, with) == ReplaceAll(a, c, with) + ReplaceAll(b, c, with)
    decreases |a|
  {
    if a == "" {
      assert a + b == b;
    } else {
      assert (a + b)[1..] == a[1..] + b;
      ReplaceConcat(a[1..], b, c, with);
    }
  }

  lemma {:induction false} ReplaceOne(x: char, c: char, with: string)
    ensures ReplaceAll([x], c, with) == if x == c then with else [x]
  {
    assert ReplaceAll([x][1..], c, with) == "";
  }

  /** Text without the character is not changed. */
  lemma {:induction false} ReplaceNone(s: string, c: char, with: string)
    requires forall i :: 0 <= i < |s| ==> s[i] != c
    ensures ReplaceAll(s, c, with) == s
    decreases |s|
  {
    if s != "" { ReplaceNone(s[1..], c, with); }
  }

  lemma {:induction false} EscapeOne(c: char)
    ensures Escape([c]) == EscapeChar(c)
  {
    ReplaceOne(c, '&', "&amp;");
    if c == '&' {
      ReplaceNone("&amp;", '<', "&lt;");
      ReplaceNone("&amp;", '>', "&gt;");
    } else {
      ReplaceOne(c, '<', "&lt;");
      if c == '<' { ReplaceNone("&lt;", '>', "&gt;"); } else { ReplaceOne(c, '>', "&gt;"); }
    }
  }

  /** Done in that order, the replacements escape character by character. */
  lemma {:induction false} EscapeConcat(a: string, b: string)
    ensures Escape(a + b) == Escape(a) + Escape(b)
  {
    hide ReplaceAll;
    var x, y := ReplaceAll(a, '&', "&amp;"), ReplaceAll(b, '&', "&amp;");
    ReplaceConcat(a, b, '&', "&amp;");
    ReplaceConcat(x, y, '<', "&lt;");
    ReplaceConcat(ReplaceAll(x, '<', "&lt;"), ReplaceAll(y, '<', "&lt;"), '>', "&gt;");
  }

  lemma {:induction false} EscapeStep(s: string)
    requires s != ""
    ensures Escape(s) == EscapeChar(s[0]) + Escape(s[1..])
  {
    hide Escape;
    assert s == [s[0]] + s[1..];
    EscapeConcat([s[0]], s[1..]);
    EscapeOne(s[0]);
  }

  // ------------------------------------------------------------ unescaping

  const MAX_U32: int := 0xffff_ffff

  predicate HexDigit(c: char) {
    IsDigit(c) || 'a' <= c <= 'f' || 'A' <= c <= 'F'
  }

  function DigitIn(c: char): nat
    requires HexDigit(c)
  {
    if IsDigit(c) then c as int - '0' as int
    else if 'a' <= c <= 'f' then c as int - 'a' as int + 10 else c as int - 'A' as int + 10
  }

  function Accumulate(s: string, radix: nat): nat
    requires forall i :: 0 <= i < |s| ==> HexDigit(s[i])
  {
    if s == "" then 0 else Accumulate(s[..|s| - 1], radix) * radix + DigitIn(s[|s| - 1])
  }

  /** Unsigned 32-bit parsing: an optional plus sign, then digits. */
  function ParseU32(s: string, radix: nat): Option<nat> {
    var digits := if s != "" && s[0] == '+' then s[1..] else s;
    if digits == "" || exists i | 0 <= i < |digits| :: !(HexDigit(digits[i]) && DigitIn(digits[i]) < radix) then None
    else
      var n := Accumulate(digits, radix);
      if n <= MAX_U32 then Some(n) else None
  }

  function CharOf(n: nat): Option<char> {
    if n < 0xd800 || 0xe000 <= n <= 0x10ffff then Some(n as char) else None
  }

  function Numeric(s: string, radix: nat): Option<char> {
    var n := ParseU32(s, radix);
    if n.None? then None else CharOf(n.value)
  }

  /** The character an entity or character reference stands for. */
  function Entity(name: string): Option<char> {
    if name == "amp" then Some('&') else if name == "lt" then Some('<') else if name == "gt" then Some('>')
    else if name == "quot" then Some('"') else if name == "apos" then Some('\'')
    else if |name| >= 2 && name[..2] == "#x" then Numeric(name[2..], 16)
    else if |name| >= 1 && name[0] == '#' then Numeric(name[1..], 10)
    else None
  }

  function Prepend(front: string, r: Result<string>): Result<string> {
    if r.Err? then r else Ok(front + r.value)
  }

  /** The character a reference denotes, and the text after it; `tail` is what follows the ampersand. */
  function Reference(tail: string): (r: Option<(char, string)>)
    ensures r.Some? ==> |r.value.1| < |tail| && XmlChar(r.value.0)
  {
    var end := FirstOf(tail, {';'});
    if end == |tail| then None
    else
      var c := Entity(tail[..end]);
      if c.None? || !XmlChar(c.value) then None else Some((c.value, tail[end + 1..]))
  }

  function Unescape(s: string): Result<string>
    decreases |s|
  {
    var i := FirstOf(s, {'&'});
    if i == |s| then Ok(s)
    else
      var found := Reference(s[i + 1..]);
      if found.None? then Err("invalid XML reference")
      else Prepend(s[..i] + [found.value.0], Unescape(found.value.1))
  }

  lemma {:induction false} PrependTwice(a: string, b: string, r: Result<string>)
    ensures Prepend(a, Prepend(b, r)) == Prepend(a + b, r)
  {
    if r.Ok? { assert a + (b + r.value) == (a + b) + r.value; }
  }

  method XmlUnescape(value: string) returns (r: Result<string>)
    ensures r == Unescape(value)
  {
    hide FirstOf, Reference, Prepend;
    assert Prepend("", Unescape(value)) == Unescape(value) by { PrependNothing(Unescape(value)); }
    var output, rest := "", value;
    while true
      invariant Prepend(output, Unescape(rest)) == Unescape(value)
      decreases |rest|
    {
      var i := FirstOf(rest, {'&'});
      if i == |rest| { return Prepend(output, Ok(rest)); }
      var found := Reference(rest[i + 1..]);
      if found.None? {
        PrependErr(output, "invalid XML reference");
        return Err("invalid XML reference");
      }
      var (c, after) := found.value;
      PrependTwice(output, rest[..i] + [c], Unescape(after));
      output, rest := output + (rest[..i] + [c]), after;
    }
  }

  lemma {:induction false} UnescapePlain(c: char, s: string)
    requires c != '&'
    ensures Unescape([c] + s) == Prepend([c], Unescape(s))
  {
    hide Reference, Prepend;
    var i := FirstOf(s, {'&'});
    assert [c] + s == ([c] + s[..i]) + s[i..];
    FirstOfAt([c] + s[..i], s[i..], {'&'});
    if i < |s| {
      assert ([c] + s)[i + 2..] == s[i + 1..];
      assert ([c] + s)[..i + 1] == [c] + s[..i];
      var found := Reference(s[i + 1..]);
      if found.Some? {
        assert ([c] + s[..i]) + [found.value.0] == [c] + (s[..i] + [found.value.0]);
        PrependTwice([c], s[..i] + [found.value.0], Unescape(found.value.1));
      } else {
        PrependErr([c], "invalid XML reference");
      }
    } else {
      PrependOk([c], s);
    }
  }

  lemma {:induction false} PrependOk(a: string, b: string)
    ensures Prepend(a, Ok(b)) == Ok(a + b)
  {
  }

  lemma {:induction false} PrependErr(a: string, reason: string)
    ensures Prepend(a, Err(reason)) == Err(reason)
  {
  }

  lemma {:induction false} PrependNothing(r: Result<string>)
    ensures Prepend("", r) == r
  {
    if r.Ok? { assert "" + r.value == r.value; }
  }

  lemma {:induction false} ReferenceHere(name: string, c: char, s: string)
    requires Entity(name) == Some(c) && XmlChar(c) && forall i :: 0 <= i < |name| ==> name[i] != ';'
    ensures Reference(name + (";" + s)) == Some((c, s))
  {
    hide Entity, FirstOf;
    var tail := name + (";" + s);
    FirstOfAt(name, ";" + s, {';'});
    assert tail[..|name|] == name && tail[|name| + 1..] == s;
  }

  lemma {:induction false} UnescapeEntity(name: string, c: char, s: string)
    requires Entity(name) == Some(c) && XmlChar(c) && forall i :: 0 <= i < |name| ==> name[i] != ';'
    ensures Unescape("&" + name + ";" + s) == Prepend([c], Unescape(s))
  {
    hide Entity, FirstOf, Prepend, Reference;
    var text := "&" + name + ";" + s;
    FirstOfAt("", text, {'&'});
    assert "" + text == text;
    ReferenceHere(name, c, s);
    assert text[1..] == name + (";" + s);
    assert text[..0] + [c] == [c];
  }

  // ------------------------------------------------------------ what references denote

  function DigitChar(d: nat): (c: char)
    requires d < 16
    ensures HexDigit(c) && DigitIn(c) == d
  {
    if d < 10 then ('0' as int + d) as char else ('a' as int + d - 10) as char
  }

  predicate KnownRadix(radix: nat) {
    radix == 10 || radix == 16
  }

  function Front(n: nat, radix: nat): (r: nat)
    requires KnownRadix(radix)
    ensures n >= radix ==> r < n
  {
    if radix == 10 then n / 10 else n / 16
  }

  function Last(n: nat, radix: nat): (r: nat)
    requires KnownRadix(radix)
    ensures r < radix && r < 16
  {
    if radix == 10 then n % 10 else n % 16
  }

  lemma {:induction false} FrontAndLast(n: nat, radix: nat)
    requires KnownRadix(radix)
    ensures Front(n, radix) * radix + Last(n, radix) == n
  {
    if radix == 10 {
      assert Front(n, 10) * 10 + Last(n, 10) == n;
    } else {
      assert Front(n, 16) * 16 + Last(n, 16) == n;
    }
  }

  /** A number written with decimal or hexadecimal digits. */
  function Digits(n: nat, radix: nat): (s: string)
    requires KnownRadix(radix)
    ensures s != "" && forall i :: 0 <= i < |s| ==> HexDigit(s[i]) && DigitIn(s[i]) < radix
    decreases n
  {
    if n < radix then [DigitChar(n)] else Digits(Front(n, radix), radix) + [DigitChar(Last(n, radix))]
  }

  lemma {:induction false} DigitsRead(n: nat, radix: nat)
    requires KnownRadix(radix)
    ensures Accumulate(Digits(n, radix), radix) == n
    decreases n
  {
    hide DigitIn, HexDigit, Front, Last;
    var s := Digits(n, radix);
    if n < radix {
      assert s[..|s| - 1] == "" && s[|s| - 1] == DigitChar(n);
    } else {
      var front := Digits(Front(n, radix), radix);
      DigitsRead(Front(n, radix), radix);
      FrontAndLast(n, radix);
      assert s[..|s| - 1] == front && s[|s| - 1] == DigitChar(Last(n, radix));
    }
  }

  /** Digits denote the character with the number they write, whatever its size; only surrogates and numbers beyond the
      last character denote none. */
  lemma {:induction false} NumericIs(s: string, radix: nat, c: char)
    requires s != "" && forall i :: 0 <= i < |s| ==> HexDigit(s[i]) && DigitIn(s[i]) < radix
    ensures Numeric(s, radix) == Some(c) <==> Accumulate(s, radix) == c as int
  {
    hide Accumulate;
    assert s[0] != '+';
  }

  /** Every character has its decimal and its hexadecimal reference. */
  lemma {:induction false} NumberedReferences(c: char)
    ensures Entity(['#'] + Digits(c as int, 10)) == Some(c)
    ensures Entity(['#', 'x'] + Digits(c as int, 16)) == Some(c)
  {
    hide Numeric;
    var d, h := Digits(c as int, 10), Digits(c as int, 16);
    DigitsRead(c as int, 10);
    DigitsRead(c as int, 16);
    NumericIs(d, 10, c);
    NumericIs(h, 16, c);
    HashIsNumeric(d, h);
  }

  lemma {:induction false} HashIsNumeric(d: string, h: string)
    requires d != "" && d[0] != 'x'
    ensures Entity(['#'] + d) == Numeric(d, 10) && Entity(['#', 'x'] + h) == Numeric(h, 16)
  {
    hide Numeric;
    var n, x := ['#'] + d, ['#', 'x'] + h;
    assert n[1..] == d && x[2..] == h && x[..2] == "#x";
    assert n[0] == '#' && x[0] == '#' && n[..2][1] == d[0];
  }

  lemma {:induction false} NamedReferences()
    ensures Entity("amp") == Some('&') && Entity("lt") == Some('<') && Entity("gt") == Some('>')
    ensures Entity("quot") == Some('\U{22}') && Entity("apos") == Some('\U{27}')
  {
  }

  /** In a text, either reference is read as its character. */
  lemma {:induction false} ReferencesUnescape(c: char, s: string)
    requires XmlChar(c)
    ensures Unescape("&" + (['#'] + Digits(c as int, 10)) + ";" + s) == Prepend([c], Unescape(s))
    ensures Unescape("&" + (['#', 'x'] + Digits(c as int, 16)) + ";" + s) == Prepend([c], Unescape(s))
  {
    hide Unescape, Prepend, Entity, Digits;
    NumberedReferences(c);
    UnescapeEntity(['#'] + Digits(c as int, 10), c, s);
    UnescapeEntity(['#', 'x'] + Digits(c as int, 16), c, s);
  }

  lemma {:induction false} UnescapeChar(c: char, s: string)
    requires XmlChar(c)
    ensures Unescape(EscapeChar(c) + s) == Prepend([c], Unescape(s))
  {
    hide Unescape, Prepend;
    if c == '&' {
      assert "&" + "amp" + ";" == "&amp;";
      UnescapeEntity("amp", c, s);
    } else if c == '<' {
      assert "&" + "lt" + ";" == "&lt;";
      UnescapeEntity("lt", c, s);
    } else if c == '>' {
      assert "&" + "gt" + ";" == "&gt;";
      UnescapeEntity("gt", c, s);
    } else {
      UnescapePlain(c, s);
    }
  }

  /** Unescaping undoes escaping on every text of XML characters. */
  lemma {:induction false} UnescapeInvertsEscape(s: string)
    requires AllXml(s)
    ensures Unescape(Escape(s)) == Ok(s)
    decreases |s|
  {
    hide EscapeChar;
    if s != "" {
      hide Unescape, Escape;
      EscapeStep(s);
      UnescapeInvertsEscape(s[1..]);
      UnescapeChar(s[0], Escape(s[1..]));
      assert s == [s[0]] + s[1..];
    }
  }

  lemma {:induction false} ReferenceRest(tail: string)
    requires Reference(tail).Some? && AllXml(tail)
    ensures AllXml(Reference(tail).value.1)
  {
  }

  /** One reference of an accepted text. */
  lemma {:induction false} UnescapeStep(s: string) returns (front: string, c: char, after: string)
    requires FirstOf(s, {'&'}) < |s| && Unescape(s).Ok? && AllXml(s)
    ensures AllXml(front) && XmlChar(c) && AllXml(after) && |after| < |s|
    ensures Unescape(after).Ok? && Unescape(s).value == front + [c] + Unescape(after).value
  {
    hide Reference, AllXml;
    var i := FirstOf(s, {'&'});
    front, c, after := s[..i], Reference(s[i + 1..]).value.0, Reference(s[i + 1..]).value.1;
    XmlConcat(s[..i], s[i..]);
    XmlConcat(s[..i + 1], s[i + 1..]);
    assert s == s[..i] + s[i..] && s == s[..i + 1] + s[i + 1..];
    ReferenceRest(s[i + 1..]);
  }

  /** Only XML characters come out of unescaping XML characters. */
  lemma {:induction false} UnescapeKeepsXml(s: string)
    requires AllXml(s) && Unescape(s).Ok?
    ensures AllXml(Unescape(s).value)
    decreases |s|
  {
    if FirstOf(s, {'&'}) < |s| {
      hide Unescape, FirstOf;
      var front, c, after := UnescapeStep(s);
      UnescapeKeepsXml(after);
      XmlConcat(front, [c]);
      XmlConcat(front + [c], Unescape(after).value);
    }
  }

  lemma {:induction false} EscapedChar(c: char)
    ensures forall i :: 0 <= i < |EscapeChar(c)| ==> EscapeChar(c)[i] != '<' && EscapeChar(c)[i] != '>'
    ensures AllXml(EscapeChar(c)) <==> AllXml([c])
  {
    assert [c][0] == c;
  }

  /** Escaped text has no markup in it, and holds the same characters otherwise. */
  lemma {:induction false} EscapeIsSafe(s: string)
    ensures forall i :: 0 <= i < |Escape(s)| ==> Escape(s)[i] != '<' && Escape(s)[i] != '>'
    ensures AllXml(Escape(s)) <==> AllXml(s)
    decreases |s|
  {
    hide EscapeChar;
    if s != "" {
      hide Escape, AllXml;
      EscapeStep(s);
      EscapeIsSafe(s[1..]);
      EscapedChar(s[0]);
      XmlConcat(EscapeChar(s[0]), Escape(s[1..]));
      XmlConcat([s[0]], s[1..]);
      assert s == [s[0]] + s[1..];
    }
  }
}
