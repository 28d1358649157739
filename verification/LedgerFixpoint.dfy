/** Validating an accepted ledger's own text again gives the same ledger and the same text. */
module LedgerFixpoint {
  import opened Options
  import opened Text
  import opened TextLines
  import opened XmlText
  import opened LedgerXml

  // ------------------------------------------------------------ clean lines

  /** Trimmed, not empty, and on one line. */
  predicate CleanLine(s: string) {
    s != "" && Trimmed(s) && forall k :: 0 <= k < |s| ==> s[k] !in LINE_BREAKS
  }

  predicate CleanLines(parts: seq<string>) {
    forall i :: 0 <= i < |parts| ==> CleanLine(parts[i])
  }

  lemma {:induction false} KeptIsClean(parts: seq<string>)
    requires forall i | 0 <= i < |parts| :: forall k | 0 <= k < |parts[i]| :: parts[i][k] !in LINE_BREAKS
    ensures CleanLines(Kept(parts))
    decreases |parts|
  {
    hide Trim;
    if parts != [] {
      KeptIsClean(parts[1..]);
      var p := parts[0];
      TrimIsTrimmed(p);
      var i, j :| 0 <= i <= j <= |p| && Trim(p) == p[i..j];
      assert forall k :: 0 <= k < |Trim(p)| ==> Trim(p)[k] == p[i + k];
    }
  }

  lemma {:induction false} KeptOfClean(parts: seq<string>)
    requires CleanLines(parts)
    ensures Kept(parts) == parts
    decreases |parts|
  {
    hide Trim;
    if parts != [] {
      assert CleanLine(parts[0]);
      TrimOfTrimmed(parts[0]);
      KeptOfClean(parts[1..]);
    }
  }

  lemma {:induction false} KeptConcat(a: seq<string>, b: seq<string>)
    ensures Kept(a + b) == Kept(a) + Kept(b)
    decreases |a|
  {
    hide Trim;
    if a == [] {
      assert a + b == b;
    } else {
      assert (a + b)[1..] == a[1..] + b;
      KeptConcat(a[1..], b);
    }
  }

  lemma {:induction false} SplitJoinedMore(parts: seq<string>)
    requires CleanLines(parts) && parts != []
    ensures Split(JoinLines(parts) + "\n", LINE_BREAKS) == parts + [""]
    decreases |parts|
  {
    hide Split;
    assert CleanLine(parts[0]);
    SplitOne("", LINE_BREAKS);
    if |parts| == 1 {
      SplitLine(parts[0], '\n', "", LINE_BREAKS);
      assert parts[0] + "\n" == parts[0] + ['\n'] + "";
      assert parts == [parts[0]];
    } else {
      var rest := JoinLines(parts[1..]) + "\n";
      SplitJoinedMore(parts[1..]);
      SplitLine(parts[0], '\n', rest, LINE_BREAKS);
      assert JoinLines(parts) + "\n" == parts[0] + ['\n'] + rest;
    }
  }

  /** Cleaning what a printed section holds gives the section back. */
  lemma {:induction false} CleanPadded(parts: seq<string>)
    requires CleanLines(parts) && parts != []
    ensures Clean("\n\n" + JoinLines(parts) + "\n") == JoinLines(parts)
  {
    hide Split, CleanLines, Trim;
    var body := JoinLines(parts) + "\n";
    SplitJoinedMore(parts);
    SplitLine("", '\n', body, LINE_BREAKS);
    SplitLine("", '\n', "" + ['\n'] + body, LINE_BREAKS);
    assert "\n\n" + JoinLines(parts) + "\n" == "" + ['\n'] + ("" + ['\n'] + body);
    KeptConcat(parts, [""]);
    KeptOfClean(parts);
    KeptEmpty();
    KeptConcat([""], [""] + (parts + [""]));
    KeptConcat([""], parts + [""]);
    var all := Split("" + ['\n'] + ("" + ['\n'] + body), LINE_BREAKS);
    assert all == [""] + ([""] + (parts + [""]));
    assert Kept(all) == [] + ([] + (parts + []));
    assert Kept(all) == parts;
  }

  lemma {:induction false} KeptEmpty()
    ensures Kept([""]) == []
  {
    assert Trim("") == "";
    assert [""][1..] == [];
  }

  lemma {:induction false} LinesJoined(parts: seq<string>)
    requires CleanLines(parts) && parts != []
    ensures Lines(JoinLines(parts)) == parts
  {
    hide JoinLines;
    forall i | 0 <= i < |parts| ensures WholeLine(parts[i]) {
      assert CleanLine(parts[i]);
      assert forall k | 0 <= k < |parts[i]| :: parts[i][k] !in LINE_BREAKS;
    }
    LinesOfJoined(parts);
  }

  /** What a cleaned section is made of. */
  lemma {:induction false} CleanParts(s: string) returns (parts: seq<string>)
    ensures CleanLines(parts) && Clean(s) == JoinLines(parts)
    ensures Clean(s) != "" ==> parts != []
  {
    hide CleanLines;
    parts := Kept(Split(s, LINE_BREAKS));
    KeptIsClean(Split(s, LINE_BREAKS));
  }

  /** A line of a section: not empty, no blanks around it, and none of the five characters that break lines. */
  predicate SectionLine(line: string) {
    line != "" && Trimmed(line) &&
    forall k :: 0 <= k < |line| ==>
      line[k] != '\n' && line[k] != '\r' && line[k] != '\U{85}' && line[k] != '\U{2028}' && line[k] != '\U{2029}'
  }

  /** Cleaning leaves such lines, with single newlines between them, whatever was read. */
  lemma {:induction false} CleanLeavesLines(s: string) returns (lines: seq<string>)
    ensures Clean(s) == JoinLines(lines) && forall i :: 0 <= i < |lines| ==> SectionLine(lines[i])
  {
    hide Kept, Split;
    lines := Kept(Split(s, LINE_BREAKS));
    KeptIsClean(Split(s, LINE_BREAKS));
    forall i | 0 <= i < |lines| ensures SectionLine(lines[i]) { assert CleanLine(lines[i]); }
  }

  /** A summary in a fence, plain or marked as XML or text, is taken out of it. */
  lemma {:induction false} FenceIsOpened(lang: string, body: string)
    requires LowerAll(Trim(lang)) in {"", "xml", "text"} && forall k :: 0 <= k < |lang| ==> lang[k] != '\n'
    requires Trimmed(body) && body != ""
    ensures StripFence("```" + lang + "\n" + body + "\n```") == body
  {
    hide Trim, TrimEnd, LowerAll, FirstOf, EndsWith;
    var after := body + "\n```";
    var rest := lang + ("\n" + after);
    var text := "```" + lang + "\n" + body + "\n```";
    FenceEnds(body, after);
    FenceCuts(lang, after, rest, text);
    TrimOfTrimmed(text);
    FirstOfAt(lang, "\n" + after, {'\n'});
  }

  lemma {:induction false} FenceCuts(lang: string, after: string, rest: string, text: string)
    requires rest == lang + ("\n" + after) && text == "```" + rest
    ensures text[..3] == "```" && text[3..] == rest && rest[..|lang|] == lang && rest[|lang| + 1..] == after
  {
  }

  lemma {:induction false} FenceEnds(body: string, after: string)
    requires Trimmed(body) && body != "" && after == body + "\n```"
    ensures TrimEnd(after) == after && EndsWith(after, "```") && Trim(after[..|after| - 3]) == body
  {
    hide Trim, TrimEnd;
    EndOfTrimmed(after);
    TrimLine(body);
    assert after[..|after| - 3] == body + "\n";
  }

  lemma {:induction false} EndOfTrimmed(s: string)
    requires s != "" && !IsSpace(s[|s| - 1])
    ensures TrimEnd(s) == s
  {
  }

  lemma {:induction false} TrimLine(body: string)
    requires Trimmed(body) && body != ""
    ensures Trim(body + "\n") == body
  {
    var s := body + "\n";
    assert s[0] == body[0] && s[..|s| - 1] == body;
    assert TrimStart(s) == s;
    EndOfTrimmed(body);
  }

  // ------------------------------------------------------------ characters that survive cleaning

  lemma {:induction false} SubXml(s: string, i: nat, j: nat)
    requires AllXml(s) && i <= j <= |s|
    ensures AllXml(s[i..j])
  {
  }

  predicate EachXml(parts: seq<string>) {
    forall i :: 0 <= i < |parts| ==> AllXml(parts[i])
  }

  lemma {:induction false} SplitXml(s: string, breaks: set<char>)
    requires AllXml(s)
    ensures EachXml(Split(s, breaks))
    decreases |s|
  {
    hide AllXml;
    var i := FirstOf(s, breaks);
    if i < |s| {
      SubXml(s, 0, i);
      SubXml(s, i + 1, |s|);
      assert s[0..i] == s[..i] && s[i + 1..|s|] == s[i + 1..];
      SplitXml(s[i + 1..], breaks);
    }
  }

  lemma {:induction false} KeptXml(parts: seq<string>)
    requires EachXml(parts)
    ensures EachXml(Kept(parts))
    decreases |parts|
  {
    hide AllXml, Trim;
    if parts != [] {
      KeptXml(parts[1..]);
      TrimIsTrimmed(parts[0]);
      var i, j :| 0 <= i <= j <= |parts[0]| && Trim(parts[0]) == parts[0][i..j];
      SubXml(parts[0], i, j);
    }
  }

  lemma {:induction false} JoinXml(parts: seq<string>)
    requires EachXml(parts)
    ensures AllXml(JoinLines(parts))
    decreases |parts|
  {
    hide AllXml;
    if parts == [] {
      assert AllXml("") by { NothingXml(); }
    } else if |parts| > 1 {
      JoinXml(parts[1..]);
      NothingXml();
      XmlConcat(parts[0], "\n");
      XmlConcat(parts[0] + "\n", JoinLines(parts[1..]));
    }
  }

  lemma {:induction false} NothingXml()
    ensures AllXml("") && AllXml("\n")
  {
  }

  lemma {:induction false} CleanXml(s: string)
    requires AllXml(s)
    ensures AllXml(Clean(s))
  {
    hide AllXml, EachXml;
    SplitXml(s, LINE_BREAKS);
    KeptXml(Split(s, LINE_BREAKS));
    JoinXml(Kept(Split(s, LINE_BREAKS)));
  }

  /** The parser only ever collects XML characters. */
  predicate StateXml(st: State) {
    AllXml(st.current) && forall name :: name in st.sections ==> AllXml(st.sections[name])
  }

  lemma {:induction false} TagXml(st: State, tag: string)
    requires StateXml(st) && Tag(st, tag).Ok?
    ensures StateXml(Tag(st, tag).value)
  {
    hide AllXml, ValidName, TrimEnd, SectionName;
    NothingXml();
    XmlConcat(st.current, "\n");
  }

  lemma {:induction false} ChunkXml(st: State, text: string)
    requires StateXml(st) && AllXml(text) && Chunk(st, text).Ok?
    ensures StateXml(Chunk(st, text).value)
  {
    hide AllXml, Trim, Unescape;
    if |st.stack| >= 2 {
      UnescapeKeepsXml(text);
      XmlConcat(st.current, Unescape(text).value);
    }
  }

  lemma {:induction false} ParseXml(st: State, rest: string)
    requires StateXml(st) && AllXml(rest) && ParseFrom(st, rest).Ok?
    ensures StateXml(ParseFrom(st, rest).value)
    decreases |rest|
  {
    hide AllXml, StateXml, Tag, Chunk;
    if rest != "" {
      if rest[0] == '<' {
        var end := FirstOf(rest, {'>'});
        TagXml(st, rest[1..end]);
        SubXml(rest, end + 1, |rest|);
        assert rest[end + 1..|rest|] == rest[end + 1..];
        ParseXml(Tag(st, rest[1..end]).value, rest[end + 1..]);
      } else {
        var end := FirstOf(rest, {'<'});
        SubXml(rest, 0, end);
        SubXml(rest, end, |rest|);
        assert rest[0..end] == rest[..end] && rest[end..|rest|] == rest[end..];
        ChunkXml(st, rest[..end]);
        ParseXml(Chunk(st, rest[..end]).value, rest[end..]);
      }
    }
  }

  /** The sections of an accepted summary: cleaned texts of XML characters. */
  lemma {:induction false} SectionsXml(proposal: string)
    requires Sections(proposal).Ok?
    ensures forall i | 0 <= i < 4 :: AllXml(Sections(proposal).value[i])
    ensures forall i | 0 <= i < 4 :: exists raw :: Sections(proposal).value[i] == Clean(raw)
  {
    hide AllXml, Clean, HasSub, Trim, ParseFrom, DropMarks, Normalize;
    var text := DropMarks(Normalize(proposal));
    TrimIsTrimmed(text);
    var i, j :| 0 <= i <= j <= |text| && Trim(text) == text[i..j];
    SubXml(text, i, j);
    StartXml();
    ParseXml(START, Trim(text));
    var s := ParseFrom(START, Trim(text)).value.sections;
    CleanXml(s[GOAL]);
    CleanXml(s[CLAIMS]);
    CleanXml(s[ENDS]);
    CleanXml(s[PIVOT]);
  }

  lemma {:induction false} StartXml()
    ensures StateXml(START)
  {
  }

  // ------------------------------------------------------------ parsing a printed document

  predicate PlainName(name: string) {
    name != "" && forall i :: 0 <= i < |name| ==> name[i] == '_' || 'A' <= name[i] <= 'Z'
  }

  lemma {:induction false} PlainNames()
    ensures PlainName(ROOT) && PlainName(GOAL) && PlainName(CLAIMS) && PlainName(ENDS) && PlainName(PIVOT)
  {
  }

  lemma {:induction false} DistinctNames()
    ensures GOAL != CLAIMS && GOAL != ENDS && GOAL != PIVOT && CLAIMS != ENDS && CLAIMS != PIVOT && ENDS != PIVOT
  {
    assert GOAL[0] == 'U' && CLAIMS[0] == 'G' && ENDS[0] == 'D' && PIVOT[0] == 'C';
  }

  lemma {:induction false} PlainIsValid(name: string)
    requires PlainName(name)
    ensures name != "" && ValidName(name) && TrimEnd(name) == name && name[0] != '/' && name[|name| - 1] != '/'
    ensures forall i :: 0 <= i < |name| ==> name[i] != '>'
  {
  }

  lemma {:induction false} TagStep(st: State, tag: string, more: string)
    requires forall i :: 0 <= i < |tag| ==> tag[i] != '>'
    ensures ParseFrom(st, "<" + (tag + ">") + more) ==
      if Tag(st, tag).Err? then Tag(st, tag) else ParseFrom(Tag(st, tag).value, more)
  {
    hide Tag, Chunk;
    var text := "<" + (tag + ">") + more;
    assert text == ("<" + tag) + (">" + more);
    FirstOfAt("<" + tag, ">" + more, {'>'});
    assert text[1..|tag| + 1] == tag && text[|tag| + 2..] == more;
  }

  lemma {:induction false} ChunkStep(st: State, text: string, more: string)
    requires text != "" && (forall i :: 0 <= i < |text| ==> text[i] != '<') && more != "" && more[0] == '<'
    ensures ParseFrom(st, text + more) ==
      if Chunk(st, text).Err? then Chunk(st, text) else ParseFrom(Chunk(st, text).value, more)
  {
    hide Tag, Chunk;
    FirstOfAt(text, more, {'<'});
    assert (text + more)[..|text|] == text && (text + more)[|text|..] == more;
    assert (text + more)[0] == text[0];
  }

  /** A state between two sections. */
  function Between(sections: map<string, string>): State {
    State([ROOT], sections, "", true)
  }

  lemma {:induction false} OpenSection(sections: map<string, string>, name: string)
    requires SectionName(name) && PlainName(name) && name !in sections
    ensures Tag(Between(sections), name) == Ok(State([ROOT, name], sections, "\n", true))
  {
    hide SectionName, ValidName, PlainName, TrimEnd;
    PlainIsValid(name);
    assert "" + "\n" == "\n" && [ROOT] + [name] == [ROOT, name];
  }

  lemma {:induction false} CloseSection(sections: map<string, string>, name: string, current: string)
    requires PlainName(name)
    ensures Tag(State([ROOT, name], sections, current, true), "/" + name) == Ok(Between(sections[name := current]))
  {
    hide ValidName, PlainName, TrimEnd;
    PlainIsValid(name);
    assert ("/" + name)[1..] == name;
    assert [ROOT, name][..1] == [ROOT];
  }

  lemma {:induction false} RootOpens()
    ensures Tag(START, ROOT) == Ok(Between(map[]))
  {
    PlainNames();
    hide ValidName, PlainName, TrimEnd, SectionName, CloseTag;
    PlainIsValid(ROOT);
    assert [] + [ROOT] == [ROOT];
  }

  lemma {:induction false} RootShuts(sections: map<string, string>)
    ensures Tag(Between(sections), "/" + ROOT) == Ok(State([], sections, "", true))
  {
    PlainNames();
    hide ValidName, PlainName, TrimEnd, SectionName, OpenTag;
    PlainIsValid(ROOT);
    assert ("/" + ROOT)[1..] == ROOT;
    assert [ROOT][..0] == [];
  }

  lemma {:induction false} PaddedContent(v: string)
    requires AllXml(v)
    ensures "\n" + Escape(v) + "\n" == Escape("\n" + v + "\n")
    ensures Unescape("\n" + Escape(v) + "\n") == Ok("\n" + v + "\n")
    ensures forall i :: 0 <= i < |"\n" + Escape(v) + "\n"| ==> ("\n" + Escape(v) + "\n")[i] != '<'
  {
    hide Escape, Unescape, AllXml;
    EscapeOne('\n');
    EscapeConcat("\n", v);
    EscapeConcat("\n" + v, "\n");
    NothingXml();
    XmlConcat("\n", v);
    XmlConcat("\n" + v, "\n");
    UnescapeInvertsEscape("\n" + v + "\n");
    EscapeIsSafe("\n" + v + "\n");
  }

  lemma {:induction false} InsideChunk(name: string, sections: map<string, string>, v: string)
    requires AllXml(v)
    ensures Chunk(State([ROOT, name], sections, "\n", true), "\n" + Escape(v) + "\n") ==
      Ok(State([ROOT, name], sections, "\n\n" + v + "\n", true))
  {
    hide Escape, Unescape, AllXml, Trim;
    PaddedContent(v);
    assert "\n" + ("\n" + v + "\n") == "\n\n" + v + "\n";
  }

  /** Parsing one printed section records its text and leaves the parser ready for the next. */
  lemma {:induction false} SectionStep(sections: map<string, string>, name: string, v: string, more: string)
    requires SectionName(name) && PlainName(name) && name !in sections && AllXml(v)
    ensures ParseFrom(Between(sections), Section(name, Escape(v)) + more) ==
      ParseFrom(Between(sections[name := "\n\n" + v + "\n"]), more)
  {
    hide Escape, Tag, Chunk, ParseFrom, SectionName, PlainName, AllXml, Between;
    var text := "\n" + Escape(v) + "\n";
    var closing := "<" + (("/" + name) + ">");
    assert Close(name) == closing;
    assert Section(name, Escape(v)) + more == Open(name) + (text + (closing + more));
    PlainIsValid(name);
    OpenSection(sections, name);
    TagStep(Between(sections), name, text + (closing + more));
    PaddedContent(v);
    InsideChunk(name, sections, v);
    ChunkStep(State([ROOT, name], sections, "\n", true), text, closing + more);
    CloseSection(sections, name, "\n\n" + v + "\n");
    assert forall i :: 0 <= i < |"/" + name| ==> ("/" + name)[i] != '>';
    TagStep(State([ROOT, name], sections, "\n\n" + v + "\n", true), "/" + name, more);
  }

  function Padded(v: string): string {
    "\n\n" + v + "\n"
  }

  function Parsed(g: string, a: string, b: string, c: string): map<string, string> {
    map[][GOAL := Padded(g)][CLAIMS := Padded(a)][ENDS := Padded(b)][PIVOT := Padded(c)]
  }

  lemma {:induction false} DocumentParses(g: string, a: string, b: string, c: string)
    requires AllXml(g) && AllXml(a) && AllXml(b) && AllXml(c)
    ensures ParseFrom(START, Document(Escape(g), Escape(a), Escape(b), Escape(c))) ==
      Ok(State([], Parsed(g, a, b, c), "", true))
  {
    hide Escape, Tag, Chunk, ParseFrom, PlainName, AllXml, Between, Section;
    PlainNames();
    DistinctNames();
    hide PlainName;
    var s4 := Close(ROOT);
    var s3 := Section(PIVOT, Escape(c)) + s4;
    var s2 := Section(ENDS, Escape(b)) + s3;
    var s1 := Section(CLAIMS, Escape(a)) + s2;
    var s0 := Section(GOAL, Escape(g)) + s1;
    PlainIsValid(ROOT);
    RootOpens();
    TagStep(START, ROOT, s0);
    var m0: map<string, string> := map[];
    var m1 := m0[GOAL := Padded(g)];
    var m2 := m1[CLAIMS := Padded(a)];
    var m3 := m2[ENDS := Padded(b)];
    SectionStep(m0, GOAL, g, s1);
    SectionStep(m1, CLAIMS, a, s2);
    SectionStep(m2, ENDS, b, s3);
    SectionStep(m3, PIVOT, c, s4);
    RootCloses(Parsed(g, a, b, c));
  }

  lemma {:induction false} RootCloses(sections: map<string, string>)
    ensures ParseFrom(Between(sections), Close(ROOT)) == Ok(State([], sections, "", true))
  {
    PlainNames();
    hide Tag, PlainName;
    PlainIsValid(ROOT);
    RootShuts(sections);
    var closing := "<" + (("/" + ROOT) + ">");
    assert Close(ROOT) == closing + "";
    assert forall i :: 0 <= i < |"/" + ROOT| ==> ("/" + ROOT)[i] != '>';
    TagStep(Between(sections), "/" + ROOT, "");
  }

  lemma {:induction false} ParsedIsComplete(g: string, a: string, b: string, c: string)
    ensures Complete(State([], Parsed(g, a, b, c), "", true))
    ensures Parsed(g, a, b, c)[GOAL] == Padded(g) && Parsed(g, a, b, c)[CLAIMS] == Padded(a)
    ensures Parsed(g, a, b, c)[ENDS] == Padded(b) && Parsed(g, a, b, c)[PIVOT] == Padded(c)
  {
    DistinctNames();
    hide Padded;
    var m0: map<string, string> := map[];
    var m1 := m0[GOAL := Padded(g)];
    var m2 := m1[CLAIMS := Padded(a)];
    var m3 := m2[ENDS := Padded(b)];
    assert |m1| == 1 && |m2| == 2 && |m3| == 3;
  }

  // ------------------------------------------------------------ line ends

  predicate NoReturn(s: string) {
    forall i :: 0 <= i < |s| ==> s[i] != '\r'
  }

  lemma {:induction false} ReturnConcat(a: string, b: string)
    requires NoReturn(a) && NoReturn(b)
    ensures NoReturn(a + b)
  {
  }

  lemma {:induction false} NormalizeNone(s: string)
    requires NoReturn(s)
    ensures Normalize(s) == s
    decreases |s|
  {
    if s != "" { NormalizeNone(s[1..]); }
  }

  /** What one step of normalizing puts first, and how much it takes. */
  function Lead(s: string): (r: (string, nat))
    requires s != ""
    ensures 1 <= r.1 <= |s|
  {
    if s[0] != '\r' then ([s[0]], 1) else ("\n", if |s| > 1 && s[1] == '\n' then 2 else 1)
  }

  lemma {:induction false} NormalizeStep(s: string)
    requires s != ""
    ensures Normalize(s) == Lead(s).0 + Normalize(s[Lead(s).1..])
  {
  }

  lemma {:induction false} LeadOfConcat(a: string, b: string)
    requires a != "" && a[|a| - 1] != '\r'
    ensures Lead(a + b) == Lead(a) && (a + b)[Lead(a).1..] == a[Lead(a).1..] + b
    ensures a[Lead(a).1..] == "" || a[Lead(a).1..][|a[Lead(a).1..]| - 1] != '\r'
  {
  }

  lemma {:induction false} NormalizeBoth(a: string, b: string)
    requires a != "" && a[|a| - 1] != '\r'
    ensures Normalize(a) == Lead(a).0 + Normalize(a[Lead(a).1..])
    ensures Normalize(a + b) == Lead(a).0 + Normalize(a[Lead(a).1..] + b)
  {
    hide Normalize, Lead;
    LeadOfConcat(a, b);
    NormalizeStep(a);
    NormalizeStep(a + b);
  }

  lemma {:induction false} Associates(a: string, b: string, c: string)
    ensures a + (b + c) == a + b + c
  {
  }

  lemma {:induction false} NormalizeConcat(a: string, b: string)
    requires a == "" || a[|a| - 1] != '\r'
    ensures Normalize(a + b) == Normalize(a) + Normalize(b)
    decreases |a|
  {
    hide Normalize, Lead;
    if a == "" {
      NormalizeNothing();
      assert a + b == b && "" + Normalize(b) == Normalize(b);
    } else {
      LeadOfConcat(a, b);
      NormalizeConcat(a[Lead(a).1..], b);
      NormalizeBoth(a, b);
      Associates(Lead(a).0, Normalize(a[Lead(a).1..]), Normalize(b));
    }
  }

  lemma {:induction false} NormalizeNothing()
    ensures Normalize("") == ""
  {
  }

  lemma {:induction false} NormalizeChar(c: char, rest: string)
    requires c != '\r'
    ensures Normalize(EscapeChar(c) + rest) == EscapeChar(c) + Normalize(rest)
  {
    NormalizeConcat(EscapeChar(c), rest);
    NormalizeNone(EscapeChar(c));
  }

  lemma {:induction false} EscapeReturn(s: string)
    ensures Escape("\r" + s) == "\r" + Escape(s)
    ensures Escape("\n" + s) == "\n" + Escape(s)
  {
    hide Escape;
    EscapeConcat("\r", s);
    EscapeConcat("\n", s);
    EscapeOne('\r');
    EscapeOne('\n');
  }

  lemma {:induction false} EscapeHead(s: string)
    ensures s != "" ==> Escape(s) != "" && (Escape(s)[0] == '\n' <==> s[0] == '\n')
    ensures s == "" ==> Escape(s) == ""
  {
    if s != "" {
      hide Escape;
      EscapeStep(s);
    }
  }

  /** Normalising line ends and escaping do not interfere. */
  lemma {:induction false} NormalizeEscape(s: string)
    ensures Normalize(Escape(s)) == Escape(Normalize(s))
    decreases |s|
  {
    hide Escape;
    if s == "" {
      EscapeHead(s);
    } else if s[0] != '\r' {
      NormalizeEscape(s[1..]);
      EscapeStep(s);
      NormalizeChar(s[0], Escape(s[1..]));
      assert Normalize(s)[1..] == Normalize(s[1..]);
      EscapeStep(Normalize(s));
    } else {
      NormalizeReturn(s);
    }
  }

  lemma {:induction false} NormalizeReturn(s: string)
    requires s != "" && s[0] == '\r'
    ensures Normalize(Escape(s)) == Escape(Normalize(s))
    decreases |s|, 0
  {
    hide Escape;
    var rest := if |s| > 1 && s[1] == '\n' then s[2..] else s[1..];
    NormalizeEscape(rest);
    EscapeReturn(Normalize(rest));
    EscapeReturn(s[1..]);
    EscapeReturn(rest);
    EscapeHead(s[1..]);
    assert s == "\r" + s[1..];
    if rest != s[1..] { assert s[1..] == "\n" + rest; }
    var e := Escape(s[1..]);
    assert Escape(s) == "\r" + e;
    assert ("\r" + e)[1..] == e;
    if rest != s[1..] { assert ("\r" + e)[2..] == Escape(rest); }
  }

  lemma {:induction false} NormalizeXml(s: string)
    ensures AllXml(Normalize(s)) <==> AllXml(s)
    decreases |s|
  {
    hide AllXml;
    if s != "" {
      assert AllXml("\r") && AllXml("\n") by { LineEndsXml(); }
      var k := if s[0] == '\r' && |s| > 1 && s[1] == '\n' then 2 else 1;
      var head := if s[0] == '\r' then "\n" else [s[0]];
      NormalizeXml(s[k..]);
      XmlConcat(s[..k], s[k..]);
      XmlConcat(head, Normalize(s[k..]));
      assert s == s[..k] + s[k..];
      assert AllXml(s[..k]) <==> AllXml(head) by {
        if k == 2 {
          XmlConcat("\r", "\n");
          assert s[..k] == "\r" + "\n";
        } else {
          assert s[..k] == [s[0]];
          if s[0] == '\r' { assert s[..k] == "\r"; }
        }
      }
    } else {
      NothingXml();
    }
  }

  lemma {:induction false} LineEndsXml()
    ensures AllXml("\r") && AllXml("\n")
  {
  }

  // ------------------------------------------------------------ a printed document is safe to parse

  /** Every angle bracket belongs to a tag. */
  predicate TagsOnly(s: string) {
    (forall i :: 0 <= i < |s| && s[i] == '>' ==> i > 0 && s[i - 1] != ']') &&
    (forall i :: 0 <= i < |s| && s[i] == '<' ==> i + 1 < |s| && s[i + 1] != '!' && s[i + 1] != '?')
  }

  lemma {:induction false} TagsConcat(a: string, b: string)
    requires TagsOnly(a) && TagsOnly(b)
    ensures TagsOnly(a + b)
  {
    var s := a + b;
    forall i | 0 <= i < |s| && s[i] == '>' ensures i > 0 && s[i - 1] != ']' {
      if i < |a| { assert a[i] == '>'; } else { assert b[i - |a|] == '>'; }
    }
    forall i | 0 <= i < |s| && s[i] == '<' ensures i + 1 < |s| && s[i + 1] != '!' && s[i + 1] != '?' {
      if i < |a| { assert a[i] == '<'; } else { assert b[i - |a|] == '<'; }
    }
  }

  lemma {:induction false} TagsSafe(s: string)
    requires TagsOnly(s)
    ensures !HasSub(s, "]]>") && !HasSub(s, "<!") && !HasSub(s, "<?")
  {
    forall i: nat ensures !SubAt(s, i, "]]>") && !SubAt(s, i, "<!") && !SubAt(s, i, "<?") {
      NotSubAt(s, i);
    }
  }

  lemma {:induction false} NotSubAt(s: string, i: nat)
    requires TagsOnly(s)
    ensures !SubAt(s, i, "]]>") && !SubAt(s, i, "<!") && !SubAt(s, i, "<?")
  {
    if i + 3 <= |s| { assert s[i..i + 3][2] == s[i + 2] && s[i..i + 3][1] == s[i + 1]; }
    if i + 2 <= |s| { assert s[i..i + 2][0] == s[i] && s[i..i + 2][1] == s[i + 1]; }
  }

  lemma {:induction false} TagIsSafe(name: string)
    requires PlainName(name)
    ensures TagsOnly(Open(name)) && TagsOnly(Close(name))
    ensures AllXml(Open(name)) && AllXml(Close(name)) && NoReturn(Open(name)) && NoReturn(Close(name))
  {
  }

  lemma {:induction false} ContentIsSafe(v: string)
    ensures TagsOnly("\n" + Escape(v) + "\n")
    ensures AllXml("\n" + Escape(v) + "\n") <==> AllXml(v)
  {
    hide Escape, AllXml;
    EscapeIsSafe(v);
    assert AllXml("\n") by { LineEndsXml(); }
    XmlConcat("\n", Escape(v));
    XmlConcat("\n" + Escape(v), "\n");
  }

  lemma {:induction false} SectionIsSafe(name: string, v: string, more: string)
    requires PlainName(name) && TagsOnly(more)
    ensures TagsOnly(Section(name, Escape(v)) + more)
    ensures AllXml(Section(name, Escape(v)) + more) <==> AllXml(v) && AllXml(more)
  {
    hide Escape, AllXml, TagsOnly, Open, Close, PlainName;
    var text := "\n" + Escape(v) + "\n";
    TagIsSafe(name);
    ContentIsSafe(v);
    TagsConcat(Open(name), text);
    TagsConcat(Open(name) + text, Close(name));
    TagsConcat(Section(name, Escape(v)), more);
    XmlConcat(Open(name), text);
    XmlConcat(Open(name) + text, Close(name));
    XmlConcat(Section(name, Escape(v)), more);
  }

  lemma {:induction false} DocumentIsSafe(g: string, a: string, b: string, c: string)
    requires AllXml(a) && AllXml(b) && AllXml(c)
    ensures TagsOnly(Document(Escape(g), Escape(a), Escape(b), Escape(c)))
    ensures AllXml(Document(Escape(g), Escape(a), Escape(b), Escape(c))) <==> AllXml(g)
  {
    hide Escape, AllXml, TagsOnly, Open, Close, PlainName, Section;
    PlainNames();
    TagIsSafe(ROOT);
    var s4 := Close(ROOT);
    var s3 := Section(PIVOT, Escape(c)) + s4;
    var s2 := Section(ENDS, Escape(b)) + s3;
    var s1 := Section(CLAIMS, Escape(a)) + s2;
    var s0 := Section(GOAL, Escape(g)) + s1;
    SectionIsSafe(PIVOT, c, s4);
    SectionIsSafe(ENDS, b, s3);
    SectionIsSafe(CLAIMS, a, s2);
    SectionIsSafe(GOAL, g, s1);
    TagsConcat(Open(ROOT), s0);
    XmlConcat(Open(ROOT), s0);
  }

  // ------------------------------------------------------------ normalising a printed document

  lemma {:induction false} EscapeNoReturn(s: string)
    requires NoReturn(s)
    ensures NoReturn(Escape(s))
    decreases |s|
  {
    hide Escape;
    if s == "" {
      EscapeHead(s);
    } else {
      EscapeStep(s);
      EscapeNoReturn(s[1..]);
    }
  }

  lemma {:induction false} SectionNoReturn(name: string, v: string, more: string)
    requires PlainName(name) && NoReturn(v) && NoReturn(more)
    ensures NoReturn(Section(name, v) + more)
  {
    hide NoReturn, PlainName, Open, Close;
    TagIsSafe(name);
    assert NoReturn("\n") by { NewlineNoReturn(); }
    ReturnConcat("\n", v);
    ReturnConcat("\n" + v, "\n");
    ReturnConcat(Open(name), "\n" + v + "\n");
    ReturnConcat(Open(name) + ("\n" + v + "\n"), Close(name));
    ReturnConcat(Section(name, v), more);
  }

  lemma {:induction false} NewlineNoReturn()
    ensures NoReturn("\n")
  {
  }

  lemma {:induction false} EscapeEnd(s: string)
    requires s != "" && !IsSpace(s[|s| - 1])
    ensures Escape(s) != "" && Escape(s)[|Escape(s)| - 1] != '\r'
  {
    hide Escape;
    var front, last := s[..|s| - 1], s[|s| - 1];
    assert s == front + [last];
    EscapeConcat(front, [last]);
    EscapeOne(last);
  }

  /** Only the goal can hold carriage returns; normalising the text normalises the goal. */
  lemma {:induction false} NormalizeDocument(g: string, a: string, b: string, c: string)
    requires Trimmed(g) && NoReturn(a) && NoReturn(b) && NoReturn(c)
    ensures Normalize(Document(Escape(g), a, b, c)) == Document(Escape(Normalize(g)), a, b, c)
  {
    hide Escape, NoReturn, PlainName, Normalize, Open, Close;
    PlainNames();
    TagIsSafe(ROOT);
    TagIsSafe(GOAL);
    assert NoReturn("\n") by { NewlineNoReturn(); }
    var rest := Section(CLAIMS, a) + (Section(ENDS, b) + (Section(PIVOT, c) + Close(ROOT)));
    SectionNoReturn(PIVOT, c, Close(ROOT));
    SectionNoReturn(ENDS, b, Section(PIVOT, c) + Close(ROOT));
    SectionNoReturn(CLAIMS, a, Section(ENDS, b) + (Section(PIVOT, c) + Close(ROOT)));
    hide Section;
    var front := Open(ROOT) + (Open(GOAL) + "\n");
    var back := "\n" + (Close(GOAL) + rest);
    ReturnConcat(Open(GOAL), "\n");
    ReturnConcat(Open(ROOT), Open(GOAL) + "\n");
    ReturnConcat(Close(GOAL), rest);
    ReturnConcat("\n", Close(GOAL) + rest);
    DocumentSplits(Escape(g), a, b, c);
    DocumentSplits(Escape(Normalize(g)), a, b, c);
    NormalizeAround(front, g, back);
  }

  lemma {:induction false} DocumentSplits(g: string, a: string, b: string, c: string)
    ensures var rest := Section(CLAIMS, a) + (Section(ENDS, b) + (Section(PIVOT, c) + Close(ROOT)));
      Document(g, a, b, c) == (Open(ROOT) + (Open(GOAL) + "\n")) + (g + ("\n" + (Close(GOAL) + rest)))
  {
    hide Open, Close;
    var rest := Section(CLAIMS, a) + (Section(ENDS, b) + (Section(PIVOT, c) + Close(ROOT)));
    var o, p, q := Open(ROOT), Open(GOAL), Close(GOAL);
    assert Document(g, a, b, c) == o + ((p + ("\n" + g + "\n") + q) + rest);
    Reassociate(o, p, g, q, rest);
  }

  lemma {:induction false} Reassociate(o: string, p: string, g: string, q: string, rest: string)
    ensures o + ((p + ("\n" + g + "\n") + q) + rest) == (o + (p + "\n")) + (g + ("\n" + (q + rest)))
  {
  }

  lemma {:induction false} NormalizeAround(front: string, g: string, back: string)
    requires Trimmed(g) && NoReturn(front) && NoReturn(back)
    ensures Normalize(front + (Escape(g) + back)) == front + (Escape(Normalize(g)) + back)
  {
    hide Escape, Normalize;
    if g == "" { EscapeHead(g); } else { EscapeEnd(g); }
    NormalizeConcat(front, Escape(g) + back);
    NormalizeConcat(Escape(g), back);
    NormalizeNone(front);
    NormalizeNone(back);
    NormalizeEscape(g);
  }

  // ------------------------------------------------------------ the fixpoint

  /** A printed document begins with `<`, ends with `>` and so needs no trimming. */
  lemma {:induction false} DocumentEnds(g: string, a: string, b: string, c: string)
    ensures var d := Document(g, a, b, c);
      d != "" && d[0] == '<' && Trim(d) == d && DropMarks(d) == d && StripFence(d) == d
  {
    var d := Document(g, a, b, c);
    var mid := Section(GOAL, g) + (Section(CLAIMS, a) + (Section(ENDS, b) + Section(PIVOT, c)));
    hide Section, Trim;
    assert d == Open(ROOT) + mid + "</" + ROOT + ">";
    assert d[0] == Open(ROOT)[0] == '<' && d[|d| - 1] == '>';
    TrimOfTrimmed(d);
    if |d| >= 3 { assert d[..3][0] == '<'; }
  }

  predicate LinesOf(s: string, parts: seq<string>) {
    CleanLines(parts) && parts != [] && s == JoinLines(parts)
  }

  lemma {:induction false} CleanNoReturn(s: string, parts: seq<string>)
    requires LinesOf(s, parts)
    ensures NoReturn(s)
    decreases |parts|
  {
    assert CleanLine(parts[0]);
    assert NoReturn(parts[0]);
    if |parts| > 1 {
      CleanNoReturn(JoinLines(parts[1..]), parts[1..]);
      NewlineNoReturn();
      ReturnConcat(parts[0], "\n");
      ReturnConcat(parts[0] + "\n", JoinLines(parts[1..]));
    }
  }

  /** Reading a printed document gives the three reflective sections back, if the goal is XML, and nothing otherwise. */
  lemma {:induction false} SectionsOfDocument(g: string, a: string, b: string, c: string,
                                              pa: seq<string>, pb: seq<string>, pc: seq<string>)
    requires Trimmed(g) && AllXml(a) && AllXml(b) && AllXml(c)
    requires LinesOf(a, pa) && LinesOf(b, pb) && LinesOf(c, pc)
    ensures var r := Sections(Document(Escape(g), Escape(a), Escape(b), Escape(c)));
      (r.Ok? <==> AllXml(g)) && (r.Ok? ==> r.value[1..] == [a, b, c])
  {
    hide Escape, AllXml, Document, HasSub, Trim, DropMarks, Normalize, ParseFrom, Clean, Parsed, LinesOf, Complete, NoReturn;
    var n := Normalize(g);
    CleanNoReturn(a, pa);
    CleanNoReturn(b, pb);
    CleanNoReturn(c, pc);
    EscapeNoReturn(a);
    EscapeNoReturn(b);
    EscapeNoReturn(c);
    NormalizeDocument(g, Escape(a), Escape(b), Escape(c));
    NormalizeXml(g);
    var d := Document(Escape(n), Escape(a), Escape(b), Escape(c));
    DocumentEnds(Escape(n), Escape(a), Escape(b), Escape(c));
    DocumentIsSafe(n, a, b, c);
    TagsSafe(d);
    if AllXml(n) {
      DocumentParses(n, a, b, c);
      ParsedIsComplete(n, a, b, c);
      CleanBack(a, pa);
      CleanBack(b, pb);
      CleanBack(c, pc);
    }
  }

  lemma {:induction false} CleanBack(s: string, parts: seq<string>)
    requires LinesOf(s, parts)
    ensures Clean(Padded(s)) == s && Lines(s) == parts && OrNone(Lines(s)) == s
  {
    hide Clean, Lines, JoinLines;
    CleanPadded(parts);
    LinesJoined(parts);
  }

  lemma {:induction false} PartsOf(s: string) returns (parts: seq<string>)
    requires Trim(s) != "" && exists raw :: s == Clean(raw)
    ensures LinesOf(s, parts)
  {
    var raw :| s == Clean(raw);
    hide Clean;
    parts := CleanParts(raw);
    assert s != "";
  }

  /** Validating the text of an accepted ledger again, with the same goal, source and limit, gives the same ledger and
      the same text, exactly when the goal consists of XML characters. */
  lemma {:induction false} LedgerFixpoint(proposal: string, goal: string, source: string, limit: nat, known: NumberCheck)
    requires Validate(proposal, goal, source, limit, known).Ok?
    ensures var first := Validate(proposal, goal, source, limit, known);
      var again := Validate(first.value.1, goal, source, limit, known);
      (again.Ok? <==> AllXml(Trim(goal))) && (again.Ok? ==> again == first)
  {
    hide Sections, AllXml, Trim, Clean, Lines, Utf8Length, Document, Escape, LinesOf, OrNone, StripFence;
    var parsed := Sections(StripFence(proposal));
    SectionsXml(StripFence(proposal));
    var a, b, c := parsed.value[1], parsed.value[2], parsed.value[3];
    var pa := PartsOf(a);
    var pb := PartsOf(b);
    var pc := PartsOf(c);
    CleanBack(a, pa);
    CleanBack(b, pb);
    var g := Trim(goal);
    TrimIsTrimmed(goal);
    var text := Document(Escape(g), Escape(a), Escape(b), Escape(c));
    DocumentEnds(Escape(g), Escape(a), Escape(b), Escape(c));
    SectionsOfDocument(g, a, b, c, pa, pb, pc);
  }

  /** Neither blank nor an ellipsis. */
  predicate Populated(section: string) {
    Trim(section) != "" && Trim(section) != "..." && Trim(section) != "\U{2026}"
  }

  /** A summary is accepted exactly if it is not blank and within the limit, is such a document, its three reflective
      sections say something, it brings in no new number, and the ledger printed is within the limit too; the ledger has
      the caller's goal and source and the lines of those sections. */
  lemma {:induction false} ValidatedIff(proposal: string, goal: string, source: string, limit: nat, known: NumberCheck)
    ensures var parsed := Sections(StripFence(proposal));
      Validate(proposal, goal, source, limit, known).Ok? <==>
        Trim(proposal) != "" && Utf8Length(proposal) <= limit && parsed.Ok? && Trim(Trim(goal)) != "" &&
        Populated(parsed.value[1]) && Populated(parsed.value[2]) && Populated(parsed.value[3]) &&
        known(Trim(goal) + "\n" + parsed.value[1] + "\n" + parsed.value[2] + "\n" + parsed.value[3], source) &&
        Utf8Length(Render(Ledger(goal, Lines(parsed.value[1]), Lines(parsed.value[2]), parsed.value[3], source))) <= limit
    ensures Validate(proposal, goal, source, limit, known).Ok? ==>
      var (ledger, text) := Validate(proposal, goal, source, limit, known).value;
      var parsed := Sections(StripFence(proposal)).value;
      ledger == Ledger(goal, Lines(parsed[1]), Lines(parsed[2]), parsed[3], source) && text == Render(ledger)
  {
    hide Trim, Sections, StripFence, Utf8Length, Render, Lines;
  }

  lemma {:induction false} Letter(c: char)
    requires 'a' <= c <= 'z'
    ensures LinesOf([c], [[c]]) && Escape([c]) == [c]
    ensures AllXml([c]) && Trim([c]) == [c] && !Placeholder([c])
  {
    hide Trim, Escape, Placeholder, EscapeChar;
    LetterTrims(c);
    LetterPlain(c);
    EscapeOne(c);
    assert CleanLine([c]);
    assert CleanLines([[c]]) && JoinLines([[c]]) == [c];
  }

  lemma {:induction false} LetterTrims(c: char)
    requires 'a' <= c <= 'z'
    ensures Trimmed([c]) && Trim([c]) == [c] && !Placeholder([c])
  {
    hide Trim;
    TrimOfTrimmed([c]);
    assert [c][0] != '.' && [c][0] != '\U{2026}';
  }

  lemma {:induction false} LetterPlain(c: char)
    requires 'a' <= c <= 'z'
    ensures EscapeChar(c) == [c] && XmlChar(c) && c !in LINE_BREAKS
  {
  }

  /** Every number is taken to be known. */
  predicate Anything(text: string, source: string) {
    true
  }

  /** A document with one-letter sections is accepted for any goal that is not blank. */
  lemma {:induction false} LettersAccepted(goal: string, source: string) returns (proposal: string, limit: nat)
    requires Trim(goal) != "" && Trim(Trim(goal)) != ""
    ensures Validate(proposal, goal, source, limit, Anything).Ok?
  {
    hide Sections, Judge, AllXml, Trim, Lines, Utf8Length, Document, Escape, LinesOf, StripFence, Render, Placeholder;
    Letter('a');
    Letter('b');
    Letter('c');
    Letter('g');
    var a, b, c := ['a'], ['b'], ['c'];
    proposal := Document(['g'], a, b, c);
    limit := Utf8Length(proposal) + Utf8Length(Render(Ledger(goal, Lines(a), Lines(b), c, source)));
    DocumentEnds(['g'], a, b, c);
    SectionsOfDocument(['g'], a, b, c, [a], [b], [c]);
    var parts := Sections(proposal).value;
    assert parts[1..] == [a, b, c];
    assert parts[1] == parts[1..][0] && parts[2] == parts[1..][1] && parts[3] == parts[1..][2];
    Judged(Trim(goal), a, b, c, goal, source, limit);
  }

  lemma {:induction false} Judged(trimmed: string, a: string, b: string, c: string, goal: string, source: string,
                                  limit: nat)
    requires !Placeholder(a) && !Placeholder(b) && !Placeholder(c)
    requires Trim(trimmed) != "" && Trim(a) != "" && Trim(b) != "" && Trim(c) != ""
    requires Utf8Length(Render(Ledger(goal, Lines(a), Lines(b), c, source))) <= limit
    ensures Judge(trimmed, a, b, c, goal, source, limit, Anything).Ok?
  {
    hide Trim, Lines, Utf8Length, Render, Placeholder;
  }

  lemma {:induction false} ControlIsNotXml(c: char)
    requires c < '\t'
    ensures Trim([c]) == [c] && !AllXml([c])
  {
    hide Trim;
    var goal := [c];
    assert Trimmed(goal);
    TrimOfTrimmed(goal);
    assert !XmlChar(goal[0]);
  }

  /** The condition on the goal matters: a control character, which a request can carry, is accepted as a goal, and
      the text that validation returns for it is refused. */
  lemma {:induction false} ControlGoalIsRefused(source: string) returns (proposal: string, goal: string, limit: nat)
    ensures var first := Validate(proposal, goal, source, limit, Anything);
      first.Ok? && Validate(first.value.1, goal, source, limit, Anything).Err?
  {
    hide Validate, Trim, AllXml;
    goal := ['\U{1}'];
    ControlIsNotXml('\U{1}');
    proposal, limit := LettersAccepted(goal, source);
    LedgerFixpoint(proposal, goal, source, limit, Anything);
  }
}
