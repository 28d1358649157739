/** The compaction ledger: parsing a proposed summary, validating it and printing it. */
module LedgerXml {
  import opened Options
  import opened Text
  import opened TextLines
  import opened XmlText

  // ------------------------------------------------------------ lines

  function Kept(parts: seq<string>): seq<string> {
    if parts == [] then [] else (if Trim(parts[0]) == "" then [] else [Trim(parts[0])]) + Kept(parts[1..])
  }

  const LINE_BREAKS: set<char> := {'\n', '\r', '\U{85}', '\U{2028}', '\U{2029}'}

  /** The lines of a section, trimmed, without the empty ones. */
  function Clean(s: string): string {
    JoinLines(Kept(Split(s, LINE_BREAKS)))
  }

  // ------------------------------------------------------------ parsing

  const ROOT: string := "COMPACTED_STATE"
  const GOAL: string := "USER_GOAL"
  const CLAIMS: string := "GLOBAL_LESSON_LEDGER"
  const ENDS: string := "DEAD_ENDS"
  const PIVOT: string := "CURRENT_LOCAL_PIVOT"

  predicate SectionName(name: string) {
    name == GOAL || name == CLAIMS || name == ENDS || name == PIVOT
  }

  predicate NameStart(c: char) {
    c == '_' || 'A' <= c <= 'Z' || 'a' <= c <= 'z' || '\U{c0}' <= c <= '\U{d6}' || '\U{d8}' <= c <= '\U{f6}' ||
    '\U{f8}' <= c <= '\U{2ff}' || '\U{370}' <= c <= '\U{37d}' || '\U{37f}' <= c <= '\U{1fff}' ||
    '\U{200c}' <= c <= '\U{200d}' || '\U{2070}' <= c <= '\U{218f}' || '\U{2c00}' <= c <= '\U{2fef}' ||
    '\U{3001}' <= c <= '\U{d7ff}' || '\U{f900}' <= c <= '\U{fdcf}' || '\U{fdf0}' <= c <= '\U{fffd}' ||
    '\U{10000}' <= c <= '\U{effff}'
  }

  predicate NameChar(c: char) {
    NameStart(c) || c == '-' || c == '.' || IsDigit(c) || c == '\U{b7}' || '\U{300}' <= c <= '\U{36f}' ||
    '\U{203f}' <= c <= '\U{2040}'
  }

  predicate ValidName(name: string) {
    name != "" && NameStart(name[0]) && forall i :: 0 <= i < |name| ==> NameChar(name[i])
  }

  datatype State = State(stack: seq<string>, sections: map<string, string>, current: string, rootSeen: bool)

  function Pop(stack: seq<string>): seq<string> {
    if stack == [] then [] else stack[..|stack| - 1]
  }

  /** Inside a section a tag counts as a line break. */
  function Broken(st: State): State {
    if |st.stack| >= 2 then st.(current := st.current + "\n") else st
  }

  function CloseTag(st: State, name: string): Result<State> {
    if st.stack == [] || st.stack[|st.stack| - 1] != name then Err("mismatched XML tag")
    else
      var left := Pop(st.stack);
      Ok(if |left| == 1 then State(left, st.sections[name := st.current], "", st.rootSeen) else st.(stack := left))
  }

  function OpenTag(st: State, name: string, closed: bool): Result<State> {
    if !ValidName(name) then Err("XML attributes or invalid tags")
    else if st.stack == [] && (st.rootSeen || name != ROOT) then Err("invalid summary root")
    else if |st.stack| == 1 && (!SectionName(name) || name in st.sections) then
      Err("invalid or duplicate summary section")
    else
      var inside := State(st.stack + [name], st.sections, st.current, true);
      Ok(if !closed then inside
         else if |st.stack| == 1 then inside.(stack := st.stack, sections := st.sections[name := ""])
         else inside.(stack := st.stack))
  }

  function Tag(st: State, tag: string): Result<State> {
    var closed := tag != "" && tag[|tag| - 1] == '/';
    var next := if tag != "" && tag[0] == '/' then CloseTag(st, TrimEnd(tag[1..]))
                else OpenTag(st, TrimEnd(if closed then tag[..|tag| - 1] else tag), closed);
    if next.Err? then next else Ok(Broken(next.value))
  }

  function Chunk(st: State, text: string): Result<State> {
    if |st.stack| >= 2 then
      var plain := Unescape(text);
      if plain.Err? then Err(plain.reason) else Ok(st.(current := st.current + plain.value))
    else if Trim(text) != "" then Err("text outside summary section")
    else Ok(st)
  }

  function ParseFrom(st: State, rest: string): Result<State>
    decreases |rest|
  {
    if rest == "" then Ok(st)
    else if rest[0] == '<' then
      var end := FirstOf(rest, {'>'});
      if end == |rest| then Err("incomplete XML tag")
      else
        var next := Tag(st, rest[1..end]);
        if next.Err? then next else ParseFrom(next.value, rest[end + 1..])
    else
      var end := FirstOf(rest, {'<'});
      var next := Chunk(st, rest[..end]);
      if next.Err? then next else ParseFrom(next.value, rest[end..])
  }

  /** Line ends become single newlines. */
  function Normalize(s: string): string
    decreases |s|
  {
    if s == "" then ""
    else if s[0] != '\r' then [s[0]] + Normalize(s[1..])
    else "\n" + Normalize(if |s| > 1 && s[1] == '\n' then s[2..] else s[1..])
  }

  function DropMarks(s: string): string {
    if s != "" && s[0] == '\U{feff}' then DropMarks(s[1..]) else s
  }

  predicate SubAt(s: string, i: nat, part: string) {
    i + |part| <= |s| && s[i..i + |part|] == part
  }

  predicate HasSub(s: string, part: string) {
    exists i | 0 <= i <= |s| - |part| :: SubAt(s, i, part)
  }

  const START: State := State([], map[], "", false)

  predicate Complete(st: State) {
    st.rootSeen && st.stack == [] && |st.sections| == 4 &&
    GOAL in st.sections && CLAIMS in st.sections && ENDS in st.sections && PIVOT in st.sections
  }

  /** The four sections of a summary, cleaned. */
  function Sections(proposal: string): (r: Result<seq<string>>)
    ensures r.Ok? ==> |r.value| == 4
  {
    var text := DropMarks(Normalize(proposal));
    if HasSub(text, "]]>") then Err("invalid XML character sequence")
    else if !AllXml(text) then Err("invalid XML character")
    else if HasSub(text, "<!") || HasSub(text, "<?") then Err("XML declarations and comments are forbidden")
    else
      var parsed := ParseFrom(START, Trim(text));
      if parsed.Err? then Err(parsed.reason)
      else if !Complete(parsed.value) then Err("incomplete summary XML")
      else
        var s := parsed.value.sections;
        Ok([Clean(s[GOAL]), Clean(s[CLAIMS]), Clean(s[ENDS]), Clean(s[PIVOT])])
  }

  /** The parser's loop, over its stack and buffers. */
  method ParseXmlSections(proposal: string) returns (r: Result<seq<string>>)
    ensures r == Sections(proposal)
  {
    hide Clean, Trim, AllXml, HasSub, DropMarks, Normalize, Tag, Chunk;
    var text := DropMarks(Normalize(proposal));
    if HasSub(text, "]]>") { return Err("invalid XML character sequence"); }
    if !AllXml(text) { return Err("invalid XML character"); }
    if HasSub(text, "<!") || HasSub(text, "<?") { return Err("XML declarations and comments are forbidden"); }
    var st, rest := START, Trim(text);
    while rest != ""
      invariant ParseFrom(st, rest) == ParseFrom(START, Trim(text))
      decreases |rest|
    {
      var next, end;
      if rest[0] == '<' {
        end := FirstOf(rest, {'>'});
        if end == |rest| { return Err("incomplete XML tag"); }
        next := Tag(st, rest[1..end]);
        end := end + 1;
      } else {
        end := FirstOf(rest, {'<'});
        next := Chunk(st, rest[..end]);
      }
      if next.Err? { return Err(next.reason); }
      st, rest := next.value, rest[end..];
    }
    if !Complete(st) { return Err("incomplete summary XML"); }
    return Ok([Clean(st.sections[GOAL]), Clean(st.sections[CLAIMS]), Clean(st.sections[ENDS]),
               Clean(st.sections[PIVOT])]);
  }

  // ------------------------------------------------------------ printing and validating

  /** The digest of the source stands for the source itself. */
  datatype Ledger = Ledger(goal: string, claims: seq<string>, deadEnds: seq<string>, hypothesis: string, source: string)

  function Open(name: string): string {
    "<" + (name + ">")
  }

  function Close(name: string): string {
    "</" + (name + ">")
  }

  function Section(name: string, content: string): string {
    Open(name) + ("\n" + content + "\n") + Close(name)
  }

  /** Four sections inside the root, their contents already escaped. */
  function Document(goal: string, claims: string, ends: string, pivot: string): string {
    Open(ROOT) + (Section(GOAL, goal) + (Section(CLAIMS, claims) + (Section(ENDS, ends) +
      (Section(PIVOT, pivot) + Close(ROOT)))))
  }

  function OrNone(lines: seq<string>): string {
    if lines == [] then "- None." else JoinLines(lines)
  }

  function Render(l: Ledger): string {
    Document(Escape(Trim(l.goal)), Escape(OrNone(l.claims)), Escape(OrNone(l.deadEnds)), Escape(l.hypothesis))
  }

  function Utf8Length(s: string): nat {
    if s == "" then 0
    else
      var c := s[0];
      (if c < '\U{80}' then 1 else if c < '\U{800}' then 2 else if c < '\U{10000}' then 3 else 4) + Utf8Length(s[1..])
  }

  function Lower(c: char): char {
    if 'A' <= c <= 'Z' then (c as int + 32) as char else c
  }

  function LowerAll(s: string): string {
    if s == "" then "" else [Lower(s[0])] + LowerAll(s[1..])
  }

  predicate EndsWith(s: string, part: string) {
    |part| <= |s| && s[|s| - |part|..] == part
  }

  /** A summary may come inside a code fence. */
  function StripFence(proposal: string): string {
    var text := Trim(proposal);
    if |text| < 3 || text[..3] != "```" then text
    else
      var rest := text[3..];
      var eol := FirstOf(rest, {'\n'});
      if eol == |rest| || LowerAll(Trim(rest[..eol])) !in {"", "xml", "text"} then text
      else
        var body := TrimEnd(rest[eol + 1..]);
        if EndsWith(body, "```") then Trim(body[..|body| - 3]) else text
  }

  predicate Placeholder(s: string) {
    Trim(s) == "..." || Trim(s) == "\U{2026}"
  }

  /** Whether every number in the first text occurs in the second is left open. */
  type NumberCheck = (string, string) -> bool

  function Validate(proposal: string, goal: string, source: string, limit: nat, known: NumberCheck)
    : Result<(Ledger, string)>
  {
    if Trim(proposal) == "" then Err("summary is empty")
    else if Utf8Length(proposal) > limit then Err("summary exceeds ledger byte budget")
    else
      var parsed := Sections(StripFence(proposal));
      if parsed.Err? then Err(parsed.reason)
      else Judge(Trim(goal), parsed.value[1], parsed.value[2], parsed.value[3], goal, source, limit, known)
  }

  /** Everything after parsing depends on the three reflective sections only; the goal is the caller's. */
  function Judge(trimmed: string, claims: string, ends: string, pivot: string, goal: string, source: string,
                 limit: nat, known: NumberCheck): Result<(Ledger, string)>
  {
    if Placeholder(claims) || Placeholder(ends) || Placeholder(pivot) then
      Err("summary reflection must not be an ellipsis placeholder")
    else if Trim(trimmed) == "" || Trim(claims) == "" || Trim(ends) == "" || Trim(pivot) == "" then
      Err("all summary sections must be populated")
    else if !known(trimmed + "\n" + claims + "\n" + ends + "\n" + pivot, source) then
      Err("summary introduces a numeric claim absent from source")
    else
      var l := Ledger(goal, Lines(claims), Lines(ends), pivot, source);
      if Utf8Length(Render(l)) > limit then Err("canonical ledger exceeds configured byte limit")
      else Ok((l, Render(l)))
  }
}
