/** What the ledger parser accepts: a document with the four sections, each once, and nothing around them. */
module LedgerGrammar {
  import opened Options
  import opened Text
  import opened TextLines
  import opened XmlText
  import opened LedgerXml

  // ------------------------------------------------------------ the grammar

  /** A tag, or text that is not blank. */
  datatype Token = Opening(name: string) | Closing(name: string) | Empty(name: string) | Words

  function TokenOf(tag: string): Token {
    if tag != "" && tag[0] == '/' then Closing(TrimEnd(tag[1..]))
    else if tag != "" && tag[|tag| - 1] == '/' then Empty(TrimEnd(tag[..|tag| - 1]))
    else Opening(TrimEnd(tag))
  }

  /** The text cut at its angle brackets; none when the last tag is not finished. */
  function Tokens(rest: string): Option<seq<Token>>
    decreases |rest|
  {
    if rest == "" then Some([])
    else if rest[0] == '<' then
      var end := FirstOf(rest, {'>'});
      if end == |rest| then None
      else
        var more := Tokens(rest[end + 1..]);
        if more.None? then None else Some([TokenOf(rest[1..end])] + more.value)
    else
      var end := FirstOf(rest, {'<'});
      var more := Tokens(rest[end..]);
      if more.None? || Trim(rest[..end]) == "" then more else Some([Words] + more.value)
  }

  /** Words and elements, each element closed under the name it was opened with. */
  ghost predicate Nested(ts: seq<Token>)
    decreases |ts|
  {
    ts == [] || ((ts[0].Words? || ts[0].Empty?) && Nested(ts[1..])) ||
    (ts[0].Opening? && exists k :: NestedUpto(ts, k))
  }

  ghost predicate NestedUpto(ts: seq<Token>, k: int)
    requires ts != [] && ts[0].Opening?
    decreases |ts|, 0
  {
    1 <= k < |ts| && ts[k] == Closing(ts[0].name) && Nested(ts[1..k]) && Nested(ts[k + 1..])
  }

  /** Elements with these names, one after the other, with no words between them. */
  ghost predicate Blocks(ts: seq<Token>, names: seq<string>)
    decreases |names|
  {
    if names == [] then ts == []
    else
      ts != [] &&
      ((ts[0] == Empty(names[0]) && Blocks(ts[1..], names[1..])) ||
       (ts[0] == Opening(names[0]) && exists k :: BlockUpto(ts, names, k)))
  }

  ghost predicate BlockUpto(ts: seq<Token>, names: seq<string>, k: int)
    requires ts != [] && names != []
    decreases |names|, 0
  {
    1 <= k < |ts| && ts[k] == Closing(names[0]) && Nested(ts[1..k]) && Blocks(ts[k + 1..], names[1..])
  }

  const FOUR: set<string> := {GOAL, CLAIMS, ENDS, PIVOT}

  /** Names that, one after the other and none twice, complete `keys` to the four. */
  predicate Completes(names: seq<string>, keys: set<string>) {
    if names == [] then keys == FOUR else names[0] !in keys && Completes(names[1..], keys + {names[0]})
  }

  /** What can follow when these elements are open and these sections were closed. */
  ghost predicate Finishes(stack: seq<string>, keys: set<string>, ts: seq<Token>)
    decreases |stack|
  {
    if stack == [] then ts == [] && keys == FOUR
    else if |stack| == 1 then
      ts != [] && ts[|ts| - 1] == Closing(stack[0]) &&
      exists names :: Completes(names, keys) && Blocks(ts[..|ts| - 1], names)
    else exists k :: FinishesAfter(stack, keys, ts, k)
  }

  ghost predicate FinishesAfter(stack: seq<string>, keys: set<string>, ts: seq<Token>, k: int)
    requires |stack| >= 2
    decreases |stack|, 0
  {
    0 <= k < |ts| && Nested(ts[..k]) && ts[k] == Closing(stack[|stack| - 1]) &&
    Finishes(Pop(stack), if |stack| == 2 then keys + {stack[1]} else keys, ts[k + 1..])
  }

  // ------------------------------------------------------------ one token

  /** Inside an element, the tag that closes it comes after nested content. */
  lemma {:induction false} InsideSplits(stack: seq<string>, keys: set<string>, ts: seq<Token>) returns (k: nat)
    requires |stack| >= 2 && Finishes(stack, keys, ts)
    ensures k < |ts| && Nested(ts[..k]) && ts[k] == Closing(stack[|stack| - 1])
    ensures Finishes(Pop(stack), if |stack| == 2 then keys + {stack[1]} else keys, ts[k + 1..])
  {
    hide Nested;
    k :| FinishesAfter(stack, keys, ts, k);
  }

  lemma {:induction false} InsideJoins(stack: seq<string>, keys: set<string>, inner: seq<Token>, rest: seq<Token>)
    requires |stack| >= 2 && Nested(inner)
    requires Finishes(Pop(stack), if |stack| == 2 then keys + {stack[1]} else keys, rest)
    ensures Finishes(stack, keys, inner + [Closing(stack[|stack| - 1])] + rest)
  {
    hide Nested;
    var all := inner + [Closing(stack[|stack| - 1])] + rest;
    assert all[..|inner|] == inner && all[|inner| + 1..] == rest;
    assert FinishesAfter(stack, keys, all, |inner|);
  }

  lemma {:induction false} RootSplits(root: string, keys: set<string>, ts: seq<Token>) returns (names: seq<string>)
    requires Finishes([root], keys, ts)
    ensures ts != [] && ts[|ts| - 1] == Closing(root) && Completes(names, keys) && Blocks(ts[..|ts| - 1], names)
  {
    hide Nested, Completes, Blocks;
    names :| Completes(names, keys) && Blocks(ts[..|ts| - 1], names);
  }

  lemma {:induction false} RootJoins(root: string, keys: set<string>, body: seq<Token>, names: seq<string>)
    requires Completes(names, keys) && Blocks(body, names)
    ensures Finishes([root], keys, body + [Closing(root)])
  {
    hide Nested, Completes, Blocks;
    assert (body + [Closing(root)])[..|body|] == body;
  }

  lemma {:induction false} WordsInside(stack: seq<string>, keys: set<string>, t: Token, ts: seq<Token>)
    requires |stack| >= 2 && (t.Words? || t.Empty?) && Finishes(stack, keys, ts)
    ensures Finishes(stack, keys, [t] + ts)
  {
    hide Nested, Finishes;
    var k := InsideSplits(stack, keys, ts);
    NestedMore(t, ts[..k]);
    InsideJoins(stack, keys, [t] + ts[..k], ts[k + 1..]);
    assert [t] + ts[..k] + [ts[k]] + ts[k + 1..] == [t] + ts;
  }

  lemma {:induction false} NestedMore(t: Token, ts: seq<Token>)
    requires (t.Words? || t.Empty?) && Nested(ts)
    ensures Nested([t] + ts)
  {
    assert ([t] + ts)[1..] == ts;
  }

  lemma {:induction false} NestedElement(name: string, inner: seq<Token>, rest: seq<Token>)
    requires Nested(inner) && Nested(rest)
    ensures Nested([Opening(name)] + inner + [Closing(name)] + rest)
  {
    var ts := [Opening(name)] + inner + [Closing(name)] + rest;
    assert ts[1..|inner| + 1] == inner && ts[|inner| + 2..] == rest;
    assert NestedUpto(ts, |inner| + 1);
  }

  lemma {:induction false} ElementInside(stack: seq<string>, keys: set<string>, name: string, ts: seq<Token>)
    requires |stack| >= 2 && Finishes(stack + [name], keys, ts)
    ensures Finishes(stack, keys, [Opening(name)] + ts)
  {
    hide Nested, Finishes;
    var k := InsideSplits(stack + [name], keys, ts);
    assert Pop(stack + [name]) == stack;
    var after := ts[k + 1..];
    var m := InsideSplits(stack, keys, after);
    NestedElement(name, ts[..k], after[..m]);
    var inner := [Opening(name)] + ts[..k] + [Closing(name)] + after[..m];
    InsideJoins(stack, keys, inner, after[m + 1..]);
    assert after[..m] + ([after[m]] + after[m + 1..]) == after && ts[..k] + ([ts[k]] + after) == ts;
    assert inner + [after[m]] + after[m + 1..] ==
           [Opening(name)] + (ts[..k] + ([ts[k]] + (after[..m] + ([after[m]] + after[m + 1..]))));
  }

  lemma {:induction false} CloseInside(stack: seq<string>, keys: set<string>, ts: seq<Token>)
    requires |stack| >= 2 && Finishes(Pop(stack), if |stack| == 2 then keys + {stack[1]} else keys, ts)
    ensures Finishes(stack, keys, [Closing(stack[|stack| - 1])] + ts)
  {
    hide Finishes;
    InsideJoins(stack, keys, [], ts);
    assert [] + [Closing(stack[|stack| - 1])] + ts == [Closing(stack[|stack| - 1])] + ts;
  }

  lemma {:induction false} OneMoreName(name: string, names: seq<string>, keys: set<string>)
    requires name !in keys && Completes(names, keys + {name})
    ensures Completes([name] + names, keys)
  {
    assert ([name] + names)[1..] == names;
  }

  /** The names that complete nothing to the four are the four, each once. */
  lemma {:induction false} CompletesIsOnce(names: seq<string>, keys: set<string>)
    requires Completes(names, keys)
    ensures forall i, j :: 0 <= i < j < |names| ==> names[i] != names[j]
    ensures forall i :: 0 <= i < |names| ==> names[i] in FOUR && names[i] !in keys
    ensures keys <= FOUR && |names| + |keys| == |FOUR| && forall n :: n in FOUR ==> n in names || n in keys
    decreases |names|
  {
    if names != [] { CompletesIsOnce(names[1..], keys + {names[0]}); }
  }

  /** A section in full, before others. */
  lemma {:induction false} BlockMore(name: string, inner: seq<Token>, body: seq<Token>, names: seq<string>)
    requires Nested(inner) && Blocks(body, names)
    ensures Blocks([Opening(name)] + inner + [Closing(name)] + body, [name] + names)
    ensures Blocks([Empty(name)] + body, [name] + names)
  {
    hide Nested;
    var ts, more := [Opening(name)] + inner + [Closing(name)] + body, [name] + names;
    assert more[1..] == names && ts[1..|inner| + 1] == inner && ts[|inner| + 2..] == body;
    assert BlockUpto(ts, more, |inner| + 1);
    assert ([Empty(name)] + body)[1..] == body;
  }

  /** Below the root, a new section comes before the others. */
  lemma {:induction false} SectionBelow(root: string, keys: set<string>, name: string, ts: seq<Token>)
    requires name !in keys && Finishes([root, name], keys, ts)
    ensures Finishes([root], keys, [Opening(name)] + ts)
  {
    hide Nested, Completes, Finishes, Blocks;
    var k := InsideSplits([root, name], keys, ts);
    assert Pop([root, name]) == [root];
    var after := ts[k + 1..];
    var names := RootSplits(root, keys + {name}, after);
    var body := after[..|after| - 1];
    OneMoreName(name, names, keys);
    BlockMore(name, ts[..k], body, names);
    RootJoins(root, keys, [Opening(name)] + ts[..k] + [Closing(name)] + body, [name] + names);
    assert body + [Closing(root)] == after && ts[..k] + ([ts[k]] + after) == ts;
    assert [Opening(name)] + ts[..k] + [Closing(name)] + body + [Closing(root)] ==
           [Opening(name)] + (ts[..k] + ([ts[k]] + (body + [Closing(root)])));
  }

  lemma {:induction false} EmptyBelow(root: string, keys: set<string>, name: string, ts: seq<Token>)
    requires name !in keys && Finishes([root], keys + {name}, ts)
    ensures Finishes([root], keys, [Empty(name)] + ts)
  {
    hide Nested, Completes, Finishes, Blocks;
    var names := RootSplits(root, keys + {name}, ts);
    var body := ts[..|ts| - 1];
    OneMoreName(name, names, keys);
    assert Nested([]) by { NoneNested(); }
    BlockMore(name, [], body, names);
    RootJoins(root, keys, [Empty(name)] + body, [name] + names);
    assert [Empty(name)] + body + [Closing(root)] == [Empty(name)] + ts;
  }

  lemma {:induction false} NoneNested()
    ensures Nested([])
  {
  }

  lemma {:induction false} CloseRoot(root: string)
    ensures Finishes([root], FOUR, [Closing(root)])
  {
    var names: seq<string> := [];
    assert Completes(names, FOUR) && Blocks([Closing(root)][..0], names);
  }

  // ------------------------------------------------------------ the parser's run

  lemma {:induction false} CompleteIsFour(st: State)
    requires Complete(st)
    ensures st.sections.Keys == FOUR && st.stack == []
  {
    assert FOUR <= st.sections.Keys && |st.sections.Keys| == 4 && |FOUR| == 4;
    FullSubset(FOUR, st.sections.Keys);
  }

  /** The parser's step on a tag, by the token it is. */
  predicate StepsTo(st: State, t: Token, next: State) {
    next.rootSeen &&
    match t
    case Words => false
    case Closing(name) =>
      st.stack != [] && name == st.stack[|st.stack| - 1] && next.stack == Pop(st.stack) &&
      next.sections.Keys == if |st.stack| == 2 then st.sections.Keys + {name} else st.sections.Keys
    case Opening(name) =>
      ValidName(name) && next.stack == st.stack + [name] && next.sections.Keys == st.sections.Keys && MayOpen(st, name)
    case Empty(name) =>
      ValidName(name) && next.stack == st.stack && MayOpen(st, name) &&
      next.sections.Keys == if |st.stack| == 1 then st.sections.Keys + {name} else st.sections.Keys
  }

  predicate MayOpen(st: State, name: string) {
    (st.stack == [] ==> !st.rootSeen && name == ROOT) && (|st.stack| == 1 ==> name in FOUR && name !in st.sections)
  }

  lemma {:induction false} TagSteps(st: State, tag: string)
    requires Tag(st, tag).Ok? && (st.stack != [] ==> st.rootSeen)
    ensures StepsTo(st, TokenOf(tag), Tag(st, tag).value)
  {
    hide TrimEnd, ValidName, CloseTag, OpenTag, StepsTo;
    if tag != "" && tag[0] == '/' {
      CloseSteps(st, TrimEnd(tag[1..]));
    } else if tag != "" && tag[|tag| - 1] == '/' {
      OpenSteps(st, TrimEnd(tag[..|tag| - 1]), true);
    } else {
      OpenSteps(st, TrimEnd(tag), false);
    }
  }

  lemma {:induction false} CloseSteps(st: State, name: string)
    requires CloseTag(st, name).Ok? && (st.stack != [] ==> st.rootSeen)
    ensures StepsTo(st, Closing(name), Broken(CloseTag(st, name).value))
  {
  }

  lemma {:induction false} OpenSteps(st: State, name: string, closed: bool)
    requires OpenTag(st, name, closed).Ok?
    ensures StepsTo(st, if closed then Empty(name) else Opening(name), Broken(OpenTag(st, name, closed).value))
  {
    hide ValidName;
  }

  /** Where a tag that begins a text ends. */
  function TagEnd(rest: string): (end: nat)
    requires rest != "" && rest[0] == '<'
    ensures 1 <= end <= |rest|
  {
    FirstOf(rest, {'>'})
  }

  lemma {:induction false} ReadsTag(st: State, rest: string)
    requires rest != "" && rest[0] == '<' && ParseFrom(st, rest).Ok?
    ensures TagEnd(rest) < |rest| && Tag(st, rest[1..TagEnd(rest)]).Ok?
    ensures ParseFrom(st, rest) == ParseFrom(Tag(st, rest[1..TagEnd(rest)]).value, rest[TagEnd(rest) + 1..])
    ensures var more := Tokens(rest[TagEnd(rest) + 1..]);
      Tokens(rest) == if more.None? then None else Some([TokenOf(rest[1..TagEnd(rest)])] + more.value)
  {
    hide Tag, TokenOf, FirstOf, Chunk, Trim;
  }

  /** Where the text before the next tag ends. */
  function TextEnd(rest: string): (end: nat)
    requires rest != "" && rest[0] != '<'
    ensures 1 <= end <= |rest|
  {
    FirstOf(rest, {'<'})
  }

  lemma {:induction false} ReadsText(st: State, rest: string)
    requires rest != "" && rest[0] != '<' && ParseFrom(st, rest).Ok?
    ensures Chunk(st, rest[..TextEnd(rest)]).Ok?
    ensures ParseFrom(st, rest) == ParseFrom(Chunk(st, rest[..TextEnd(rest)]).value, rest[TextEnd(rest)..])
    ensures var more := Tokens(rest[TextEnd(rest)..]);
      Tokens(rest) == if more.Some? && Trim(rest[..TextEnd(rest)]) != "" then Some([Words] + more.value) else more
  {
    hide Chunk, Trim, FirstOf, Tag, TokenOf;
  }

  lemma {:induction false} ReadsNothing(st: State)
    ensures ParseFrom(st, "") == Ok(st) && Tokens("") == Some([])
  {
  }

  /** From a state after the root was opened, an accepting run reads what the grammar lets follow. */
  lemma {:induction false} RunFinishes(st: State, rest: string)
    requires st.rootSeen && ParseFrom(st, rest).Ok? && Complete(ParseFrom(st, rest).value)
    ensures Tokens(rest).Some? && Finishes(st.stack, st.sections.Keys, Tokens(rest).value)
    decreases |rest|
  {
    hide Tag, Chunk, Trim, TokenOf, Finishes, Complete, StepsTo, ParseFrom, Tokens, TagEnd, TextEnd;
    if rest == "" {
      ReadsNothing(st);
      CompleteIsFour(st);
      NothingFollows();
    } else if rest[0] == '<' {
      ReadsTag(st, rest);
      var tag, tail := rest[1..TagEnd(rest)], rest[TagEnd(rest) + 1..];
      var next := Tag(st, tag).value;
      TagSteps(st, tag);
      RootStays(st, TokenOf(tag), next);
      RunFinishes(next, tail);
      TagFinishes(st, TokenOf(tag), next, Tokens(tail).value);
    } else {
      ReadsText(st, rest);
      var text, tail := rest[..TextEnd(rest)], rest[TextEnd(rest)..];
      ChunkSteps(st, text);
      RunFinishes(Chunk(st, text).value, tail);
      if Trim(text) != "" { WordsInside(st.stack, st.sections.Keys, Words, Tokens(tail).value); }
    }
  }

  lemma {:induction false} NothingFollows()
    ensures Finishes([], FOUR, [])
  {
  }

  lemma {:induction false} RootStays(st: State, t: Token, next: State)
    requires StepsTo(st, t, next)
    ensures next.rootSeen
  {
  }

  lemma {:induction false} ChunkSteps(st: State, text: string)
    requires Chunk(st, text).Ok?
    ensures var next := Chunk(st, text).value;
      next.stack == st.stack && next.sections == st.sections && next.rootSeen == st.rootSeen
    ensures Trim(text) != "" ==> |st.stack| >= 2
  {
    hide Trim, Unescape;
  }

  lemma {:induction false} TagFinishes(st: State, t: Token, next: State, ts: seq<Token>)
    requires st.rootSeen && StepsTo(st, t, next) && Finishes(next.stack, next.sections.Keys, ts)
    ensures Finishes(st.stack, st.sections.Keys, [t] + ts)
  {
    hide ValidName, Finishes;
    var stack, keys := st.stack, st.sections.Keys;
    match t {
      case Closing(name) =>
        if |stack| == 1 {
          EndOfRoot(keys, ts);
          CloseRoot(stack[0]);
          assert stack == [stack[0]] && [t] + ts == [Closing(stack[0])];
        } else {
          CloseInside(stack, keys, ts);
        }
      case Opening(name) =>
        if |stack| == 1 {
          assert stack + [name] == [stack[0], name] && stack == [stack[0]];
          SectionBelow(stack[0], keys, name, ts);
        } else {
          ElementInside(stack, keys, name, ts);
        }
      case Empty(name) =>
        if |stack| == 1 {
          assert stack == [stack[0]];
          EmptyBelow(stack[0], keys, name, ts);
        } else {
          WordsInside(stack, keys, t, ts);
        }
    }
  }

  lemma {:induction false} EndOfRoot(keys: set<string>, ts: seq<Token>)
    requires Finishes([], keys, ts)
    ensures ts == [] && keys == FOUR
  {
  }

  /** Before the root only blanks are read, and the first tag opens the root. */
  lemma {:induction false} RunStarts(rest: string)
    requires ParseFrom(START, rest).Ok? && Complete(ParseFrom(START, rest).value)
    ensures Tokens(rest).Some? && Tokens(rest).value != [] && Tokens(rest).value[0] == Opening(ROOT)
    ensures Finishes([ROOT], {}, Tokens(rest).value[1..])
    decreases |rest|
  {
    hide Tag, Chunk, Trim, TokenOf, Finishes, StepsTo, ParseFrom, Tokens, TagEnd, TextEnd, Complete;
    if rest == "" {
      ReadsNothing(START);
      CompleteIsFour(START);
    } else if rest[0] == '<' {
      ReadsTag(START, rest);
      var tag, tail := rest[1..TagEnd(rest)], rest[TagEnd(rest) + 1..];
      var next := Tag(START, tag).value;
      TagSteps(START, tag);
      FirstTag(TokenOf(tag), next);
      RunFinishes(next, tail);
      if next.stack == [] { EndOfRoot({}, Tokens(tail).value); }
      assert ([TokenOf(tag)] + Tokens(tail).value)[1..] == Tokens(tail).value;
    } else {
      ReadsText(START, rest);
      ChunkSteps(START, rest[..TextEnd(rest)]);
      ChunkAtStart(rest[..TextEnd(rest)]);
      RunStarts(rest[TextEnd(rest)..]);
    }
  }

  lemma {:induction false} FirstTag(t: Token, next: State)
    requires StepsTo(START, t, next)
    ensures next.rootSeen && next.sections.Keys == {} && t in {Opening(ROOT), Empty(ROOT)}
    ensures next.stack == if t.Opening? then [ROOT] else []
  {
    hide ValidName;
    assert [] + [ROOT] == [ROOT];
  }

  lemma {:induction false} ChunkAtStart(text: string)
    requires Chunk(START, text).Ok?
    ensures Chunk(START, text).value == START
  {
    hide Trim, Unescape;
  }

  predicate ValidNames(ts: seq<Token>) {
    forall t :: t in ts && (t.Opening? || t.Empty?) ==> ValidName(t.name)
  }

  lemma {:induction false} StepIsNamed(st: State, t: Token, next: State, ts: seq<Token>)
    requires StepsTo(st, t, next) && ValidNames(ts)
    ensures ValidNames([t] + ts)
  {
    hide ValidName;
  }

  /** Every name in the text is a name of XML. */
  lemma {:induction false} NamesAreValid(st: State, rest: string)
    requires ParseFrom(st, rest).Ok? && Tokens(rest).Some? && (st.stack != [] ==> st.rootSeen)
    ensures ValidNames(Tokens(rest).value)
    decreases |rest|
  {
    hide Tag, Chunk, Trim, TokenOf, ValidNames, StepsTo, ParseFrom, Tokens, TagEnd, TextEnd;
    if rest == "" {
      ReadsNothing(st);
      NoNames();
    } else if rest[0] == '<' {
      ReadsTag(st, rest);
      var tag, tail := rest[1..TagEnd(rest)], rest[TagEnd(rest) + 1..];
      var next := Tag(st, tag).value;
      TagSteps(st, tag);
      RootStays(st, TokenOf(tag), next);
      NamesAreValid(next, tail);
      StepIsNamed(st, TokenOf(tag), next, Tokens(tail).value);
    } else {
      ReadsText(st, rest);
      ChunkSteps(st, rest[..TextEnd(rest)]);
      NamesAreValid(Chunk(st, rest[..TextEnd(rest)]).value, rest[TextEnd(rest)..]);
      WordsAreNamed(Tokens(rest[TextEnd(rest)..]).value);
    }
  }

  lemma {:induction false} NoNames()
    ensures ValidNames([])
  {
  }

  lemma {:induction false} WordsAreNamed(ts: seq<Token>)
    requires ValidNames(ts)
    ensures ValidNames([Words] + ts)
  {
    hide ValidName;
  }

  // ------------------------------------------------------------ what the grammar allows is accepted

  /** Every piece of text between tags unescapes. */
  predicate Readable(rest: string)
    decreases |rest|
  {
    if rest == "" then true
    else if rest[0] == '<' then TagEnd(rest) < |rest| ==> Readable(rest[TagEnd(rest) + 1..])
    else Unescape(rest[..TextEnd(rest)]).Ok? && Readable(rest[TextEnd(rest)..])
  }

  lemma {:induction false} BlankUnescapes(text: string)
    requires Trim(text) == ""
    ensures Unescape(text).Ok?
  {
    AllSpaces(text);
    assert FirstOf(text, {'&'}) == |text|;
  }

  lemma {:induction false} AllSpaces(text: string)
    requires Trim(text) == ""
    ensures forall i :: 0 <= i < |text| ==> IsSpace(text[i])
  {
    hide IsSpace;
    var front := TrimStart(text);
    StartSpaces(text);
    EndSpaces(front);
  }

  lemma {:induction false} StartSpaces(text: string)
    ensures |TrimStart(text)| <= |text| && text[|text| - |TrimStart(text)|..] == TrimStart(text)
    ensures forall i :: 0 <= i < |text| - |TrimStart(text)| ==> IsSpace(text[i])
    decreases |text|
  {
    hide IsSpace;
    if text != "" && IsSpace(text[0]) {
      StartSpaces(text[1..]);
      assert forall i :: 1 <= i < |text| ==> text[i] == text[1..][i - 1];
    }
  }

  lemma {:induction false} EndSpaces(text: string)
    requires TrimEnd(text) == ""
    ensures forall i :: 0 <= i < |text| ==> IsSpace(text[i])
    decreases |text|
  {
    hide IsSpace;
    if text != "" {
      EndSpaces(text[..|text| - 1]);
      assert forall i :: 0 <= i < |text| - 1 ==> text[i] == text[..|text| - 1][i];
    }
  }

  /** An accepting run read every piece of text. */
  lemma {:induction false} RunIsReadable(st: State, rest: string)
    requires ParseFrom(st, rest).Ok?
    ensures Readable(rest)
    decreases |rest|
  {
    hide Tag, Chunk, Trim, ParseFrom, TagEnd, TextEnd, Unescape, Tokens;
    if rest != "" {
      if rest[0] == '<' {
        ReadsTag(st, rest);
        RunIsReadable(Tag(st, rest[1..TagEnd(rest)]).value, rest[TagEnd(rest) + 1..]);
      } else {
        ReadsText(st, rest);
        var text := rest[..TextEnd(rest)];
        assert Unescape(text).Ok? by { ChunkReads(st, text); }
        RunIsReadable(Chunk(st, text).value, rest[TextEnd(rest)..]);
      }
    }
  }

  lemma {:induction false} ChunkReads(st: State, text: string)
    requires Chunk(st, text).Ok?
    ensures Unescape(text).Ok?
  {
    hide Unescape, Trim;
    if |st.stack| < 2 { BlankUnescapes(text); }
  }

  lemma {:induction false} ChunkAllowed(st: State, text: string)
    requires Unescape(text).Ok? && (Trim(text) != "" ==> |st.stack| >= 2)
    ensures Chunk(st, text).Ok?
  {
    hide Unescape, Trim;
  }

  /** A token the grammar allows next, and what it allows afterwards. */
  predicate Allowed(stack: seq<string>, keys: set<string>, t: Token) {
    match t
    case Words => |stack| >= 2
    case Closing(name) => stack != [] && name == stack[|stack| - 1]
    case Opening(name) => stack != [] && (|stack| == 1 ==> name in FOUR && name !in keys)
    case Empty(name) => stack != [] && (|stack| == 1 ==> name in FOUR && name !in keys)
  }

  function StackAfter(stack: seq<string>, t: Token): seq<string> {
    match t case Opening(name) => stack + [name] case Closing(_) => Pop(stack) case _ => stack
  }

  function KeysAfter(stack: seq<string>, keys: set<string>, t: Token): set<string> {
    match t
    case Closing(name) => if |stack| == 2 then keys + {name} else keys
    case Empty(name) => if |stack| == 1 then keys + {name} else keys
    case _ => keys
  }

  lemma {:induction false} NestedBegins(ts: seq<Token>)
    requires Nested(ts) && ts != []
    ensures !ts[0].Closing? && (ts[0].Words? || ts[0].Empty? ==> Nested(ts[1..]))
  {
  }

  lemma {:induction false} NestedSplits(ts: seq<Token>) returns (inner: seq<Token>, rest: seq<Token>)
    requires Nested(ts) && ts != [] && ts[0].Opening?
    ensures ts == [ts[0]] + inner + [Closing(ts[0].name)] + rest && Nested(inner) && Nested(rest)
  {
    var k :| NestedUpto(ts, k);
    inner, rest := ts[1..k], ts[k + 1..];
  }

  lemma {:induction false} OpenJoins(stack: seq<string>, keys: set<string>, name: string, first: seq<Token>,
                                     second: seq<Token>, rest: seq<Token>)
    requires |stack| >= 2 && Nested(first) && Nested(second)
    requires Finishes(Pop(stack), if |stack| == 2 then keys + {stack[1]} else keys, rest)
    ensures Finishes(stack + [name], keys, first + [Closing(name)] + (second + [Closing(stack[|stack| - 1])] + rest))
  {
    hide Finishes, Nested;
    InsideJoins(stack, keys, second, rest);
    assert Pop(stack + [name]) == stack;
    InsideJoins(stack + [name], keys, first, second + [Closing(stack[|stack| - 1])] + rest);
  }

  lemma {:induction false} AllowsPart(stack: seq<string>, keys: set<string>, part: seq<Token>, close: Token,
                                      rest: seq<Token>)
    requires |stack| >= 2 && part != [] && Nested(part) && close == Closing(stack[|stack| - 1])
    requires Finishes(Pop(stack), if |stack| == 2 then keys + {stack[1]} else keys, rest)
    ensures Allowed(stack, keys, part[0])
    ensures Finishes(StackAfter(stack, part[0]), KeysAfter(stack, keys, part[0]), part[1..] + [close] + rest)
  {
    hide Finishes, Nested;
    var t := part[0];
    NestedBegins(part);
    if t.Opening? {
      var first, second := NestedSplits(part);
      OpenJoins(stack, keys, t.name, first, second, rest);
      FirstOfAll(t, part[1..], t, first + [Closing(t.name)] + second);
      Regather(first, Closing(t.name), second, close, rest);
    } else {
      InsideJoins(stack, keys, part[1..], rest);
    }
  }

  lemma {:induction false} Regather(a: seq<Token>, b: Token, c: seq<Token>, d: Token, e: seq<Token>)
    ensures a + [b] + c + [d] + e == a + [b] + (c + [d] + e)
  {
  }

  lemma {:induction false} AllowsInside(stack: seq<string>, keys: set<string>, t: Token, ts: seq<Token>)
    requires |stack| >= 2 && Finishes(stack, keys, [t] + ts)
    ensures Allowed(stack, keys, t) && Finishes(StackAfter(stack, t), KeysAfter(stack, keys, t), ts)
  {
    hide Finishes, Nested;
    var all := [t] + ts;
    var k := InsideSplits(stack, keys, all);
    if k == 0 {
      assert t == Closing(stack[|stack| - 1]) && all[k + 1..] == ts;
    } else {
      AllowsPart(stack, keys, all[..k], all[k], all[k + 1..]);
      assert all[..k][0] == t && all[..k][1..] == ts[..k - 1] && all[k] == ts[k - 1] && all[k + 1..] == ts[k..];
      assert ts[..k - 1] + [ts[k - 1]] + ts[k..] == ts;
    }
  }

  lemma {:induction false} BlocksSplit(ts: seq<Token>, names: seq<string>) returns (inner: seq<Token>, rest: seq<Token>)
    requires Blocks(ts, names) && names != []
    ensures Blocks(rest, names[1..]) && Nested(inner)
    ensures ts == [Empty(names[0])] + rest || ts == [Opening(names[0])] + inner + [Closing(names[0])] + rest
  {
    if ts[0].Empty? {
      inner, rest := [], ts[1..];
    } else {
      var k :| BlockUpto(ts, names, k);
      inner, rest := ts[1..k], ts[k + 1..];
    }
  }

  lemma {:induction false} AllowsBelow(root: string, keys: set<string>, t: Token, ts: seq<Token>)
    requires Finishes([root], keys, [t] + ts)
    ensures Allowed([root], keys, t) && Finishes(StackAfter([root], t), KeysAfter([root], keys, t), ts)
  {
    hide Finishes, Blocks, Nested, Completes;
    var all := [t] + ts;
    var names := RootSplits(root, keys, all);
    assert names != [] ==> Completes(names[1..], keys + {names[0]}) by { CompletesRest(names, keys); }
    assert names == [] ==> keys == FOUR by { CompletesRest(names, keys); }
    var body := all[..|all| - 1];
    CompletesIsOnce(names, keys);
    if names == [] {
      NoBlocks(body);
      assert all == [Closing(root)] && ts == [] && Pop([root]) == [];
      NothingFollows();
    } else {
      var inner, rest := BlocksSplit(body, names);
      RootJoins(root, keys + {names[0]}, rest, names[1..]);
      assert all == body + [Closing(root)];
      Regroup(body[0], inner, Closing(names[0]), rest, Closing(root));
      if body == [Empty(names[0])] + rest {
        FirstOfAll(t, ts, Empty(names[0]), rest + [Closing(root)]);
      } else {
        SectionJoins(root, keys, names[0], inner, rest + [Closing(root)]);
        FirstOfAll(t, ts, Opening(names[0]), inner + [Closing(names[0])] + (rest + [Closing(root)]));
      }
    }
  }

  lemma {:induction false} Regroup(a: Token, inner: seq<Token>, b: Token, rest: seq<Token>, c: Token)
    ensures [a] + inner + [b] + rest + [c] == [a] + (inner + [b] + (rest + [c]))
    ensures [a] + rest + [c] == [a] + (rest + [c])
  {
  }

  lemma {:induction false} FirstOfAll(t: Token, ts: seq<Token>, first: Token, rest: seq<Token>)
    requires [t] + ts == [first] + rest
    ensures t == first && ts == rest
  {
    assert ([t] + ts)[0] == t && ([t] + ts)[1..] == ts && ([first] + rest)[1..] == rest;
  }

  lemma {:induction false} CompletesRest(names: seq<string>, keys: set<string>)
    requires Completes(names, keys)
    ensures if names == [] then keys == FOUR else Completes(names[1..], keys + {names[0]})
  {
  }

  lemma {:induction false} NoBlocks(body: seq<Token>)
    requires Blocks(body, [])
    ensures body == []
  {
  }

  lemma {:induction false} SectionJoins(root: string, keys: set<string>, name: string, inner: seq<Token>, rest: seq<Token>)
    requires Nested(inner) && Finishes([root], keys + {name}, rest)
    ensures Finishes([root] + [name], keys, inner + [Closing(name)] + rest)
  {
    hide Finishes, Nested;
    assert Pop([root, name]) == [root] && [root] + [name] == [root, name];
    InsideJoins([root, name], keys, inner, rest);
  }

  lemma {:induction false} TagAllowed(st: State, tag: string)
    requires st.rootSeen && Allowed(st.stack, st.sections.Keys, TokenOf(tag))
    requires TokenOf(tag).Opening? || TokenOf(tag).Empty? ==> ValidName(TokenOf(tag).name)
    ensures Tag(st, tag).Ok?
  {
    hide TrimEnd, ValidName;
  }

  /** After the root was opened, whatever the grammar lets follow is read to the end. */
  lemma {:induction false} GrammarRuns(st: State, rest: string)
    requires st.rootSeen && Readable(rest) && Tokens(rest).Some? && ValidNames(Tokens(rest).value)
    requires Finishes(st.stack, st.sections.Keys, Tokens(rest).value)
    ensures ParseFrom(st, rest).Ok? && Complete(ParseFrom(st, rest).value)
    decreases |rest|
  {
    hide Tag, Chunk, Trim, TokenOf, ValidNames, StepsTo, ParseFrom, Tokens, TagEnd, TextEnd, Finishes, Complete, Allowed,
         StackAfter, KeysAfter, Unescape;
    if rest == "" {
      ReadsNothing(st);
      FinishedIsComplete(st);
    } else if rest[0] == '<' {
      CutsTag(rest);
      var tag, tail := rest[1..TagEnd(rest)], rest[TagEnd(rest) + 1..];
      var t, ts := TokenOf(tag), Tokens(tail).value;
      AllowsNext(st, t, ts);
      FirstIsNamed(t, ts);
      TagAllowed(st, tag);
      RunsTag(st, rest);
      var next := Tag(st, tag).value;
      TagSteps(st, tag);
      StepIsAfter(st, t, next);
      GrammarRuns(next, tail);
    } else {
      CutsText(st, rest);
      var text, tail := rest[..TextEnd(rest)], rest[TextEnd(rest)..];
      if Trim(text) != "" {
        AllowsNext(st, Words, Tokens(tail).value);
        WordsAreInside(st.stack, st.sections.Keys);
        FirstIsNamed(Words, Tokens(tail).value);
      }
      ChunkAllowed(st, text);
      ChunkSteps(st, text);
      GrammarRuns(Chunk(st, text).value, tail);
    }
  }

  lemma {:induction false} CutsTag(rest: string)
    requires rest != "" && rest[0] == '<' && Tokens(rest).Some?
    ensures TagEnd(rest) < |rest| && Tokens(rest[TagEnd(rest) + 1..]).Some?
    ensures Tokens(rest).value == [TokenOf(rest[1..TagEnd(rest)])] + Tokens(rest[TagEnd(rest) + 1..]).value
  {
    hide TokenOf, FirstOf, Trim;
  }

  lemma {:induction false} RunsTag(st: State, rest: string)
    requires rest != "" && rest[0] == '<' && TagEnd(rest) < |rest| && Tag(st, rest[1..TagEnd(rest)]).Ok?
    ensures ParseFrom(st, rest) == ParseFrom(Tag(st, rest[1..TagEnd(rest)]).value, rest[TagEnd(rest) + 1..])
  {
    hide Tag, FirstOf, Chunk;
  }

  lemma {:induction false} CutsText(st: State, rest: string)
    requires rest != "" && rest[0] != '<' && Tokens(rest).Some?
    ensures Tokens(rest[TextEnd(rest)..]).Some?
    ensures var more := Tokens(rest[TextEnd(rest)..]).value;
      Tokens(rest).value == if Trim(rest[..TextEnd(rest)]) != "" then [Words] + more else more
    ensures Chunk(st, rest[..TextEnd(rest)]).Ok? ==>
      ParseFrom(st, rest) == ParseFrom(Chunk(st, rest[..TextEnd(rest)]).value, rest[TextEnd(rest)..])
  {
    hide Chunk, Trim, FirstOf, Tag, TokenOf;
  }

  lemma {:induction false} FinishedIsComplete(st: State)
    requires st.rootSeen && Finishes(st.stack, st.sections.Keys, [])
    ensures Complete(st)
  {
    hide Nested, Blocks, Completes;
    assert |FOUR| == 4;
    assert st.sections.Keys == FOUR;
  }

  lemma {:induction false} WordsAreInside(stack: seq<string>, keys: set<string>)
    requires Allowed(stack, keys, Words)
    ensures |stack| >= 2 && StackAfter(stack, Words) == stack && KeysAfter(stack, keys, Words) == keys
  {
  }

  lemma {:induction false} FirstIsNamed(t: Token, ts: seq<Token>)
    requires ValidNames([t] + ts)
    ensures ValidNames(ts) && (t.Opening? || t.Empty? ==> ValidName(t.name))
  {
    hide ValidName;
    assert t in [t] + ts;
  }

  lemma {:induction false} StepIsAfter(st: State, t: Token, next: State)
    requires StepsTo(st, t, next)
    ensures next.rootSeen && next.stack == StackAfter(st.stack, t)
    ensures next.sections.Keys == KeysAfter(st.stack, st.sections.Keys, t)
  {
    hide ValidName;
  }

  lemma {:induction false} AllowsNext(st: State, t: Token, ts: seq<Token>)
    requires Finishes(st.stack, st.sections.Keys, [t] + ts)
    ensures Allowed(st.stack, st.sections.Keys, t)
    ensures Finishes(StackAfter(st.stack, t), KeysAfter(st.stack, st.sections.Keys, t), ts)
  {
    hide Allowed, StackAfter, KeysAfter, Finishes;
    if st.stack == [] {
      EndOfRoot(st.sections.Keys, [t] + ts);
    } else if |st.stack| == 1 {
      assert st.stack == [st.stack[0]];
      AllowsBelow(st.stack[0], st.sections.Keys, t, ts);
    } else {
      AllowsInside(st.stack, st.sections.Keys, t, ts);
    }
  }

  /** From the start, a root and what may follow it are read to the end. */
  lemma {:induction false} GrammarStarts(rest: string)
    requires Readable(rest) && Tokens(rest).Some? && Tokens(rest).value != [] && ValidNames(Tokens(rest).value)
    requires Tokens(rest).value[0] == Opening(ROOT) && Finishes([ROOT], {}, Tokens(rest).value[1..])
    ensures ParseFrom(START, rest).Ok? && Complete(ParseFrom(START, rest).value)
    decreases |rest|
  {
    hide Chunk, Trim, ValidNames, ParseFrom, Tokens, TagEnd, TextEnd, Finishes, Complete, Unescape, Tag, TokenOf, StepsTo;
    if rest == "" {
      ReadsNothing(START);
    } else if rest[0] == '<' {
      CutsTag(rest);
      var tag, tail := rest[1..TagEnd(rest)], rest[TagEnd(rest) + 1..];
      FirstIsNamed(TokenOf(tag), Tokens(tail).value);
      RootOpens(tag);
      RunsTag(START, rest);
      TagSteps(START, tag);
      FirstTag(TokenOf(tag), Tag(START, tag).value);
      assert Tokens(rest).value[1..] == Tokens(tail).value;
      GrammarRuns(Tag(START, tag).value, tail);
    } else {
      CutsText(START, rest);
      var text := rest[..TextEnd(rest)];
      ChunkAllowed(START, text);
      ChunkAtStart(text);
      GrammarStarts(rest[TextEnd(rest)..]);
    }
  }

  lemma {:induction false} RootOpens(tag: string)
    requires TokenOf(tag) == Opening(ROOT) && ValidName(ROOT)
    ensures Tag(START, tag).Ok?
  {
    hide TrimEnd, ValidName;
  }

  /** The text a proposal is parsed as: one kind of line end, no marks and no blanks around it. */
  function Cleaned(proposal: string): string {
    DropMarks(Normalize(proposal))
  }

  /** One root with the four sections, each once and in any order, no words around them, and every element closed by its
      own name. */
  ghost predicate IsDocument(tokens: Option<seq<Token>>) {
    exists body, names | Blocks(body, names) ::
      tokens == Some([Opening(ROOT)] + body + [Closing(ROOT)]) &&
      |names| == 4 && GOAL in names && CLAIMS in names && ENDS in names && PIVOT in names
  }

  predicate PlainText(text: string) {
    AllXml(text) && (forall i :: 0 <= i < |text| - 1 && text[i] == '<' ==> text[i + 1] != '!' && text[i + 1] != '?') &&
    forall i :: 0 <= i < |text| - 2 && text[i] == ']' && text[i + 1] == ']' ==> text[i + 2] != '>'
  }

  /** A proposal is accepted exactly if it is such a document, in XML characters, with valid names and references, and
      without declarations, comments and section ends. */
  lemma {:induction false} AcceptedIsDocument(proposal: string)
    ensures Sections(proposal).Ok? <==>
      var text := Cleaned(proposal);
      PlainText(text) && IsDocument(Tokens(Trim(text))) && ValidNames(Tokens(Trim(text)).value) && Readable(Trim(text))
  {
    hide Trim, ParseFrom, Complete, Tokens, Blocks, AllXml, Normalize, DropMarks, HasSub, ValidNames, Finishes, Readable,
         IsDocument, PlainText, Clean;
    var text := Cleaned(proposal);
    PlainIff(text);
    if IsDocument(Tokens(Trim(text))) { DocumentIsRoot(Tokens(Trim(text))); }
    if Sections(proposal).Ok? {
      RunStarts(Trim(text));
      NamesAreValid(START, Trim(text));
      RunIsReadable(START, Trim(text));
      RootIsDocument(Tokens(Trim(text)).value);
    }
    if PlainText(text) && IsDocument(Tokens(Trim(text))) && ValidNames(Tokens(Trim(text)).value) && Readable(Trim(text)) {
      GrammarStarts(Trim(text));
    }
  }

  lemma {:induction false} RootIsDocument(all: seq<Token>)
    requires all != [] && all[0] == Opening(ROOT) && Finishes([ROOT], {}, all[1..])
    ensures IsDocument(Some(all))
  {
    hide Finishes, Blocks, Completes;
    var rest := all[1..];
    var names := RootSplits(ROOT, {}, rest);
    CompletesIsOnce(names, {});
    assert |FOUR| == 4;
    assert all == [Opening(ROOT)] + rest[..|rest| - 1] + [Closing(ROOT)];
  }

  lemma {:induction false} DocumentIsRoot(tokens: Option<seq<Token>>)
    requires IsDocument(tokens)
    ensures tokens.Some? && tokens.value != [] && tokens.value[0] == Opening(ROOT)
    ensures Finishes([ROOT], {}, tokens.value[1..])
  {
    hide Finishes, Blocks, Completes;
    var body, names :| Blocks(body, names) && tokens == Some([Opening(ROOT)] + body + [Closing(ROOT)]) &&
      |names| == 4 && GOAL in names && CLAIMS in names && ENDS in names && PIVOT in names;
    OnceCompletes(names);
    RootJoins(ROOT, {}, body, names);
    assert tokens.value[1..] == body + [Closing(ROOT)];
  }

  lemma {:induction false} OnceCompletes(names: seq<string>)
    requires |names| == 4 && GOAL in names && CLAIMS in names && ENDS in names && PIVOT in names
    ensures Completes(names, {})
  {
    var a, b, c, d := names[0], names[1], names[2], names[3];
    assert names == [a, b, c, d];
    assert {a, b, c, d} == FOUR;
    assert a != b && a != c && a != d && b != c && b != d && c != d;
    assert names[1..] == [b, c, d] && names[1..][1..] == [c, d] && names[1..][1..][1..] == [d] && [d][1..] == [];
    assert {} + {a} + {b} + {c} + {d} == FOUR;
    assert Completes([], FOUR);
    assert Completes([d], {} + {a} + {b} + {c});
    assert Completes([c, d], {} + {a} + {b}) by { assert [c, d][1..] == [d]; }
    assert Completes([b, c, d], {} + {a}) by { assert [b, c, d][1..] == [c, d]; }
  }

  lemma {:induction false} PlainIff(text: string)
    ensures PlainText(text) <==>
      AllXml(text) && !HasSub(text, "]]>") && !HasSub(text, "<!") && !HasSub(text, "<?")
  {
    hide AllXml, HasSub;
    NoSub(text);
    SubIsThere(text);
  }

  lemma {:induction false} SubIsThere(text: string)
    ensures HasSub(text, "<!") ==> exists i :: 0 <= i < |text| - 1 && text[i] == '<' && text[i + 1] == '!'
    ensures HasSub(text, "<?") ==> exists i :: 0 <= i < |text| - 1 && text[i] == '<' && text[i + 1] == '?'
    ensures HasSub(text, "]]>") ==>
      exists i :: 0 <= i < |text| - 2 && text[i] == ']' && text[i + 1] == ']' && text[i + 2] == '>'
  {
    if HasSub(text, "<!") {
      var i :| 0 <= i <= |text| - 2 && SubAt(text, i, "<!");
      assert text[i] == text[i..i + 2][0] && text[i + 1] == text[i..i + 2][1];
    }
    if HasSub(text, "<?") {
      var i :| 0 <= i <= |text| - 2 && SubAt(text, i, "<?");
      assert text[i] == text[i..i + 2][0] && text[i + 1] == text[i..i + 2][1];
    }
    if HasSub(text, "]]>") {
      var i :| 0 <= i <= |text| - 3 && SubAt(text, i, "]]>");
      assert text[i] == text[i..i + 3][0] && text[i + 1] == text[i..i + 3][1] && text[i + 2] == text[i..i + 3][2];
    }
  }

  lemma {:induction false} NoSub(text: string)
    ensures !HasSub(text, "<!") ==> forall i :: 0 <= i < |text| - 1 && text[i] == '<' ==> text[i + 1] != '!'
    ensures !HasSub(text, "<?") ==> forall i :: 0 <= i < |text| - 1 && text[i] == '<' ==> text[i + 1] != '?'
    ensures !HasSub(text, "]]>") ==>
      forall i :: 0 <= i < |text| - 2 && text[i] == ']' && text[i + 1] == ']' ==> text[i + 2] != '>'
  {
    forall i | 0 <= i < |text| - 1 && !HasSub(text, "<!") && text[i] == '<' ensures text[i + 1] != '!' {
      assert !SubAt(text, i, "<!");
    }
    forall i | 0 <= i < |text| - 1 && !HasSub(text, "<?") && text[i] == '<' ensures text[i + 1] != '?' {
      assert !SubAt(text, i, "<?");
    }
    forall i | 0 <= i < |text| - 2 && !HasSub(text, "]]>") && text[i] == ']' && text[i + 1] == ']'
      ensures text[i + 2] != '>'
    {
      assert !SubAt(text, i, "]]>");
    }
  }
}
