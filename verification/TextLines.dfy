/** Splitting text into lines and joining lines into text. */
module TextLines {
  import opened Text

  function Split(s: string, breaks: set<char>): (r: seq<string>)
    ensures r != []
    ensures forall i | 0 <= i < |r| :: forall k | 0 <= k < |r[i]| :: r[i][k] !in breaks
    decreases |s|
  {
    var i := FirstOf(s, breaks);
    if i == |s| then [s] else [s[..i]] + Split(s[i + 1..], breaks)
  }

  function JoinLines(parts: seq<string>): string {
    if parts == [] then "" else if |parts| == 1 then parts[0] else parts[0] + "\n" + JoinLines(parts[1..])
  }

  function StripReturn(s: string): string {
    if s != "" && s[|s| - 1] == '\r' then s[..|s| - 1] else s
  }

  function StripReturns(parts: seq<string>): (r: seq<string>)
    ensures |r| == |parts| && forall i :: 0 <= i < |r| ==> r[i] == StripReturn(parts[i])
  {
    seq(|parts|, i requires 0 <= i < |parts| => StripReturn(parts[i]))
  }

  /** The lines of a text: a final line break does not begin another one, and a return before a break is dropped. */
  function Lines(s: string): seq<string> {
    var parts := Split(s, {'\n'});
    var last := parts[|parts| - 1];
    StripReturns(parts[..|parts| - 1]) + if last == "" then [] else [last]
  }

  lemma {:induction false} SplitLine(line: string, c: char, rest: string, breaks: set<char>)
    requires (forall k :: 0 <= k < |line| ==> line[k] !in breaks) && c in breaks
    ensures Split(line + [c] + rest, breaks) == [line] + Split(rest, breaks)
  {
    var s := line + [c] + rest;
    assert s == line + ([c] + rest);
    FirstOfAt(line, [c] + rest, breaks);
    assert s[..|line|] == line && s[|line| + 1..] == rest;
  }

  lemma {:induction false} SplitOne(line: string, breaks: set<char>)
    requires forall k :: 0 <= k < |line| ==> line[k] !in breaks
    ensures Split(line, breaks) == [line]
  {
    assert line + "" == line;
    FirstOfAt(line, "", breaks);
  }

  /** Splitting joined lines gives them back. */
  lemma {:induction false} SplitJoined(parts: seq<string>, breaks: set<char>)
    requires parts != [] && '\n' in breaks
    requires forall i | 0 <= i < |parts| :: forall k | 0 <= k < |parts[i]| :: parts[i][k] !in breaks
    ensures Split(JoinLines(parts), breaks) == parts
    decreases |parts|
  {
    hide Split;
    if |parts| == 1 {
      SplitOne(parts[0], breaks);
      assert parts == [parts[0]];
    } else {
      SplitJoined(parts[1..], breaks);
      SplitLine(parts[0], '\n', JoinLines(parts[1..]), breaks);
      assert parts[0] + "\n" + JoinLines(parts[1..]) == parts[0] + ['\n'] + JoinLines(parts[1..]);
    }
  }

  /** A line that is read back as it was written. */
  predicate WholeLine(s: string) {
    s != "" && s[|s| - 1] != '\r' && forall k :: 0 <= k < |s| ==> s[k] != '\n'
  }

  /** Joined lines are read back as they were. */
  lemma {:induction false} LinesOfJoined(parts: seq<string>)
    requires parts != [] && forall i :: 0 <= i < |parts| ==> WholeLine(parts[i])
    ensures Lines(JoinLines(parts)) == parts
  {
    hide Split, JoinLines;
    forall i | 0 <= i < |parts| ensures forall k | 0 <= k < |parts[i]| :: parts[i][k] !in {'\n'} {
      assert WholeLine(parts[i]);
    }
    SplitJoined(parts, {'\n'});
    var front, last := parts[..|parts| - 1], parts[|parts| - 1];
    forall i | 0 <= i < |front| ensures StripReturn(front[i]) == front[i] {
      assert WholeLine(parts[i]);
    }
    assert StripReturns(front) == front;
    assert WholeLine(last);
    assert parts == front + [last];
  }
}
