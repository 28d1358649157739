/** The evidence-gated workflow: phases, evidence, transitions, and the run loop around them. */
module Workflow {
  import opened Options
  import opened Text
  import opened Decimal
  import opened Numerals
  import Evidence
  import Json
  import Tables

  // ------------------------------------------------------------ configuration

  datatype Reason = Always | PhaseComplete | OnEvidence

  /** What was called, with which arguments, and what came out. */
  datatype Outcome = Outcome(tool: string, arguments: Evidence.Data, output: string)

  /** A piece of evidence: the tool, what its arguments and its result must contain, what its text must mention. */
  datatype Spec = Spec(tool: string, arguments: Evidence.Data, fragments: seq<string>, result: Evidence.Data)

  /** How texts are read, left open: parsing JSON, finding a fragment whatever the case, and the deliverables that are
      not tables. */
  datatype Reading = Reading(parse: string -> Option<Evidence.Data>, mentions: (string, string) -> bool,
                             extract: (nat, string) -> Option<Json.Value>,
                             shows: (nat, string, Json.Value) -> bool)

  predicate NoResult(v: Json.Value) {
    v.Null? || v == Json.Obj([])
  }

  predicate ResultMatches(r: Reading, output: string, wanted: Json.Value) {
    NoResult(wanted) || (r.parse(output).Some? && Evidence.Contains(r.parse(output).value, wanted))
  }

  /** The outcome is the evidence asked for. */
  predicate Matches(r: Reading, s: Spec, o: Outcome) {
    s.tool == o.tool && Evidence.Contains(o.arguments, s.arguments) &&
    (forall i :: 0 <= i < |s.fragments| ==> r.mentions(o.output, s.fragments[i])) && ResultMatches(r, o.output, s.result)
  }

  /** An outcome that has everything a matching outcome has, and mentions as much, matches too. */
  lemma {:induction false} RicherMatches(r: Reading, s: Spec, o: Outcome, richer: Outcome)
    requires Matches(r, s, o) && richer.tool == o.tool && Evidence.Contains(richer.arguments, o.arguments)
    requires forall f :: r.mentions(o.output, f) ==> r.mentions(richer.output, f)
    requires r.parse(o.output).Some? ==>
      r.parse(richer.output).Some? && Evidence.Contains(r.parse(richer.output).value, r.parse(o.output).value)
    ensures Matches(r, s, richer)
  {
    hide Evidence.Contains, Evidence.Stored;
    Evidence.ContainsTransitive(richer.arguments, o.arguments, s.arguments);
    if !NoResult(s.result) {
      Evidence.ContainsTransitive(r.parse(richer.output).value, r.parse(o.output).value, s.result);
    }
  }

  /** Everything wanted of an output is in it, place by place. */
  ghost predicate ResultShown(r: Reading, output: string, wanted: Evidence.Data) {
    wanted == Json.Null || wanted == Json.Obj([]) ||
    (r.parse(output).Some? && Evidence.Covers(r.parse(output).value, wanted))
  }

  /** The call is of the tool asked for, and everything asked of arguments, result and text is there, place by place. */
  ghost predicate Shows(r: Reading, s: Spec, o: Outcome) {
    o.tool == s.tool && Evidence.Covers(o.arguments, s.arguments) &&
    (forall f :: f in s.fragments ==> r.mentions(o.output, f)) && ResultShown(r, o.output, s.result)
  }

  /** What is taken for evidence shows everything asked for; and where no array is asked for, nothing else is refused. */
  lemma {:induction false} MatchesShows(r: Reading, s: Spec, o: Outcome)
    ensures Matches(r, s, o) ==> Shows(r, s, o)
    ensures Evidence.NoArrays(s.arguments) && Evidence.NoArrays(s.result) ==> (Matches(r, s, o) <==> Shows(r, s, o))
  {
    hide Evidence.Contains, Evidence.Covers, Evidence.NoArrays;
    Evidence.ContainsIsCovering(o.arguments, s.arguments);
    if r.parse(o.output).Some? { Evidence.ContainsIsCovering(r.parse(o.output).value, s.result); }
  }

  /** A deliverable the final answer must show, taken from the result of a tool. */
  datatype Check = Check(tool: string, arguments: Evidence.Data, result: Evidence.Data, table: bool)
  datatype Artifact = Rows(rows: seq<Tables.Row>) | Item(value: Json.Value)

  datatype Requirement = Requirement(spec: Spec, required: bool)
  datatype Edge = Edge(to: string, when: Reason, evidence: seq<Spec>)
  datatype Phase = Phase(id: string, completion: seq<Requirement>, edges: seq<Edge>, allowed: Option<seq<string>>)

  datatype Config = Config(entry: string, phases: seq<Phase>, checks: seq<Check>, maxInvalid: nat, toolsOff: bool,
                           reading: Reading)

  const COMPLETE: string := "complete"

  function Find(phases: seq<Phase>, id: string): (r: Option<Phase>)
    ensures r.Some? ==> r.value.id == id && r.value in phases
    ensures r.None? ==> forall p :: p in phases ==> p.id != id
  {
    if phases == [] then None else if phases[0].id == id then Some(phases[0]) else Find(phases[1..], id)
  }

  /** The tools a phase admits: those listed, or else those its evidence names. */
  predicate Admits(p: Phase, tool: string) {
    match p.allowed
    case Some(names) => tool in names
    case None => exists i :: 0 <= i < |p.completion| && p.completion[i].spec.tool == tool
  }

  predicate AllowedIn(c: Config, phase: Option<string>, tool: string) {
    !c.toolsOff && phase.Some? && Find(c.phases, phase.value).Some? && Admits(Find(c.phases, phase.value).value, tool)
  }

  /** Some phase is active, tools are on, and the phase lists the tool or, listing none, asks for evidence from it. */
  predicate ToolAdmitted(c: Config, phase: Option<string>, tool: string) {
    !c.toolsOff && phase.Some? && Find(c.phases, phase.value).Some? &&
    var p := Find(c.phases, phase.value).value;
    (p.allowed.Some? ==> tool in p.allowed.value) &&
    (p.allowed.None? ==> exists i :: 0 <= i < |p.completion| && p.completion[i].spec.tool == tool)
  }

  lemma {:induction false} AdmittedIff(c: Config)
    ensures forall phase, tool :: AllowedIn(c, phase, tool) <==> ToolAdmitted(c, phase, tool)
  {
  }

  // ------------------------------------------------------------ evidence keys

  /** Which evidence of a phase was seen: of its completion, or of one of its transitions. */
  datatype Context = Completion | Transition(n: nat)
  datatype Key = Key(phase: string, context: Context, index: nat)

  function ContextText(c: Context): string {
    match c case Completion => "completion" case Transition(n) => "transition-" + NatText(n)
  }

  function KeyText(k: Key): string {
    k.phase + ":" + ContextText(k.context) + ":" + NatText(k.index)
  }

  predicate NoColon(s: string) {
    forall i :: 0 <= i < |s| ==> s[i] != ':'
  }

  /** What stands behind the last colon is determined. */
  lemma {:induction false} LastColon(a: string, b: string, x: string, y: string)
    requires a + ":" + x == b + ":" + y && NoColon(x) && NoColon(y)
    ensures a == b && x == y
  {
    var u, v := a + ":" + x, b + ":" + y;
    assert u[|a|] == ':' && v[|b|] == ':';
    assert forall i :: 0 <= i < |x| ==> u[|a| + 1 + i] == x[i];
    assert forall i :: 0 <= i < |y| ==> v[|b| + 1 + i] == y[i];
    assert |a| == |b|;
    assert a == u[..|a|] && b == v[..|b|] && x == u[|a| + 1..] && y == v[|b| + 1..];
  }

  lemma {:induction false} DigitsHaveNoColon(n: nat)
    ensures NoColon(NatText(n))
  {
    hide NatText;
    assert forall i | 0 <= i < |NatText(n)| :: IsDigit(NatText(n)[i]);
  }

  lemma {:induction false} ContextHasNoColon(c: Context)
    ensures NoColon(ContextText(c))
  {
    hide NatText;
    match c {
      case Completion => {}
      case Transition(n) => DigitsHaveNoColon(n);
    }
  }

  lemma {:induction false} ContextsDiffer(a: Context, b: Context)
    requires ContextText(a) == ContextText(b)
    ensures a == b
  {
    hide NatText;
    assert "completion"[0] == 'c' && forall n: nat :: ("transition-" + NatText(n))[0] == 't';
    if a.Transition? && b.Transition? {
      assert NatText(a.n) == ("transition-" + NatText(a.n))[11..] == NatText(b.n);
    }
  }

  /** Evidence keys are written as text; different evidence has different text, whatever the phases are called. */
  lemma {:induction false} KeysDiffer(j: Key, k: Key)
    requires KeyText(j) == KeyText(k)
    ensures j == k
  {
    hide NatText, ContextText;
    DigitsHaveNoColon(j.index);
    DigitsHaveNoColon(k.index);
    LastColon(j.phase + ":" + ContextText(j.context), k.phase + ":" + ContextText(k.context),
              NatText(j.index), NatText(k.index));
    ContextHasNoColon(j.context);
    ContextHasNoColon(k.context);
    LastColon(j.phase, k.phase, ContextText(j.context), ContextText(k.context));
    ContextsDiffer(j.context, k.context);
    assert NatOf(NatText(j.index)) == j.index && NatOf(NatText(k.index)) == k.index;
  }

  // ------------------------------------------------------------ the history of a run

  datatype Event = Ran(phase: Option<string>, outcome: Outcome) | Moved(from: string, to: string, reason: Reason)

  /** The active phase after some events. */
  function ActiveAfter(c: Config, log: seq<Event>): Option<string> {
    if log == [] then Some(c.entry)
    else
      var last := log[|log| - 1];
      if last.Ran? then ActiveAfter(c, log[..|log| - 1])
      else if last.to == COMPLETE then None else Some(last.to)
  }

  /** The evidence was produced by a tool executed in its phase. */
  predicate Seen(c: Config, log: seq<Event>, phase: string, spec: Spec) {
    exists k :: 0 <= k < |log| && log[k].Ran? && log[k].phase == Some(phase) && Matches(c.reading, spec, log[k].outcome)
  }

  predicate AllRequired(c: Config, log: seq<Event>, p: Phase) {
    forall i :: 0 <= i < |p.completion| && p.completion[i].required ==> Seen(c, log, p.id, p.completion[i].spec)
  }

  /** The condition on an edge has been met by what was executed so far. */
  predicate Earned(c: Config, log: seq<Event>, p: Phase, e: Edge) {
    match e.when
    case Always => true
    case PhaseComplete => AllRequired(c, log, p)
    case OnEvidence => forall i :: 0 <= i < |e.evidence| ==> Seen(c, log, p.id, e.evidence[i])
  }

  /** An event that may follow the events before it. */
  predicate Lawful(c: Config, log: seq<Event>, e: Event) {
    match e
    case Ran(phase, outcome) => phase == ActiveAfter(c, log) && AllowedIn(c, phase, outcome.tool)
    case Moved(from, to, reason) =>
      ActiveAfter(c, log) == Some(from) && Find(c.phases, from).Some? &&
      var p := Find(c.phases, from).value;
      exists n :: 0 <= n < |p.edges| && p.edges[n].to == to && p.edges[n].when == reason && Earned(c, log, p, p.edges[n])
  }

  /** Every tool ran in the phase active at the time and admitted by it, and every transition was earned before. */
  predicate LawfulRun(c: Config, log: seq<Event>) {
    forall i :: 0 <= i < |log| ==> Lawful(c, log[..i], log[i])
  }

  lemma {:induction false} LawfulAppend(c: Config, log: seq<Event>, e: Event)
    requires LawfulRun(c, log) && Lawful(c, log, e)
    ensures LawfulRun(c, log + [e])
  {
    hide Lawful;
    var all := log + [e];
    forall i | 0 <= i < |all| ensures Lawful(c, all[..i], all[i]) {
      assert all[..i] == if i < |log| then log[..i] else log;
    }
  }

  lemma {:induction false} ActiveAppend(c: Config, log: seq<Event>, e: Event)
    ensures ActiveAfter(c, log + [e]) ==
      if e.Ran? then ActiveAfter(c, log) else if e.to == COMPLETE then None else Some(e.to)
  {
    assert (log + [e])[..|log|] == log;
  }

  /** The transitions of a history. */
  function Moves(log: seq<Event>): seq<Event> {
    if log == [] then []
    else Moves(log[..|log| - 1]) + if log[|log| - 1].Moved? then [log[|log| - 1]] else []
  }

  /** One transition takes up where the one before it ended. */
  predicate Follows(moves: seq<Event>, i: nat)
    requires i + 1 < |moves| && moves[i].Moved? && moves[i + 1].Moved?
  {
    moves[i + 1].from == moves[i].to && moves[i].to != COMPLETE
  }

  /** Transitions that follow one another from the entry phase. */
  predicate IsPath(c: Config, moves: seq<Event>) {
    (forall i :: 0 <= i < |moves| ==> moves[i].Moved?) &&
    (moves != [] ==> moves[0].from == c.entry) &&
    (forall i :: 0 <= i < |moves| - 1 ==> Follows(moves, i))
  }

  /** Where a path ends. */
  function EndOf(c: Config, moves: seq<Event>): Option<string>
    requires IsPath(c, moves)
  {
    if moves == [] then Some(c.entry)
    else if moves[|moves| - 1].to == COMPLETE then None else Some(moves[|moves| - 1].to)
  }

  lemma {:induction false} PathStep(c: Config, moves: seq<Event>, e: Event)
    requires IsPath(c, moves) && e.Moved? && EndOf(c, moves) == Some(e.from)
    ensures IsPath(c, moves + [e])
    ensures EndOf(c, moves + [e]) == if e.to == COMPLETE then None else Some(e.to)
  {
    var all := moves + [e];
    forall i | 0 <= i < |all| - 1 ensures Follows(all, i) {
      if i < |moves| - 1 { assert Follows(moves, i); }
    }
  }

  lemma {:induction false} LawfulFront(c: Config, log: seq<Event>)
    requires LawfulRun(c, log) && log != []
    ensures LawfulRun(c, log[..|log| - 1]) && Lawful(c, log[..|log| - 1], log[|log| - 1])
  {
    hide Lawful;
    var front := log[..|log| - 1];
    forall i | 0 <= i < |front| ensures Lawful(c, front[..i], front[i]) {
      assert front[..i] == log[..i];
    }
  }

  /** In a lawful run the transitions form a path from the entry phase to the active one. */
  lemma {:induction false} LawfulIsPath(c: Config, log: seq<Event>)
    requires LawfulRun(c, log)
    ensures IsPath(c, Moves(log)) && ActiveAfter(c, log) == EndOf(c, Moves(log))
    decreases |log|
  {
    hide Earned, AllowedIn, LawfulRun;
    if log != [] {
      hide IsPath, EndOf;
      var front, last := log[..|log| - 1], log[|log| - 1];
      LawfulFront(c, log);
      LawfulIsPath(c, front);
      if last.Moved? {
        PathStep(c, Moves(front), last);
      } else {
        assert Moves(front) + [] == Moves(front);
      }
    }
  }

  /** The tool ran in the phase active at the time, and that phase admits it. */
  predicate RanInPhase(c: Config, log: seq<Event>, i: nat)
    requires i < |log| && log[i].Ran?
  {
    log[i].phase.Some? && log[i].phase == ActiveAfter(c, log[..i]) && ToolAdmitted(c, log[i].phase, log[i].outcome.tool)
  }

  /** The transition left the active phase, and on completion all its required evidence had been produced before. */
  predicate WasEarned(c: Config, log: seq<Event>, i: nat)
    requires i < |log| && log[i].Moved?
  {
    ActiveAfter(c, log[..i]) == Some(log[i].from) && Find(c.phases, log[i].from).Some? &&
    (log[i].reason == PhaseComplete ==> AllRequired(c, log[..i], Find(c.phases, log[i].from).value))
  }

  /** What the history of every run shows. */
  predicate Evidenced(c: Config, log: seq<Event>) {
    IsPath(c, Moves(log)) && ActiveAfter(c, log) == EndOf(c, Moves(log)) &&
    forall i :: 0 <= i < |log| ==> if log[i].Ran? then RanInPhase(c, log, i) else WasEarned(c, log, i)
  }

  lemma {:induction false} LawfulIsEvidenced(c: Config, log: seq<Event>)
    requires LawfulRun(c, log)
    ensures Evidenced(c, log)
  {
    hide AllowedIn, Find, ActiveAfter, Earned, IsPath, EndOf;
    LawfulIsPath(c, log);
    AdmittedIff(c);
    forall i | 0 <= i < |log| ensures if log[i].Ran? then RanInPhase(c, log, i) else WasEarned(c, log, i) {
      assert Lawful(c, log[..i], log[i]);
      if log[i].Moved? { LawfulMove(c, log, i); }
    }
  }

  lemma {:induction false} LawfulMove(c: Config, log: seq<Event>, i: nat)
    requires i < |log| && log[i].Moved? && Lawful(c, log[..i], log[i])
    ensures WasEarned(c, log, i)
  {
    hide AllRequired, ActiveAfter;
    var p := Find(c.phases, log[i].from).value;
    var n :| 0 <= n < |p.edges| && p.edges[n].to == log[i].to && p.edges[n].when == log[i].reason &&
             Earned(c, log[..i], p, p.edges[n]);
  }

  // ------------------------------------------------------------ deliverables

  predicate Failed(output: string) {
    "ERROR:" <= output || "AssertionError:" <= output
  }

  /** Whether an outcome is the one a check takes its deliverable from. */
  predicate Relevant(c: Config, i: nat, o: Outcome)
    requires i < |c.checks|
  {
    var check := c.checks[i];
    !Failed(o.output) && check.tool == o.tool && Evidence.Contains(o.arguments, check.arguments) &&
    (check.result.Obj? ==> ResultMatches(c.reading, o.output, check.result))
  }

  /** The output is no error, comes from the tool asked for, and shows the arguments and result asked for. */
  ghost predicate Provides(c: Config, i: nat, o: Outcome)
    requires i < |c.checks|
  {
    !("ERROR:" <= o.output) && !("AssertionError:" <= o.output) && o.tool == c.checks[i].tool &&
    Evidence.Covers(o.arguments, c.checks[i].arguments) &&
    (c.checks[i].result.Obj? ==> ResultShown(c.reading, o.output, c.checks[i].result))
  }

  lemma {:induction false} RelevantProvides(c: Config, i: nat, o: Outcome)
    requires i < |c.checks|
    ensures Relevant(c, i, o) ==> Provides(c, i, o)
    ensures Evidence.NoArrays(c.checks[i].arguments) && Evidence.NoArrays(c.checks[i].result) ==>
      (Relevant(c, i, o) <==> Provides(c, i, o))
  {
    hide Evidence.Contains, Evidence.Covers, Evidence.NoArrays;
    Evidence.ContainsIsCovering(o.arguments, c.checks[i].arguments);
    if c.reading.parse(o.output).Some? {
      Evidence.ContainsIsCovering(c.reading.parse(o.output).value, c.checks[i].result);
    }
  }

  function Extracted(c: Config, i: nat, output: string): Option<Artifact>
    requires i < |c.checks|
  {
    if c.checks[i].table then
      var rows := Tables.ParseTable(output);
      if rows.Some? then Some(Rows(rows.value)) else None
    else
      var value := c.reading.extract(i, output);
      if value.Some? then Some(Item(value.value)) else None
  }

  /** The deliverable came out of an executed call. */
  predicate Produced(c: Config, log: seq<Event>, i: nat, a: Artifact)
    requires i < |c.checks|
  {
    exists k :: 0 <= k < |log| && log[k].Ran? && Relevant(c, i, log[k].outcome) &&
                Extracted(c, i, log[k].outcome.output) == Some(a)
  }

  predicate AllProduced(c: Config, log: seq<Event>, artifacts: map<nat, Artifact>) {
    forall i :: i in artifacts ==> i < |c.checks| && Produced(c, log, i, artifacts[i])
  }

  lemma {:induction false} ProducedLonger(c: Config, log: seq<Event>, e: Event, artifacts: map<nat, Artifact>)
    requires AllProduced(c, log, artifacts)
    ensures AllProduced(c, log + [e], artifacts)
  {
    hide Relevant, Extracted;
    forall i | i in artifacts ensures Produced(c, log + [e], i, artifacts[i]) {
      var k :| 0 <= k < |log| && log[k].Ran? && Relevant(c, i, log[k].outcome) &&
               Extracted(c, i, log[k].outcome.output) == Some(artifacts[i]);
      assert (log + [e])[k] == log[k];
    }
  }

  predicate Shown(c: Config, i: nat, text: string, a: Artifact) {
    match a
    case Rows(rows) => Tables.CheckTable(text, rows)
    case Item(value) => c.reading.shows(i, text, value)
  }

  /** The answer is not blank, satisfies the configured patterns and shows every deliverable. */
  predicate AnswerOk(c: Config, world: World, artifacts: map<nat, Artifact>, text: string) {
    Trim(text) != "" && world.acceptable(text) &&
    forall i :: 0 <= i < |c.checks| ==> i in artifacts && Shown(c, i, text, artifacts[i])
  }

  /** The answer has something to read in it, and shows every table deliverable: its header, its keys, its figures. */
  predicate AnswerShows(c: Config, artifacts: map<nat, Artifact>, text: string) {
    (exists k :: 0 <= k < |text| && !IsSpace(text[k])) &&
    forall i | 0 <= i < |c.checks| && c.checks[i].table ::
      i in artifacts && artifacts[i].Rows? && Tables.ShowsTable(text, artifacts[i].rows)
  }

  /** Deliverables that are tables were taken as tables. */
  predicate TablesAreRows(c: Config, artifacts: map<nat, Artifact>) {
    forall i | i in artifacts && i < |c.checks| && c.checks[i].table :: artifacts[i].Rows?
  }

  lemma {:induction false} ProducedAreRows(c: Config, log: seq<Event>, artifacts: map<nat, Artifact>)
    requires AllProduced(c, log, artifacts)
    ensures TablesAreRows(c, artifacts)
  {
    hide Relevant;
    forall i | i in artifacts && i < |c.checks| && c.checks[i].table ensures artifacts[i].Rows? {
      assert Produced(c, log, i, artifacts[i]);
    }
  }

  lemma {:induction false} AnswerOkShows(c: Config, world: World, artifacts: map<nat, Artifact>, text: string)
    requires TablesAreRows(c, artifacts) && AnswerOk(c, world, artifacts, text)
    ensures AnswerShows(c, artifacts, text) && world.acceptable(text)
  {
    hide Trim, Tables.CheckTable, Tables.ShowsTable;
    NotBlank(text);
    forall i | 0 <= i < |c.checks| && c.checks[i].table ensures Tables.ShowsTable(text, artifacts[i].rows) {
      assert Shown(c, i, text, artifacts[i]);
      Tables.AcceptedShows(text, artifacts[i].rows);
    }
  }

  lemma {:induction false} NotBlank(text: string)
    requires Trim(text) != ""
    ensures exists k :: 0 <= k < |text| && !IsSpace(text[k])
  {
    hide Trim;
    TrimIsTrimmed(text);
    var i, j :| 0 <= i <= j <= |text| && Trim(text) == text[i..j];
    assert text[i] == Trim(text)[0];
  }

  // ------------------------------------------------------------ the engine

  datatype Status = Active | Completed | Failed
  datatype Call = Call(tool: string, arguments: Evidence.Data, invalid: bool)
  datatype Decision = Malformed | Final(answer: string) | Calls(calls: seq<Call>)

  /** What the model and the tools answer; a tool that yields nothing means that the run broke off there. */
  datatype World = World(decide: nat -> Decision, result: nat -> Option<string>, overflows: nat -> bool,
                         stalled: nat -> bool, acceptable: string -> bool, bound: (nat, Call) -> bool)

  /** The evidence a key stands for. */
  function SpecOf(c: Config, k: Key): Option<Spec> {
    match Find(c.phases, k.phase)
    case None => None
    case Some(p) =>
      match k.context
      case Completion => if k.index < |p.completion| then Some(p.completion[k.index].spec) else None
      case Transition(n) =>
        if n < |p.edges| && k.index < |p.edges[n].evidence| then Some(p.edges[n].evidence[k.index]) else None
  }

  /** The event produced the evidence the key stands for. */
  predicate KeyMatches(c: Config, e: Event, k: Key) {
    e.Ran? && e.phase == Some(k.phase) && SpecOf(c, k).Some? && Matches(c.reading, SpecOf(c, k).value, e.outcome)
  }

  predicate Backed(c: Config, log: seq<Event>, k: Key) {
    SpecOf(c, k).Some? && Seen(c, log, k.phase, SpecOf(c, k).value)
  }

  /** The keys recorded are exactly those of the evidence produced. */
  ghost predicate Recorded(c: Config, log: seq<Event>, observed: set<Key>) {
    forall k :: k in observed <==> Backed(c, log, k)
  }

  lemma {:induction false} SeenStep(c: Config, log: seq<Event>, e: Event, phase: string, spec: Spec)
    ensures Seen(c, log + [e], phase, spec) <==>
      Seen(c, log, phase, spec) || (e.Ran? && e.phase == Some(phase) && Matches(c.reading, spec, e.outcome))
  {
    hide Matches;
    var all := log + [e];
    assert all[|log|] == e && forall k :: 0 <= k < |log| ==> all[k] == log[k];
    if Seen(c, all, phase, spec) {
      var k :| 0 <= k < |all| && all[k].Ran? && all[k].phase == Some(phase) && Matches(c.reading, spec, all[k].outcome);
      assert k < |log| ==> log[k] == all[k];
    }
  }

  lemma {:induction false} RecordedStep(c: Config, log: seq<Event>, e: Event, observed: set<Key>, after: set<Key>)
    requires Recorded(c, log, observed)
    requires forall k :: k in after <==> k in observed || KeyMatches(c, e, k)
    ensures Recorded(c, log + [e], after)
  {
    hide Seen, SpecOf, Matches;
    forall k ensures k in after <==> Backed(c, log + [e], k) {
      if SpecOf(c, k).Some? { SeenStep(c, log, e, k.phase, SpecOf(c, k).value); }
    }
  }

  predicate Met(p: Phase, n: nat, observed: set<Key>)
    requires n < |p.edges|
  {
    match p.edges[n].when
    case Always => true
    case PhaseComplete =>
      forall i :: 0 <= i < |p.completion| && p.completion[i].required ==> Key(p.id, Completion, i) in observed
    case OnEvidence => forall i :: 0 <= i < |p.edges[n].evidence| ==> Key(p.id, Transition(n), i) in observed
  }

  /** The keys recorded meet the condition of an edge exactly when what was executed has earned it. */
  lemma {:induction false} MetIffEarned(c: Config, log: seq<Event>, observed: set<Key>, p: Phase, n: nat)
    requires Recorded(c, log, observed) && Find(c.phases, p.id) == Some(p) && n < |p.edges|
    ensures Met(p, n, observed) <==> Earned(c, log, p, p.edges[n])
  {
    hide Seen, Find;
    forall i | 0 <= i < |p.completion|
      ensures Key(p.id, Completion, i) in observed <==> Seen(c, log, p.id, p.completion[i].spec)
    {
      assert Backed(c, log, Key(p.id, Completion, i)) <==> Seen(c, log, p.id, p.completion[i].spec);
    }
    forall i | 0 <= i < |p.edges[n].evidence|
      ensures Key(p.id, Transition(n), i) in observed <==> Seen(c, log, p.id, p.edges[n].evidence[i])
    {
      assert Backed(c, log, Key(p.id, Transition(n), i)) <==> Seen(c, log, p.id, p.edges[n].evidence[i]);
    }
  }

  /** The n-th edge of the phase is earned, and none before it. */
  predicate FirstEarned(c: Config, log: seq<Event>, p: Phase, n: nat)
    requires n < |p.edges|
  {
    Earned(c, log, p, p.edges[n]) && forall m :: 0 <= m < n ==> !Earned(c, log, p, p.edges[m])
  }

  /** A call that is not executed: malformed, not admitted by the phase, or against a bound result. */
  predicate Refused(c: Config, world: World, phase: Option<string>, calls: seq<Call>)
    requires calls != []
  {
    calls[0].invalid || !AllowedIn(c, phase, calls[0].tool) || world.bound(|calls|, calls[0])
  }

  /** The executions a batch of calls leads to, in order, as far as every tool answers. */
  function Executions(c: Config, world: World, phase: Option<string>, step: nat, calls: seq<Call>): Option<seq<Event>> {
    if calls == [] then Some([])
    else
      var rest := Executions(c, world, phase, step, calls[1..]);
      if Refused(c, world, phase, calls) then rest
      else
        var output := world.result(step + |calls|);
        if output.None? || rest.None? then None
        else Some([Ran(phase, Outcome(calls[0].tool, calls[0].arguments, output.value))] + rest.value)
  }

  predicate AnyRefused(c: Config, world: World, phase: Option<string>, calls: seq<Call>) {
    calls != [] && (Refused(c, world, phase, calls) || AnyRefused(c, world, phase, calls[1..]))
  }

  function After(front: seq<Event>, rest: Option<seq<Event>>): Option<seq<Event>> {
    if rest.None? then None else Some(front + rest.value)
  }

  /** The i-th call is sound, its tool is admitted and no bound result speaks against it. */
  predicate Runs(c: Config, world: World, phase: Option<string>, calls: seq<Call>, i: nat)
    requires i < |calls|
  {
    !calls[i].invalid && ToolAdmitted(c, phase, calls[i].tool) && !world.bound(|calls| - i, calls[i])
  }

  /** The event is the execution of the i-th call. */
  predicate IsRun(world: World, phase: Option<string>, step: nat, calls: seq<Call>, i: nat, e: Event)
    requires i < |calls|
  {
    e.Ran? && e.phase == phase && e.outcome.tool == calls[i].tool && e.outcome.arguments == calls[i].arguments &&
    world.result(step + |calls| - i) == Some(e.outcome.output)
  }

  /** The events are the executions of the calls at these places, in order: exactly of those that may run. */
  ghost predicate InOrder(c: Config, world: World, phase: Option<string>, step: nat, calls: seq<Call>,
                          events: seq<Event>, at: seq<nat>)
  {
    |at| == |events| && (forall k, l :: 0 <= k < l < |at| ==> at[k] < at[l]) &&
    (forall k :: 0 <= k < |at| ==> at[k] < |calls| && IsRun(world, phase, step, calls, at[k], events[k])) &&
    (forall i :: 0 <= i < |calls| ==> (Runs(c, world, phase, calls, i) <==> i in at))
  }

  predicate AllRun(c: Config, world: World, phase: Option<string>, calls: seq<Call>) {
    forall i :: 0 <= i < |calls| ==> Runs(c, world, phase, calls, i)
  }

  function Shifted(at: seq<nat>): (r: seq<nat>)
    ensures |r| == |at| && forall k :: 0 <= k < |r| ==> r[k] == at[k] + 1
  {
    seq(|at|, k requires 0 <= k < |at| => at[k] + 1)
  }

  lemma {:induction false} ShiftedIn(at: seq<nat>, i: nat)
    ensures i in Shifted(at) <==> i > 0 && i - 1 in at
  {
    if i > 0 && i - 1 in at {
      var k :| 0 <= k < |at| && at[k] == i - 1;
      assert Shifted(at)[k] == i;
    }
  }

  lemma {:induction false} LaterRuns(c: Config, world: World, phase: Option<string>, step: nat, calls: seq<Call>, i: nat)
    requires i + 1 < |calls|
    ensures Runs(c, world, phase, calls[1..], i) <==> Runs(c, world, phase, calls, i + 1)
    ensures forall e :: IsRun(world, phase, step, calls[1..], i, e) <==> IsRun(world, phase, step, calls, i + 1, e)
  {
    hide ToolAdmitted;
  }

  /** What a batch of calls leads to: the calls that may run are executed, each once, in order. */
  lemma {:induction false} ExecutionsInOrder(c: Config, world: World, phase: Option<string>, step: nat, calls: seq<Call>)
    returns (at: seq<nat>)
    requires Executions(c, world, phase, step, calls).Some?
    ensures InOrder(c, world, phase, step, calls, Executions(c, world, phase, step, calls).value, at)
    decreases |calls|
  {
    hide Runs, IsRun, InOrder, Refused;
    at := [];
    if calls == [] {
      assert InOrder(c, world, phase, step, calls, [], at) by { NoneInOrder(c, world, phase, step); }
    } else {
      var rest := calls[1..];
      var later := ExecutionsInOrder(c, world, phase, step, rest);
      var events := Executions(c, world, phase, step, rest).value;
      FirstRuns(c, world, phase, step, calls);
      if Refused(c, world, phase, calls) {
        at := Shifted(later);
        SkippedOrder(c, world, phase, step, calls, events, later);
      } else {
        at := [0] + Shifted(later);
        RunOrder(c, world, phase, step, calls, Executions(c, world, phase, step, calls).value[0], events, later);
      }
    }
  }

  lemma {:induction false} NoneInOrder(c: Config, world: World, phase: Option<string>, step: nat)
    ensures InOrder(c, world, phase, step, [], [], [])
  {
  }

  lemma {:induction false} FirstRuns(c: Config, world: World, phase: Option<string>, step: nat, calls: seq<Call>)
    requires calls != []
    ensures Refused(c, world, phase, calls) <==> !Runs(c, world, phase, calls, 0)
    ensures world.result(step + |calls|).Some? ==>
      var e := Ran(phase, Outcome(calls[0].tool, calls[0].arguments, world.result(step + |calls|).value));
      IsRun(world, phase, step, calls, 0, e)
  {
    hide AllowedIn, ToolAdmitted;
    AdmittedIff(c);
  }

  lemma {:induction false} SkippedOrder(c: Config, world: World, phase: Option<string>, step: nat, calls: seq<Call>,
                                        events: seq<Event>, later: seq<nat>)
    requires calls != [] && InOrder(c, world, phase, step, calls[1..], events, later)
    requires !Runs(c, world, phase, calls, 0)
    ensures InOrder(c, world, phase, step, calls, events, Shifted(later))
  {
    hide Runs, IsRun;
    var at := Shifted(later);
    forall i | 0 <= i < |calls| ensures Runs(c, world, phase, calls, i) <==> i in at {
      ShiftedIn(later, i);
      if i > 0 { LaterRuns(c, world, phase, step, calls, i - 1); }
    }
    forall k | 0 <= k < |at| ensures at[k] < |calls| && IsRun(world, phase, step, calls, at[k], events[k]) {
      LaterRuns(c, world, phase, step, calls, later[k]);
    }
  }

  lemma {:induction false} RunOrder(c: Config, world: World, phase: Option<string>, step: nat, calls: seq<Call>,
                                    e: Event, events: seq<Event>, later: seq<nat>)
    requires calls != [] && InOrder(c, world, phase, step, calls[1..], events, later)
    requires Runs(c, world, phase, calls, 0) && IsRun(world, phase, step, calls, 0, e)
    ensures InOrder(c, world, phase, step, calls, [e] + events, [0] + Shifted(later))
  {
    hide Runs, IsRun;
    var at, all := [0] + Shifted(later), [e] + events;
    forall i | 0 <= i < |calls| ensures Runs(c, world, phase, calls, i) <==> i in at {
      ShiftedIn(later, i);
      if i > 0 { LaterRuns(c, world, phase, step, calls, i - 1); }
    }
    forall k | 0 <= k < |at| ensures at[k] < |calls| && IsRun(world, phase, step, calls, at[k], all[k]) {
      if k > 0 {
        assert at[k] == later[k - 1] + 1 && all[k] == events[k - 1];
        LaterRuns(c, world, phase, step, calls, later[k - 1]);
      }
    }
  }

  lemma {:induction false} RefusedIff(c: Config, world: World, phase: Option<string>, calls: seq<Call>)
    ensures AnyRefused(c, world, phase, calls) <==> !AllRun(c, world, phase, calls)
    decreases |calls|
  {
    hide Runs, Refused;
    if calls != [] {
      RefusedIff(c, world, phase, calls[1..]);
      FirstRuns(c, world, phase, 0, calls);
      forall i | 0 <= i < |calls| - 1 ensures Runs(c, world, phase, calls[1..], i) <==> Runs(c, world, phase, calls, i + 1) {
        LaterRuns(c, world, phase, 0, calls, i);
      }
      assert forall i :: 0 < i < |calls| ==> (Runs(c, world, phase, calls, i) <==> Runs(c, world, phase, calls[1..], i - 1));
    }
  }

  // ------------------------------------------------------------ what a run is

  /** What of the engine a run is about. */
  datatype Snap = Snap(active: Option<string>, log: seq<Event>, artifacts: map<nat, Artifact>, invalid: nat,
                       status: Status, answer: Option<string>, stepCount: nat)

  /** The active phase is left by its first transition that is earned, if there is one. */
  ghost predicate Advances(c: Config, a: Snap, b: Snap) {
    if Moving(c, a) then
      var p := Find(c.phases, a.active.value).value;
      exists n | 0 <= n < |p.edges| && FirstEarned(c, a.log, p, n) ::
        b == a.(log := a.log + [Moved(p.id, p.edges[n].to, p.edges[n].when)],
                active := if p.edges[n].to == COMPLETE then None else Some(p.edges[n].to))
    else b == a
  }

  predicate Moving(c: Config, a: Snap) {
    a.active.Some? && Find(c.phases, a.active.value).Some? &&
    var p := Find(c.phases, a.active.value).value;
    exists n :: 0 <= n < |p.edges| && Earned(c, a.log, p, p.edges[n])
  }

  /** A response that is no use is counted, and enough of them in a row end the run. */
  predicate Rejects(c: Config, a: Snap, b: Snap) {
    b == a.(invalid := a.invalid + 1, status := if a.invalid + 1 < c.maxInvalid then a.status else Status.Failed)
  }

  /** Of a batch exactly the calls that may run are executed, in order; a batch with others counts once as no use. */
  ghost predicate Settles(c: Config, world: World, calls: seq<Call>, a: Snap, b: Snap) {
    a.log <= b.log && (exists at :: InOrder(c, world, a.active, a.stepCount, calls, b.log[|a.log|..], at)) &&
    if AllRun(c, world, a.active, calls) then b == a.(log := b.log, artifacts := b.artifacts, invalid := 0)
    else Rejects(c, a.(log := b.log, artifacts := b.artifacts), b)
  }

  /** What becomes of the decision of the current step. */
  ghost predicate Decides(c: Config, world: World, d: Decision, a: Snap, b: Snap) {
    match d
    case Malformed => Rejects(c, a, b)
    case Final(text) =>
      if a.active.None? && AnswerOk(c, world, a.artifacts, text)
      then b == a.(invalid := 0, status := Completed, answer := Some(text)) else Rejects(c, a, b)
    case Calls(calls) => Settles(c, world, calls, a, b)
  }

  predicate Watches(world: World, a: Snap, b: Snap) {
    b == if a.status != Completed && world.stalled(a.stepCount) then a.(status := Status.Failed) else a
  }

  /** One turn of the loop: the due transition, the measure of the request, one decision and what becomes of it. */
  ghost predicate Turns(c: Config, world: World, a: Snap, b: Snap) {
    a.status == Active &&
    exists m | Advances(c, a, m) ::
      if world.overflows(a.stepCount) then b == m.(status := Status.Failed)
      else exists n | Decides(c, world, world.decide(a.stepCount + 1), m.(stepCount := a.stepCount + 1), n) ::
        Watches(world, n, b)
  }

  ghost predicate Chain(c: Config, world: World, snaps: seq<Snap>) {
    forall i :: 0 <= i < |snaps| - 1 ==> Linked(c, world, snaps, i)
  }

  ghost predicate Linked(c: Config, world: World, snaps: seq<Snap>, i: nat)
    requires i + 1 < |snaps|
  {
    Turns(c, world, snaps[i], snaps[i + 1])
  }

  /** A run: what an earlier one left over is settled, then turns follow one another until the run is over or the
      allowance is used up, which ends it without success. */
  ghost predicate RunsAs(c: Config, world: World, left: seq<Call>, allowance: nat, a: Snap, b: Snap) {
    exists snaps: seq<Snap> | snaps != [] && Chain(c, world, snaps) :: Spans(c, world, left, allowance, a, b, snaps)
  }

  ghost predicate Spans(c: Config, world: World, left: seq<Call>, allowance: nat, a: Snap, b: Snap, snaps: seq<Snap>)
    requires snaps != []
  {
    (if left == [] then snaps[0] == a else Resumes(c, world, left, a, snaps[0])) &&
    var last := snaps[|snaps| - 1];
    if last.status != Active then b == last
    else b == last.(status := Status.Failed) && last.stepCount == a.stepCount + allowance
  }

  ghost predicate Resumes(c: Config, world: World, left: seq<Call>, a: Snap, b: Snap) {
    exists m | Settles(c, world, left, a, m) :: Watches(world, m, b)
  }

  lemma {:induction false} LongerChain(c: Config, world: World, snaps: seq<Snap>, b: Snap)
    requires snaps != [] && Chain(c, world, snaps) && Turns(c, world, snaps[|snaps| - 1], b)
    ensures Chain(c, world, snaps + [b])
  {
    hide Turns;
    var all := snaps + [b];
    forall i | 0 <= i < |all| - 1 ensures Linked(c, world, all, i) {
      if i < |snaps| - 1 { assert Linked(c, world, snaps, i); }
    }
  }

  class Engine {
    const config: Config
    var active: Option<string>
    var observed: set<Key>
    var artifacts: map<nat, Artifact>
    var transitions: seq<Event>
    var pending: seq<Call>
    var pendingPhase: Option<string>
    var status: Status
    var answer: Option<string>
    var invalid: nat
    var stepCount: nat
    /** Everything executed and every transition taken, in order. */
    ghost var log: seq<Event>

    ghost predicate Valid()
      reads this
    {
      LawfulRun(config, log) && Recorded(config, log, observed) && active == ActiveAfter(config, log) &&
      transitions == Moves(log) && (pending != [] ==> pendingPhase == active) &&
      AllProduced(config, log, artifacts)
    }

    constructor (config: Config)
      ensures Valid() && this.config == config && status == Active && log == [] && stepCount == 0 && answer == None
    {
      this.config, active, observed, transitions := config, Some(config.entry), {}, [];
      pending, pendingPhase, status, answer, invalid, stepCount, log := [], None, Active, None, 0, 0, [];
      artifacts := map[];
    }

    ghost function Now(): Snap
      reads this
    {
      Snap(active, log, artifacts, invalid, status, answer, stepCount)
    }

    /** Take the first transition of the active phase that what was executed has earned. */
    method Advance()
      requires Valid() && pending == []
      modifies this`active, this`transitions, this`log
      ensures Valid()
      ensures Advances(config, old(Now()), Now())
    {
      hide Earned, Met, LawfulRun, Recorded, AllProduced, Moves, ActiveAfter;
      if active.None? { return; }
      var found := Find(config.phases, active.value);
      if found.None? { return; }
      var p, n := found.value, 0;
      forall m | 0 <= m < |p.edges| ensures Met(p, m, observed) <==> Earned(config, log, p, p.edges[m]) {
        MetIffEarned(config, log, observed, p, m);
      }
      while n < |p.edges| && !Met(p, n, observed)
        invariant 0 <= n <= |p.edges| && forall m :: 0 <= m < n ==> !Earned(config, log, p, p.edges[m])
      {
        n := n + 1;
      }
      if n == |p.edges| { return; }
      assert FirstEarned(config, log, p, n);
      var e := Moved(p.id, p.edges[n].to, p.edges[n].when);
      EarnedIsLawful(config, log, p, n);
      LawfulAppend(config, log, e);
      ActiveAppend(config, log, e);
      RecordedStep(config, log, e, observed, observed);
      ProducedLonger(config, log, e, artifacts);
      MovesAppend(log, e);
      active := if p.edges[n].to == COMPLETE then None else Some(p.edges[n].to);
      transitions, log := transitions + [e], log + [e];
    }

    /** Note the evidence of the active phase that an executed call supplies: what matches, and nothing that does not
        show, place by place, everything asked for. */
    method Record(outcome: Outcome)
      requires log != [] && log[|log| - 1] == Ran(active, outcome)
      requires Recorded(config, log[..|log| - 1], observed)
      modifies this`observed
      ensures Recorded(config, log, observed)
      ensures forall k :: k in observed <==> k in old(observed) || KeyMatches(config, Ran(active, outcome), k)
      ensures forall k :: k in observed && k !in old(observed) ==>
        Some(k.phase) == active && SpecOf(config, k).Some? && Shows(config.reading, SpecOf(config, k).value, outcome)
    {
      hide Matches, Recorded, Shows, Find, SpecOf;
      ghost var e := log[|log| - 1];
      forall k | KeyMatches(config, e, k) ensures Shows(config.reading, SpecOf(config, k).value, outcome) {
        MatchesShows(config.reading, SpecOf(config, k).value, outcome);
      }
      NothingWithoutPhase(config, e);
      RecordPhase(outcome);
      assert log == log[..|log| - 1] + [e];
      RecordedStep(config, log[..|log| - 1], e, old(observed), observed);
    }

    /** The two loops over the evidence of the active phase. */
    method RecordPhase(outcome: Outcome)
      modifies this`observed
      ensures forall k :: k in observed <==> k in old(observed) || KeyMatches(config, Ran(active, outcome), k)
    {
      hide Matches, Find;
      ghost var e := Ran(active, outcome);
      NothingWithoutPhase(config, e);
      if active.None? { return; }
      var found := Find(config.phases, active.value);
      if found.None? { return; }
      var p := found.value;
      var i := 0;
      while i < |p.completion|
        invariant 0 <= i <= |p.completion|
        invariant forall k :: k in observed <==> k in old(observed) || (KeyMatches(config, e, k) && Passed(k, i, 0))
      {
        if Matches(config.reading, p.completion[i].spec, outcome) {
          observed := observed + {Key(p.id, Completion, i)};
        }
        i := i + 1;
      }
      var n := 0;
      while n < |p.edges|
        invariant 0 <= n <= |p.edges|
        invariant forall k :: k in observed <==>
          k in old(observed) || (KeyMatches(config, e, k) && Passed(k, |p.completion|, n))
      {
        observed := RecordEdge(p, n, outcome);
        n := n + 1;
      }
    }

    method RecordEdge(p: Phase, n: nat, outcome: Outcome) returns (after: set<Key>)
      requires active == Some(p.id) && Find(config.phases, p.id) == Some(p) && n < |p.edges|
      ensures forall k :: k in after <==>
        k in observed || (KeyMatches(config, Ran(active, outcome), k) && k.context == Transition(n))
    {
      hide Matches, Find;
      ghost var e := Ran(active, outcome);
      after := observed;
      var i := 0;
      while i < |p.edges[n].evidence|
        invariant 0 <= i <= |p.edges[n].evidence|
        invariant forall k :: k in after <==>
          k in observed || (KeyMatches(config, e, k) && k.context == Transition(n) && k.index < i)
      {
        if Matches(config.reading, p.edges[n].evidence[i], outcome) {
          after := after + {Key(p.id, Transition(n), i)};
        }
        i := i + 1;
      }
    }

    /** Count an invalid response; too many in a row end the run. */
    method CountInvalid()
      modifies this`invalid, this`status
      ensures invalid == old(invalid) + 1
      ensures status == if invalid < config.maxInvalid then old(status) else Failed
    {
      invalid := invalid + 1;
      if invalid >= config.maxInvalid { status := Failed; }
    }

    /** Settle the scheduled calls one by one: reject, or execute and record. */
    method SettlePending(world: World) returns (ok: bool)
      requires Valid() && status == Active && (pending == [] ==> pendingPhase == active)
      modifies this
      ensures Valid() && stepCount == old(stepCount) && answer == old(answer) && active == old(active)
      ensures transitions == old(transitions) && status != Completed && old(observed) <= observed
      ensures ok <==> Executions(config, world, active, stepCount, old(pending)).Some?
      ensures ok ==> pending == [] && Some(log) == After(old(log), Executions(config, world, active, stepCount, old(pending)))
      ensures ok ==>
        old(|log|) <= |log| &&
        exists at :: InOrder(config, world, active, stepCount, old(pending), log[old(|log|)..], at)
      ensures ok ==> Settles(config, world, old(pending), old(Now()), Now())
    {
      hide LawfulRun, Recorded, AllProduced, Earned, AllowedIn, Refused, Moves, ActiveAfter, Executions, AnyRefused, InOrder,
           AllRun;
      var rejected;
      ok, rejected := SettleCalls(world);
      if !ok { return; }
      ghost var at := ExecutionsInOrder(config, world, active, stepCount, old(pending));
      assert log[old(|log|)..] == Executions(config, world, active, stepCount, old(pending)).value;
      RefusedIff(config, world, active, old(pending));
      if rejected { CountInvalid(); } else { invalid := 0; }
    }

    /** The loop over the scheduled calls. */
    method SettleCalls(world: World) returns (ok: bool, rejected: bool)
      requires Valid() && status == Active && (pending == [] ==> pendingPhase == active)
      modifies this`log, this`observed, this`artifacts, this`pending, this`pendingPhase
      ensures Valid() && old(observed) <= observed
      ensures ok <==> Executions(config, world, active, stepCount, old(pending)).Some?
      ensures ok ==> pending == [] && Some(log) == After(old(log), Executions(config, world, active, stepCount, old(pending)))
      ensures ok ==> (rejected <==> AnyRefused(config, world, active, old(pending)))
    {
      hide LawfulRun, Recorded, AllProduced, Earned, AllowedIn, Refused, Moves, ActiveAfter;
      var phase := pendingPhase;
      rejected := false;
      while pending != []
        invariant Valid() && phase == active && old(observed) <= observed
        invariant After(log, Executions(config, world, active, stepCount, pending)) ==
                  After(old(log), Executions(config, world, active, stepCount, old(pending)))
        invariant (rejected || AnyRefused(config, world, active, pending)) ==
                  AnyRefused(config, world, active, old(pending))
        decreases |pending|
      {
        hide Executions, AnyRefused, After;
        var refused;
        ok, refused := SettleOne(world, phase);
        if !ok { return; }
        rejected := rejected || refused;
        if pending == [] { pendingPhase := None; }
      }
      assert log + [] == log;
      ok := true;
    }

    /** Settle the first scheduled call. */
    method SettleOne(world: World, phase: Option<string>) returns (ok: bool, refused: bool)
      requires Valid() && status == Active && pending != [] && phase == active
      modifies this`log, this`observed, this`artifacts, this`pending
      ensures Valid() && old(observed) <= observed
      ensures ok ==> pending == old(pending)[1..]
      ensures ok ==> After(log, Executions(config, world, active, stepCount, pending)) ==
                     After(old(log), Executions(config, world, active, stepCount, old(pending)))
      ensures ok ==> AnyRefused(config, world, active, old(pending)) == (refused || AnyRefused(config, world, active, pending))
      ensures !ok ==> Executions(config, world, active, stepCount, old(pending)) == None
    {
      hide LawfulRun, Recorded, AllProduced, Earned, AllowedIn, Refused;
      var call := pending[0];
      ok, refused := true, Refused(config, world, phase, pending);
      if !refused {
        var output := world.result(stepCount + |pending|);
        if output.None? { return false, refused; }
        var outcome := Outcome(call.tool, call.arguments, output.value);
        NotRefused(config, world, phase, pending);
        AfterStep(log, Ran(active, outcome), Executions(config, world, active, stepCount, pending[1..]));
        Execute(outcome);
      }
      pending := pending[1..];
    }

    /** One executed call enters the history and the evidence. */
    method Execute(outcome: Outcome)
      requires Valid() && AllowedIn(config, active, outcome.tool)
      modifies this`log, this`observed, this`artifacts
      ensures Valid() && log == old(log) + [Ran(active, outcome)] && old(observed) <= observed
    {
      hide LawfulRun, Recorded, AllProduced, Earned, AllowedIn, Moves, ActiveAfter, KeyMatches, Shows, Provides, Relevant,
           Extracted, SpecOf;
      var e := Ran(active, outcome);
      LawfulAppend(config, log, e);
      ActiveAppend(config, log, e);
      ProducedLonger(config, log, e, artifacts);
      MovesAppend(log, e);
      assert (log + [e])[..|log|] == log;
      log := log + [e];
      CaptureArtifacts(outcome);
      Record(outcome);
    }

    /** Take the deliverables an executed call provides; a later one replaces an earlier one. */
    method CaptureArtifacts(outcome: Outcome)
      requires AllProduced(config, log, artifacts) && log != [] && log[|log| - 1] == Ran(active, outcome)
      modifies this`artifacts
      ensures AllProduced(config, log, artifacts)
      ensures forall i | 0 <= i < |config.checks| ::
        Relevant(config, i, outcome) && Extracted(config, i, outcome.output).Some? ==>
          i in artifacts && Some(artifacts[i]) == Extracted(config, i, outcome.output)
      ensures forall i | i in artifacts && (i !in old(artifacts) || artifacts[i] != old(artifacts)[i]) ::
        i < |config.checks| && Provides(config, i, outcome)
      ensures old(artifacts).Keys <= artifacts.Keys
    {
      hide Relevant, Extracted, Provides;
      forall i | 0 <= i < |config.checks| && Relevant(config, i, outcome) ensures Provides(config, i, outcome) {
        RelevantProvides(config, i, outcome);
      }
      var i := 0;
      while i < |config.checks|
        invariant 0 <= i <= |config.checks| && AllProduced(config, log, artifacts)
        invariant forall j | 0 <= j < i ::
          Relevant(config, j, outcome) && Extracted(config, j, outcome.output).Some? ==>
            j in artifacts && Some(artifacts[j]) == Extracted(config, j, outcome.output)
        invariant forall j | j in artifacts && (j !in old(artifacts) || artifacts[j] != old(artifacts)[j]) ::
          j < |config.checks| && Provides(config, j, outcome)
        invariant old(artifacts).Keys <= artifacts.Keys
      {
        if Relevant(config, i, outcome) {
          var value := Extracted(config, i, outcome.output);
          if value.Some? {
            assert Produced(config, log, i, value.value);
            artifacts := artifacts[i := value.value];
          }
        }
        i := i + 1;
      }
    }

    /** What the engine does with one decision of the model. */
    method TakeDecision(world: World, d: Decision) returns (ok: bool)
      requires Valid() && status == Active && pending == []
      modifies this
      ensures Valid() && stepCount == old(stepCount) && (ok ==> pending == [])
      ensures status == Completed <==> d.Final? && old(active).None? && AnswerOk(config, world, old(artifacts), d.answer)
      ensures status == Completed ==> active.None? && answer.Some? && AnswerShows(config, artifacts, answer.value)
      ensures status == Completed ==> AnswerOk(config, world, artifacts, answer.value) && world.acceptable(answer.value)
      ensures ok ==> Decides(config, world, d, old(Now()), Now())
    {
      hide LawfulRun, Recorded, AllProduced, AnswerShows, AnswerOk, Executions, AnyRefused, After, InOrder, AllRun, Moves,
           ActiveAfter, TablesAreRows, Settles;
      ProducedAreRows(config, log, artifacts);
      ok := true;
      match d {
        case Malformed => CountInvalid();
        case Final(text) =>
          if active.Some? || !AnswerOk(config, world, artifacts, text) {
            CountInvalid();
          } else {
            AnswerOkShows(config, world, artifacts, text);
            invalid, status, answer := 0, Completed, Some(text);
          }
        case Calls(calls) =>
          pending, pendingPhase := calls, active;
          ok := SettlePending(world);
      }
    }

    /** One turn of the loop. */
    method Turn(world: World) returns (ok: bool)
      requires Valid() && status == Active && pending == []
      modifies this
      ensures Valid() && (ok ==> pending == [] && Turns(config, world, old(Now()), Now()))
      ensures old(stepCount) <= stepCount <= old(stepCount) + 1 && (status == Active ==> stepCount == old(stepCount) + 1)
      ensures status == Completed ==> active.None? && answer.Some? && AnswerShows(config, artifacts, answer.value)
    {
      hide LawfulRun, Recorded, AllProduced, AnswerShows, AnswerOk, Moves, ActiveAfter, Executions, AnyRefused, After,
           InOrder, AllRun, Advances, Decides;
      ghost var a := Now();
      Advance();
      ghost var m := Now();
      if world.overflows(stepCount) {
        status := Failed;
        return true;
      }
      stepCount := stepCount + 1;
      ok := TakeDecision(world, world.decide(stepCount));
      if !ok { return; }
      ghost var n := Now();
      assert Decides(config, world, world.decide(a.stepCount + 1), m.(stepCount := a.stepCount + 1), n);
      if status != Completed && world.stalled(stepCount) { status := Failed; }
      assert Watches(world, n, Now());
    }

    /** A run: settle what an earlier run left over, then decide step by step within the allowance. */
    method Run(world: World, allowance: nat) returns (ok: bool)
      requires Valid() && status == Active
      modifies this
      ensures Valid() && old(stepCount) <= stepCount <= old(stepCount) + allowance
      ensures Evidenced(config, log) && AllProduced(config, log, artifacts)
      ensures ok ==> status != Active && RunsAs(config, world, old(pending), allowance, old(Now()), Now())
      ensures status == Completed ==> active.None? && answer.Some? && AnswerShows(config, artifacts, answer.value)
    {
      hide LawfulRun, Recorded, AllProduced, AnswerShows, Evidenced, RunsAs, Now;
      ok := RunSteps(world, allowance);
      LawfulIsEvidenced(config, log);
    }

    method RunSteps(world: World, allowance: nat) returns (ok: bool)
      requires Valid() && status == Active
      modifies this
      ensures Valid() && old(stepCount) <= stepCount <= old(stepCount) + allowance
      ensures ok ==> status != Active && RunsAs(config, world, old(pending), allowance, old(Now()), Now())
      ensures status == Completed ==> active.None? && answer.Some? && AnswerShows(config, artifacts, answer.value)
    {
      hide LawfulRun, Recorded, AllProduced, AnswerShows, AnswerOk, Moves, ActiveAfter, Executions, AnyRefused, After,
           InOrder, AllRun, Turns, Settles, Linked;
      var limit := stepCount + allowance;
      ghost var start := Now();
      if pending != [] {
        ok := SettlePending(world);
        if !ok { return; }
        ghost var m := Now();
        if world.stalled(stepCount) { status := Failed; }
        assert Watches(world, m, Now());
      }
      ghost var snaps := [Now()];
      while status == Active && stepCount < limit
        invariant Valid() && old(stepCount) <= stepCount <= limit && pending == []
        invariant status == Completed ==> active.None? && answer.Some? && AnswerShows(config, artifacts, answer.value)
        invariant snaps != [] && Chain(config, world, snaps) && snaps[|snaps| - 1] == Now()
        invariant if old(pending) == [] then snaps[0] == start else Resumes(config, world, old(pending), start, snaps[0])
        decreases limit - stepCount, status == Active
      {
        hide Chain, Resumes;
        ok := Turn(world);
        if !ok { return; }
        LongerChain(config, world, snaps, Now());
        snaps := snaps + [Now()];
      }
      if status == Active { status := Failed; }
      assert Spans(config, world, old(pending), allowance, start, Now(), snaps);
      ok := true;
    }
  }

  lemma {:induction false} NotRefused(c: Config, world: World, phase: Option<string>, calls: seq<Call>)
    requires calls != [] && !Refused(c, world, phase, calls)
    ensures AllowedIn(c, phase, calls[0].tool)
  {
  }

  lemma {:induction false} AfterStep(log: seq<Event>, e: Event, rest: Option<seq<Event>>)
    ensures After(log + [e], rest) == After(log, After([e], rest))
  {
    if rest.Some? { assert log + [e] + rest.value == log + ([e] + rest.value); }
  }

  /** Without an active phase nothing counts as evidence. */
  lemma {:induction false} NothingWithoutPhase(c: Config, e: Event)
    ensures (e.Ran? && (e.phase.None? || Find(c.phases, e.phase.value).None?)) || e.Moved? ==> forall k :: !KeyMatches(c, e, k)
  {
    hide Matches;
  }

  /** The key is among the first `i` of completion, or belongs to one of the first `n` transitions. */
  predicate Passed(k: Key, i: nat, n: nat) {
    match k.context case Completion => k.index < i case Transition(m) => m < n
  }

  lemma {:induction false} EarnedIsLawful(c: Config, log: seq<Event>, p: Phase, n: nat)
    requires ActiveAfter(c, log) == Some(p.id) && Find(c.phases, p.id) == Some(p) && n < |p.edges|
    requires Earned(c, log, p, p.edges[n])
    ensures Lawful(c, log, Moved(p.id, p.edges[n].to, p.edges[n].when))
  {
    hide Earned, Find, ActiveAfter;
  }

  lemma {:induction false} MovesAppend(log: seq<Event>, e: Event)
    ensures Moves(log + [e]) == Moves(log) + if e.Moved? then [e] else []
  {
    assert (log + [e])[..|log|] == log;
  }
}
