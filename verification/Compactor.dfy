/** The session side of compaction: appending messages, compacting under the budget, posting decisions. */
module Compactor {
  import opened Options
  import opened History
  import opened Compaction

  /** What the model answered: some text, and a failure code when the call did not end well. */
  datatype Reply = Reply(text: Option<string>, failure: Option<string>)
  datatype Verdict = Accepted(content: string) | Rejected(reason: string)

  /** Everything outside the engine: how large requests come out, what the model answers to the n-th request,
      what the ledger validator says. */
  datatype Outside = Outside(wire: Wire, answer: nat -> Reply, validate: (string, Source) -> Verdict)

  datatype Outcome = Done(changed: bool) | BudgetExceeded | Unreadable

  // ------------------------------------------------------------ the invariant and what keeps it

  ghost predicate HistoryOk(goal: string, archive: seq<Message>, memory: seq<Message>, compacted: Option<string>,
                            active: Option<nat>, summaries: seq<Summary>, next: nat) {
    Conserved(archive, summaries, memory) && Numbered(archive, next) && Chained(goal, summaries) &&
    Kept(archive, summaries, next) && compacted == LastContent(summaries) && active == LastId(summaries)
  }

  predicate AllFit(policy: Policy, posted: seq<Posted>) {
    forall i :: 0 <= i < |posted| ==> InWindow(policy, posted[i].payload, posted[i].cap)
  }

  lemma {:induction false} FindLonger(archive: seq<Message>, m: Message, next: nat, id: nat)
    requires Find(archive, id).Some? && Numbered(archive, next) && m.identity == Some(next)
    ensures Find(archive + [m], id).Some?
  {
    var i := Find(archive, id).value;
    assert (archive + [m])[i].identity == Some(id);
  }

  lemma {:induction false} KeptLonger(archive: seq<Message>, m: Message, summaries: seq<Summary>, next: nat)
    requires Kept(archive, summaries, next) && Numbered(archive, next) && m.identity == Some(next)
    ensures Kept(archive + [m], summaries, next + 1)
  {
    hide Find, Numbered;
    forall i, k | 0 <= i < |summaries| && 0 <= k < |summaries[i].retainedIds|
      ensures Find(archive + [m], summaries[i].retainedIds[k]).Some?
    {
      FindLonger(archive, m, next, summaries[i].retainedIds[k]);
    }
  }

  /** Appending a message under a new identity keeps the history in order. */
  lemma {:induction false} AppendKeeps(goal: string, archive: seq<Message>, memory: seq<Message>,
                                       compacted: Option<string>, active: Option<nat>, summaries: seq<Summary>,
                                       next: nat, m: Message)
    requires HistoryOk(goal, archive, memory, compacted, active, summaries, next) && m.identity == Some(next)
    ensures HistoryOk(goal, archive + [m], memory + [m], compacted, active, summaries, next + 1)
  {
    hide Chained, Kept;
    KeptLonger(archive, m, summaries, next);
    assert (memory + [m])[1..] == memory[1..] + [m];
  }

  lemma {:induction false} ChainGrows(goal: string, summaries: seq<Summary>, s: Summary)
    requires Chained(goal, summaries) && Linked(goal, summaries, s)
    ensures Chained(goal, summaries + [s])
  {
    hide Linked;
    var all := summaries + [s];
    forall i | 0 <= i < |all| ensures Linked(goal, all[..i], all[i]) {
      assert all[..i] == if i < |summaries| then summaries[..i] else summaries;
    }
  }

  lemma {:induction false} TailIds(archive: seq<Message>, next: nat, front: seq<Message>, tail: seq<Message>)
    requires archive == front + tail && Numbered(archive, next)
    ensures RetainedOk(archive, Ids(tail))
  {
    hide Find, Numbered, Position, Ids;
    assert archive[|front|..|front| + |tail|] == tail;
    IdsOfSlice(archive, next, |front|, tail);
    OrderedIsRetained(archive, Ids(tail));
  }

  lemma {:induction false} OrderedIsRetained(archive: seq<Message>, ids: seq<nat>)
    requires Ordered(archive, ids)
    ensures RetainedOk(archive, ids)
  {
    hide Find, Position;
    forall i, j | 0 <= i < j < |ids| ensures ids[i] != ids[j] {
      assert Position(archive, ids[i]) < Position(archive, ids[j]);
    }
  }

  lemma {:induction false} ConservedShift(archive: seq<Message>, summaries: seq<Summary>, memory: seq<Message>,
                                          tail: seq<Message>, s: Summary)
    requires Conserved(archive, summaries, memory) && memory[1..] == s.source + tail
    ensures Conserved(archive, summaries + [s], [memory[0]] + tail)
    ensures archive == [memory[0]] + Sources(summaries) + s.source + tail
  {
    hide Sources;
    SourcesConcat(summaries, [s]);
    SourcesOne(s);
    var memory' := [memory[0]] + tail;
    assert memory'[1..] == tail;
  }

  /** Replacing a prefix of whole groups by its summary keeps the history in order. */
  lemma {:induction false} AcceptKeeps(goal: string, archive: seq<Message>, memory: seq<Message>,
                                       compacted: Option<string>, active: Option<nat>, summaries: seq<Summary>,
                                       next: nat, groups: seq<seq<Message>>, tail: seq<Message>, s: Summary)
    requires HistoryOk(goal, archive, memory, compacted, active, summaries, next) && memory != []
    requires memory[1..] == Flatten(groups) + tail && Units(groups) && Flatten(groups) != []
    requires s == Summary(next, s.content, SourceText(goal, Flatten(groups), compacted), Ids(Flatten(groups)),
                          Ids(tail), active, Flatten(groups))
    ensures HistoryOk(goal, archive, [memory[0]] + tail, Some(s.content), Some(s.id), summaries + [s], next + 1)
  {
    hide Chained, Find, Linked, Numbered, Conserved, Kept, Units, Flatten, SourceText, Ids, Sources;
    LinkedBy(goal, summaries, s, groups);
    ChainGrows(goal, summaries, s);
    ConservedShift(archive, summaries, memory, tail, s);
    TailIds(archive, next, [memory[0]] + Sources(summaries) + s.source, tail);
    KeptGrows(archive, summaries, next, s);
    NumberedMore(archive, next);
  }

  lemma {:induction false} NumberedMore(archive: seq<Message>, next: nat)
    requires Numbered(archive, next)
    ensures Numbered(archive, next + 1)
  {
  }

  lemma {:induction false} LinkedBy(goal: string, prior: seq<Summary>, s: Summary, groups: seq<seq<Message>>)
    requires Reads(groups, s.source) && s.source != [] && s.sourceIds == Ids(s.source)
    requires s.previous == LastId(prior) && s.fingerprint == SourceText(goal, s.source, LastContent(prior))
    ensures Linked(goal, prior, s)
  {
    hide Ids, SourceText, Reads;
  }

  lemma {:induction false} KeptGrows(archive: seq<Message>, summaries: seq<Summary>, next: nat, s: Summary)
    requires Kept(archive, summaries, next) && RetainedOk(archive, s.retainedIds) && s.id == next
    ensures Kept(archive, summaries + [s], next + 1)
  {
    hide RetainedOk;
  }

  // ------------------------------------------------------------ the session

  datatype Next = Stop | Again | Exceeded | Ungrouped

  /** What a pass is going to do. */
  datatype Plan =
    | Nothing(next: Next)
    | Summarise(hard: bool, measured: Payload, required: int, source: seq<seq<Message>>, tail: seq<seq<Message>>,
                historical: seq<Message>)

  function Max(a: int, b: int): int {
    if a >= b then a else b
  }

  function Ceiling(x: real): int {
    -((-x).Floor)
  }

  function Size(p: Payload): int {
    p.bytes + 32 * p.messages
  }

  function Times(n: int, ratio: real): real {
    n as real * ratio
  }

  /** Optional folding is worth it when the request presses on the window and what can go makes each configured minimum. */
  predicate WorthFolding(policy: Policy, measured: Payload, floor: Payload) {
    var room := policy.window - policy.margin - Max(policy.reserved, policy.decisionCap);
    var gain := Size(measured) - Size(floor);
    Size(measured) as real >= Times(Max(room, 1), policy.minPressure) &&
    gain >= 1 && gain >= policy.minReduction && gain >= policy.minReclaimable &&
    gain as real >= Times(Size(measured), policy.minReductionRatio)
  }

  predicate Suffix(a: seq<Message>, b: seq<Message>) {
    |a| <= |b| && a == b[|b| - |a|..]
  }

  /** The longest run of groups whose summary request fits; none when not even the first group's does. */
  function Affordable(policy: Policy, wire: Wire, goal: string, compacted: Option<string>, groups: seq<seq<Message>>)
    : (r: seq<seq<Message>>)
    ensures r <= groups
    decreases |groups|
  {
    if groups == [] then []
    else if InWindow(policy, wire.summary(SourceText(goal, Flatten(groups), compacted), None), policy.summaryCap) then groups
    else Affordable(policy, wire, goal, compacted, groups[..|groups| - 1])
  }

  /** The groups a compaction of this memory would summarise. */
  function Candidate(policy: Policy, wire: Wire, goal: string, compacted: Option<string>, groups: seq<seq<Message>>)
    : seq<seq<Message>>
  {
    Affordable(policy, wire, goal, compacted, groups[..Boundary(groups, policy.keep, |groups|)])
  }

  /** The source a compaction of this memory would summarise has just been tried and refused. */
  ghost predicate Blocked(policy: Policy, wire: Wire, goal: string, compacted: Option<string>, memory: seq<Message>,
                          last: Option<Source>)
    requires memory != []
  {
    exists groups | Reads(groups, memory[1..]) ::
      Candidate(policy, wire, goal, compacted, groups) != [] &&
      last == Some(SourceText(goal, Flatten(Candidate(policy, wire, goal, compacted, groups)), compacted))
  }

  /** Whole groups are moved from the end of the source to the front of the tail until the summary request fits. */
  method SelectPrefix(policy: Policy, wire: Wire, goal: string, compacted: Option<string>,
                      groups: seq<seq<Message>>, kept: seq<seq<Message>>)
    returns (source: seq<seq<Message>>, tail: seq<seq<Message>>, historical: seq<Message>)
    requires groups != [] && Units(groups) && Units(kept)
    ensures source != [] && Units(source) && Units(tail) && source + tail == groups + kept && |kept| <= |tail|
    ensures historical != [] ==> historical == Flatten(source)
    ensures historical != [] ==>
      InWindow(policy, wire.summary(SourceText(goal, historical, compacted), None), policy.summaryCap)
    ensures Affordable(policy, wire, goal, compacted, groups) == if historical == [] then [] else source
  {
    hide IsUnit, Units, Flatten, SourceText, Fits, InWindow, Affordable;
    FitsIsInWindow(policy);
    source, tail, historical := groups, kept, Flatten(groups);
    FirstIsNonempty(source);
    var payload := wire.summary(SourceText(goal, historical, compacted), None);
    while historical != [] && !Fits(policy, payload, policy.summaryCap)
      invariant source != [] && Units(source) && Units(tail) && source + tail == groups + kept && |kept| <= |tail|
      invariant historical != [] && historical == Flatten(source)
      invariant payload == wire.summary(SourceText(goal, historical, compacted), None)
      invariant Affordable(policy, wire, goal, compacted, groups) == Affordable(policy, wire, goal, compacted, source)
      decreases |source|, |historical|
    {
      AffordableStep(policy, wire, goal, compacted, source);
      if |source| <= 1 {
        AffordableNone(policy, wire, goal, compacted, source);
        historical := [];
        break;
      }
      MoveLast(source, tail);
      source, tail := source[..|source| - 1], [source[|source| - 1]] + tail;
      historical := Flatten(source);
      payload := wire.summary(SourceText(goal, historical, compacted), None);
    }
    if historical != [] { AffordableNow(policy, wire, goal, compacted, source); }
  }

  lemma {:induction false} FirstIsNonempty(groups: seq<seq<Message>>)
    requires groups != [] && Units(groups)
    ensures Flatten(groups) != []
  {
    UnitsAreNonempty(groups);
  }

  lemma {:induction false} AffordableStep(policy: Policy, wire: Wire, goal: string, compacted: Option<string>,
                                          source: seq<seq<Message>>)
    requires source != []
    requires !InWindow(policy, wire.summary(SourceText(goal, Flatten(source), compacted), None), policy.summaryCap)
    ensures Affordable(policy, wire, goal, compacted, source) ==
      Affordable(policy, wire, goal, compacted, source[..|source| - 1])
  {
  }

  lemma {:induction false} AffordableNone(policy: Policy, wire: Wire, goal: string, compacted: Option<string>,
                                          source: seq<seq<Message>>)
    requires |source| == 1
    ensures Affordable(policy, wire, goal, compacted, source[..|source| - 1]) == []
  {
  }

  lemma {:induction false} AffordableNow(policy: Policy, wire: Wire, goal: string, compacted: Option<string>,
                                         source: seq<seq<Message>>)
    requires source != []
    requires InWindow(policy, wire.summary(SourceText(goal, Flatten(source), compacted), None), policy.summaryCap)
    ensures Affordable(policy, wire, goal, compacted, source) == source
  {
  }

  /** Moving the last group of the source to the front of the tail. */
  lemma {:induction false} MoveLast(source: seq<seq<Message>>, tail: seq<seq<Message>>)
    requires |source| > 1 && Units(source) && Units(tail)
    ensures var front, moved := source[..|source| - 1], [source[|source| - 1]] + tail;
      front + moved == source + tail && Units(front) && Units(moved) && Flatten(front) != []
  {
    hide IsUnit, Flatten;
    FirstIsNonempty(source[..|source| - 1]);
  }

  /** What compaction may do to a session: nothing, or fold old messages into summaries at a gain each time. */
  ghost predicate Advanced(policy: Policy, wire: Wire,
                           m0: seq<Message>, c0: Option<string>, s0: seq<Summary>,
                           m1: seq<Message>, c1: Option<string>, s1: seq<Summary>)
    requires m0 != [] && m1 != []
  {
    m1[0] == m0[0] && Suffix(m1[1..], m0[1..]) && (|m1| - 1 >= policy.keep || |m1| == |m0|) &&
    s0 <= s1 && (s1 == s0 ==> m1 == m0 && c1 == c0) &&
    Size(wire.decision(m1, c1)) + |s1| - |s0| <= Size(wire.decision(m0, c0))
  }

  lemma {:induction false} AdvancedRefl(policy: Policy, wire: Wire, m: seq<Message>, c: Option<string>, s: seq<Summary>)
    requires m != []
    ensures Advanced(policy, wire, m, c, s, m, c, s)
  {
  }

  lemma {:induction false} AdvancedTrans(policy: Policy, wire: Wire,
                                         m0: seq<Message>, c0: Option<string>, s0: seq<Summary>,
                                         m1: seq<Message>, c1: Option<string>, s1: seq<Summary>,
                                         m2: seq<Message>, c2: Option<string>, s2: seq<Summary>)
    requires m0 != [] && m1 != [] && m2 != []
    requires Advanced(policy, wire, m0, c0, s0, m1, c1, s1) && Advanced(policy, wire, m1, c1, s1, m2, c2, s2)
    ensures Advanced(policy, wire, m0, c0, s0, m2, c2, s2)
    ensures s0 == s2 <==> s0 == s1 && s1 == s2
  {
    hide Estimate;
  }

  class Session {
    const policy: Policy
    const goal: string
    /** The messages of the durable transcript, in the order they were appended. */
    var archive: seq<Message>
    var memory: seq<Message>
    var compacted: Option<string>
    var active: Option<nat>
    var summaries: seq<Summary>
    /** Every request posted to the model, in order. */
    var posted: seq<Posted>
    /** Identities are drawn from here, so they are always new. */
    var nextId: nat
    var stepCount: int
    var lastCompactionStep: int
    var lastEstimated: Option<int>
    var lastAttemptStep: Option<int>
    var lastAttemptSource: Option<Source>

    ghost predicate Valid()
      reads this
    {
      HistoryOk(goal, archive, memory, compacted, active, summaries, nextId) && AllFit(policy, posted)
    }

    constructor (policy: Policy, goal: string)
      ensures Valid() && this.policy == policy && this.goal == goal
      ensures archive == memory && |memory| == 1 && memory[0].content == Some(goal)
      ensures summaries == [] && posted == []
    {
      this.policy, this.goal := policy, goal;
      var first := Message(User, Some(goal), None, [], Some(0));
      archive, memory, compacted, active, summaries, posted := [first], [first], None, None, [], [];
      nextId, stepCount, lastCompactionStep, lastEstimated := 1, 0, 0, None;
      lastAttemptStep, lastAttemptSource := None, None;
    }

    method AppendMessage(m: Message)
      requires Valid()
      modifies this`archive, this`memory, this`nextId
      ensures Valid() && nextId == old(nextId) + 1
      ensures archive == old(archive) + [m.(identity := Some(old(nextId)))]
      ensures memory == old(memory) + [m.(identity := Some(old(nextId)))]
    {
      var named := m.(identity := Some(nextId));
      AppendKeeps(goal, archive, memory, compacted, active, summaries, nextId, named);
      archive, memory, nextId := archive + [named], memory + [named], nextId + 1;
    }

    /** The payload of the complete decision request, unless the history cannot be grouped. */
    method RequestBudget(wire: Wire, memory: seq<Message>, compacted: Option<string>) returns (r: Option<Payload>)
      requires memory != []
      ensures r.Some? <==> Readable(memory[1..])
      ensures r.Some? ==> r.value == wire.decision(memory, compacted)
    {
      if |memory| > 1 {
        var grouped := InteractionGroups(memory[1..]);
        if grouped.Broken? { return None; }
      } else {
        assert Reads([], memory[1..]);
      }
      return Some(wire.decision(memory, compacted));
    }

    /** Replace the source by its validated summary. */
    method Accept(groups: seq<seq<Message>>, tail: seq<seq<Message>>, content: string, after: Payload)
      requires Valid() && memory != [] && memory[1..] == Flatten(groups) + Flatten(tail)
      requires Units(groups) && Flatten(groups) != []
      modifies this`memory, this`compacted, this`active, this`summaries, this`nextId,
        this`lastCompactionStep, this`lastEstimated, this`lastAttemptSource
      ensures Valid()
      ensures memory == [old(memory[0])] + Flatten(tail) && compacted == Some(content)
      ensures |summaries| == |old(summaries)| + 1 && old(summaries) <= summaries
      ensures summaries[|old(summaries)|].source == Flatten(groups)
      ensures lastAttemptSource == None && lastEstimated == Some(Estimate(after)) && lastCompactionStep == stepCount
    {
      hide HistoryOk, SourceText, Ids, Flatten, Units;
      var source := Flatten(groups);
      var s := Summary(nextId, content, SourceText(goal, source, compacted), Ids(source), Ids(Flatten(tail)), active,
                       source);
      AcceptKeeps(goal, archive, memory, compacted, active, summaries, nextId, groups, Flatten(tail), s);
      memory, compacted, active := [memory[0]] + Flatten(tail), Some(content), Some(nextId);
      summaries, nextId := summaries + [s], nextId + 1;
      lastCompactionStep, lastEstimated, lastAttemptSource := stepCount, Some(Estimate(after)), None;
    }

    /** Post one summary request and judge the answer. */
    method Attempt(outside: Outside, source: Source, correction: Option<string>, hard: bool, measured: int,
                   required: int, tail: seq<Message>)
      returns (content: Option<string>, after: Payload, reason: string)
      requires AllFit(policy, posted) && memory != []
      requires InWindow(policy, outside.wire.summary(source, correction), policy.summaryCap)
      requires Readable(tail)
      modifies this`posted, this`lastAttemptStep, this`lastAttemptSource
      ensures AllFit(policy, posted)
      ensures posted == old(posted) + [Posted(outside.wire.summary(source, correction), policy.summaryCap)]
      ensures lastAttemptStep == Some(stepCount) && lastAttemptSource == Some(source)
      ensures content.Some? ==> after == outside.wire.decision([memory[0]] + tail, content)
      // a proposal is taken exactly if it is whole, the validator accepts it and it saves what is required
      ensures var reply := outside.answer(|old(posted)|);
        content.Some? <==>
          reply.failure != Some("summary_truncated") && reply.text.Some? &&
          outside.validate(reply.text.value, source).Accepted? &&
          var p := outside.wire.decision([memory[0]] + tail, Some(outside.validate(reply.text.value, source).content));
          p.bytes + 32 * p.messages < measured && (hard || p.bytes + 32 * p.messages <= measured - required)
      ensures content.Some? ==> outside.validate(outside.answer(|old(posted)|).text.value, source) == Accepted(content.value)
    {
      var reply := outside.answer(|posted|);
      posted := posted + [Posted(outside.wire.summary(source, correction), policy.summaryCap)];
      lastAttemptStep, lastAttemptSource := Some(stepCount), Some(source);
      content, after := None, Payload(0, 0);
      if reply.failure == Some("summary_truncated") { return content, after, "summary_truncated"; }
      if reply.text.None? {
        return content, after,
          if reply.failure.Some? then reply.failure.value else "summary model returned no usable proposal";
      }
      var verdict := outside.validate(reply.text.value, source);
      if verdict.Rejected? { return content, after, verdict.reason; }
      assert ([memory[0]] + tail)[1..] == tail;
      var budget := RequestBudget(outside.wire, [memory[0]] + tail, Some(verdict.content));
      var reduction := measured - Estimate(budget.value);
      if reduction <= 0 {
        return content, after, "replacement does not reduce the complete decision request";
      }
      if !hard && reduction < required {
        return content, after, "replacement reduction is below the configured optional minimum";
      }
      return Some(verdict.content), budget.value, "";
    }

    /** Ask for a summary of the source until one is accepted or the attempts are used up. */
    method TrySummaries(outside: Outside, hard: bool, measured: int, required: int, groups: seq<seq<Message>>,
                        tail: seq<seq<Message>>, before: nat)
      returns (accepted: bool, used: nat)
      requires Valid() && memory != [] && memory[1..] == Flatten(groups) + Flatten(tail)
      requires Units(groups) && Flatten(groups) != [] && Units(tail)
      modifies this`memory, this`compacted, this`active, this`summaries, this`nextId, this`posted,
        this`lastCompactionStep, this`lastEstimated, this`lastAttemptStep, this`lastAttemptSource
      ensures Valid()
      ensures old(posted) <= posted && used - before == |posted| - |old(posted)|
      ensures before <= used && (used <= policy.maxAttempts || used == before)
      ensures !accepted ==> memory == old(memory) && compacted == old(compacted)
      ensures !accepted ==> active == old(active) && summaries == old(summaries)
      ensures accepted ==> memory == [old(memory[0])] + Flatten(tail)
      ensures accepted ==> |summaries| == |old(summaries)| + 1 && old(summaries) <= summaries
      ensures accepted ==> summaries[|old(summaries)|].source == Flatten(groups)
      ensures forall i :: 0 <= i < |posted| ==> InWindow(policy, posted[i].payload, posted[i].cap)
      ensures accepted ==> Size(outside.wire.decision(memory, compacted)) < measured
      ensures accepted && !hard ==> Size(outside.wire.decision(memory, compacted)) <= measured - required
    {
      hide HistoryOk, Units, Flatten, SourceText, Fits, InWindow, Estimate, Reads;
      FitsIsInWindow(policy);
      accepted, used := false, before;
      var historical := Flatten(groups);
      var source := SourceText(goal, historical, compacted);
      var correction: Option<string> := None;
      ghost var rest := Flatten(tail);
      assert Reads(tail, rest) by { ReadsFlat(tail); }
      while used < policy.maxAttempts
        invariant Valid() && before <= used && (used <= policy.maxAttempts || used == before)
        invariant old(posted) <= posted && used - before == |posted| - |old(posted)|
        invariant memory == old(memory) && compacted == old(compacted)
        invariant active == old(active) && summaries == old(summaries)
        decreases policy.maxAttempts - used
      {
        if !Fits(policy, outside.wire.summary(source, correction), policy.summaryCap) { break; }
        used := used + 1;
        var content, after, reason := Attempt(outside, source, correction, hard, measured, required, Flatten(tail));
        if content.Some? {
          Accept(groups, tail, content.value, after);
          return true, used;
        }
        correction := Some(reason);
      }
    }

    predicate Due(estimate: int)
      reads this
    {
      (estimate >= policy.maxTokens && (lastEstimated.None? || estimate >= lastEstimated.value + policy.minGrowth)) ||
      (policy.interval.Some? && policy.interval.value > 0 && stepCount - lastCompactionStep >= policy.interval.value)
    }

    predicate TooSoon()
      reads this
    {
      lastAttemptStep.Some? && stepCount - lastAttemptStep.value < policy.minInterval
    }

    /** Whether an optional compaction is worth a summary request at all, and what it must save. */
    method Worthwhile(measured: Payload, floor: Payload) returns (worthwhile: bool, required: int)
      ensures required >= 1 && required >= policy.minReduction
      ensures required as real >= Times(Size(measured), policy.minReductionRatio)
      ensures worthwhile <==> WorthFolding(policy, measured, floor)
    {
      hide Estimate, Size, WorthFolding, Ceiling, Reserve, Times;
      var room := Max(policy.window - Reserve(policy, policy.decisionCap) - policy.margin, 1);
      var pressure := Estimate(measured) as real / room as real;
      var reclaimable := Max(Estimate(measured) - Estimate(floor), 0);
      var least := Times(Estimate(measured), policy.minReductionRatio);
      required := Max(Max(1, policy.minReduction), Ceiling(least));
      worthwhile := pressure >= policy.minPressure && reclaimable >= Max(policy.minReclaimable, required);
      WorthIff(policy, measured, floor, room, required);
    }

    /** What a plan has to meet to be made for the groups of this memory. */
    ghost predicate ToFold(wire: Wire, workflowComplete: bool, groups: seq<seq<Message>>)
      requires memory != []
      reads this
    {
      var measured := wire.decision(memory, compacted);
      var fold := Candidate(policy, wire, goal, compacted, groups);
      fold != [] && lastAttemptSource != Some(SourceText(goal, Flatten(fold), compacted)) &&
      (!InWindow(policy, measured, policy.decisionCap) ||
       (((Size(measured) >= policy.maxTokens &&
          (lastEstimated.Some? ==> Size(measured) - lastEstimated.value >= policy.minGrowth)) ||
         (policy.interval.Some? && 0 < policy.interval.value <= stepCount - lastCompactionStep)) &&
        !workflowComplete && (lastAttemptStep.Some? ==> stepCount - lastAttemptStep.value >= policy.minInterval) &&
        WorthFolding(policy, measured, wire.decision([memory[0]] + Rest(memory[1..], Flatten(fold)), None))))
    }

    /** Measure, and select whole old groups to summarise exactly when the request does not fit, or folding is due, spaced
        and worthwhile; never a source just refused. */
    method MakePlan(wire: Wire, workflowComplete: bool) returns (plan: Plan)
      requires memory != []
      ensures plan == Nothing(Ungrouped) <==> !Readable(memory[1..])
      ensures plan != Nothing(Again)
      ensures forall groups | Reads(groups, memory[1..]) ::
        (plan.Summarise? <==> ToFold(wire, workflowComplete, groups)) &&
        (plan.Summarise? ==> plan.source == Candidate(policy, wire, goal, compacted, groups)) &&
        (plan == Nothing(Exceeded) <==>
          !InWindow(policy, wire.decision(memory, compacted), policy.decisionCap) &&
          Candidate(policy, wire, goal, compacted, groups) == [])
      ensures plan.Summarise? ==> memory[1..] == Flatten(plan.source) + Flatten(plan.tail)
      ensures plan.Summarise? ==> Units(plan.source) && Units(plan.tail) && plan.historical == Flatten(plan.source) != []
      ensures plan.Summarise? ==> Readable(Flatten(plan.tail)) && |Flatten(plan.tail)| >= policy.keep
      ensures plan.Summarise? ==> Suffix(Flatten(plan.tail), memory[1..])
      ensures plan.Summarise? ==> plan.measured == wire.decision(memory, compacted)
      ensures plan.Summarise? ==> plan.required >= Max(policy.minReduction, 1)
      ensures plan.Summarise? ==> (plan.hard <==> !InWindow(policy, plan.measured, policy.decisionCap))
      ensures plan.Summarise? ==> !Blocked(policy, wire, goal, compacted, memory, lastAttemptSource)
      ensures plan.Summarise? ==>
        Blocked(policy, wire, goal, compacted, memory, Some(SourceText(goal, plan.historical, compacted)))
    {
      hide Flatten, SourceText, Fits, InWindow, IsUnit, Affordable, Boundary, Blocked, WorthFolding, Candidate;
      FitsIsInWindow(policy);
      var budget := RequestBudget(wire, memory, compacted);
      if budget.None? { return Nothing(Ungrouped); }
      var measured := budget.value;
      var hard := !Fits(policy, measured, policy.decisionCap);
      if !hard && !Due(Estimate(measured)) { return Nothing(Stop); }
      var ok, groups, kept := SplitHistory(memory[1..], policy.keep);
      OneCandidate(policy, wire, goal, compacted, memory, groups, kept);
      if groups == [] {
        NoneAffordable(policy, wire, goal, compacted);
        return Nothing(if hard then Exceeded else Stop);
      }
      if !hard && (workflowComplete || TooSoon()) {
        return Nothing(Stop);
      }
      UnitsSplit(groups, kept);
      var source, tail, historical := SelectPrefix(policy, wire, goal, compacted, groups, kept);
      if historical == [] { return Nothing(if hard then Exceeded else Stop); }
      Regrouped(memory, groups, kept, source, tail);
      assert ([memory[0]] + Flatten(tail))[1..] == Flatten(tail);
      var floor := RequestBudget(wire, [memory[0]] + Flatten(tail), None);
      RestIs(memory[1..], Flatten(source), Flatten(tail));
      var worthwhile, required := Worthwhile(measured, floor.value);
      if !hard && !worthwhile { return Nothing(Stop); }
      var text := SourceText(goal, historical, compacted);
      if lastAttemptSource == Some(text) { return Nothing(Stop); }
      BlockedIff(policy, wire, goal, compacted, memory, lastAttemptSource, groups, kept);
      BlockedIff(policy, wire, goal, compacted, memory, Some(text), groups, kept);
      return Summarise(hard, measured, required, source, tail, historical);
    }

    /** One pass: measure, select whole old groups, ask for their summary. */
    method Pass(outside: Outside, workflowComplete: bool, before: nat)
      returns (next: Next, used: nat, accepted: bool)
      requires Valid() && memory != []
      modifies this`memory, this`compacted, this`active, this`summaries, this`nextId, this`posted,
        this`lastCompactionStep, this`lastEstimated, this`lastAttemptStep, this`lastAttemptSource
      ensures Valid() && old(posted) <= posted && used - before == |posted| - |old(posted)|
      ensures before <= used && (used <= policy.maxAttempts || used == before)
      ensures memory != [] && Advanced(policy, outside.wire, old(memory), old(compacted), old(summaries),
                                       memory, compacted, summaries)
      ensures accepted <==> summaries != old(summaries)
      ensures next == Ungrouped <==> !Readable(old(memory[1..]))
      ensures next != Ungrouped ==> Readable(memory[1..])
      ensures next == Ungrouped || next == Exceeded ==> summaries == old(summaries) && posted == old(posted)
      ensures next == Exceeded ==> !InWindow(policy, outside.wire.decision(memory, compacted), policy.decisionCap)
      // after a summary another pass follows only while the request does not fit; after a refusal only while an attempt
      // and a smaller source are left
      ensures accepted ==> (next == Again <==> !InWindow(policy, outside.wire.decision(memory, compacted), policy.decisionCap))
      ensures !accepted ==> forall groups | Reads(groups, old(memory[1..])) ::
        (next == Again <==>
          old(ToFold(outside.wire, workflowComplete, groups)) && used < policy.maxAttempts &&
          |old(Candidate(policy, outside.wire, goal, compacted, groups))| > 1)
      ensures posted != old(posted) ==>
        forall groups | Reads(groups, old(memory[1..])) :: old(ToFold(outside.wire, workflowComplete, groups))
      ensures old(InWindow(policy, outside.wire.decision(memory, compacted), policy.decisionCap)) && accepted ==>
        Size(outside.wire.decision(memory, compacted)) <=
          old(Size(outside.wire.decision(memory, compacted))) - Max(policy.minReduction, 1)
      ensures old(Blocked(policy, outside.wire, goal, compacted, memory, lastAttemptSource)) ==>
        posted == old(posted) && summaries == old(summaries)
      ensures posted != old(posted) && summaries == old(summaries) ==>
        Blocked(policy, outside.wire, goal, compacted, memory, lastAttemptSource)
    {
      hide HistoryOk, AllFit, Flatten, SourceText, Fits, InWindow, Blocked, ToFold, Candidate, Reads;
      FitsIsInWindow(policy);
      used, accepted := before, false;
      var plan := MakePlan(outside.wire, workflowComplete);
      if plan.Nothing? { return plan.next, used, false; }
      ghost var kept := Flatten(plan.tail);
      accepted, used := TrySummaries(outside, plan.hard, Estimate(plan.measured), plan.required, plan.source, plan.tail, before);
      if accepted {
        assert memory[1..] == kept;
        var after := outside.wire.decision(memory, compacted);
        return if Fits(policy, after, policy.decisionCap) then Stop else Again, used, true;
      }
      lastAttemptSource := Some(SourceText(goal, plan.historical, compacted));
      next := if used >= policy.maxAttempts || |plan.source| <= 1 then Stop else Again;
    }

    /** Compact the history if it is due or the next decision request would not fit. */
    method Compact(outside: Outside, workflowComplete: bool) returns (outcome: Outcome)
      requires Valid() && memory != []
      modifies this`memory, this`compacted, this`active, this`summaries, this`nextId, this`posted,
        this`lastCompactionStep, this`lastEstimated, this`lastAttemptStep, this`lastAttemptSource
      ensures Valid() && old(posted) <= posted
      ensures |posted| - |old(posted)| <= Max(policy.maxAttempts, 0)
      ensures memory != [] && Advanced(policy, outside.wire, old(memory), old(compacted), old(summaries),
                                       memory, compacted, summaries)
      ensures outcome.Done? ==> Readable(memory[1..])
      ensures forall i :: 0 <= i < |posted| ==> InWindow(policy, posted[i].payload, posted[i].cap)
      ensures outcome.Done? ==> InWindow(policy, outside.wire.decision(memory, compacted), policy.decisionCap)
      ensures outcome.Done? ==> (outcome.changed <==> summaries != old(summaries))
      ensures outcome.Unreadable? <==> !Readable(old(memory[1..]))
      ensures outcome.BudgetExceeded? ==> !InWindow(policy, outside.wire.decision(memory, compacted), policy.decisionCap)
    {
      hide HistoryOk, Fits, InWindow, Estimate, Readable, Blocked, Advanced, ToFold;
      FitsIsInWindow(policy);
      var changed, used, pass := false, 0, 0;
      ghost var m0, c0, s0 := memory, compacted, summaries;
      AdvancedRefl(policy, outside.wire, m0, c0, s0);
      while pass < Max(policy.maxPasses, 1)
        invariant Valid() && memory != [] && old(posted) <= posted && used == |posted| - |old(posted)|
        invariant used <= Max(policy.maxAttempts, 0)
        invariant Advanced(policy, outside.wire, m0, c0, s0, memory, compacted, summaries)
        invariant changed <==> summaries != s0
        invariant if pass == 0 then memory == m0 else Readable(m0[1..]) && Readable(memory[1..])
      {
        ghost var m1, c1, s1 := memory, compacted, summaries;
        var next, accepted;
        next, used, accepted := Pass(outside, workflowComplete, used);
        AdvancedTrans(policy, outside.wire, m0, c0, s0, m1, c1, s1, memory, compacted, summaries);
        if next == Ungrouped { return Unreadable; }
        if next == Exceeded { return BudgetExceeded; }
        changed := changed || accepted;
        if next == Stop { break; }
        pass := pass + 1;
      }
      var final := RequestBudget(outside.wire, memory, compacted);
      if !Fits(policy, final.value, policy.decisionCap) { return BudgetExceeded; }
      return Done(changed);
    }

    /** One decision: compact first, and post the decision request only when it fits. */
    method Decide(outside: Outside, workflowComplete: bool) returns (outcome: Outcome)
      requires Valid() && memory != []
      modifies this`memory, this`compacted, this`active, this`summaries, this`nextId, this`posted, this`stepCount,
        this`lastCompactionStep, this`lastEstimated, this`lastAttemptStep, this`lastAttemptSource
      ensures Valid() && memory != [] && memory[0] == old(memory[0]) && old(summaries) <= summaries
      ensures outcome.Done? ==> stepCount == old(stepCount) + 1 && |posted| > |old(posted)|
      ensures outcome.Done? ==>
        posted[|posted| - 1] == Posted(outside.wire.decision(memory, compacted), policy.decisionCap)
      ensures forall i :: 0 <= i < |posted| ==> InWindow(policy, posted[i].payload, posted[i].cap)
      ensures outcome.BudgetExceeded? ==> !InWindow(policy, outside.wire.decision(memory, compacted), policy.decisionCap)
      ensures !outcome.Done? ==> stepCount == old(stepCount)
      ensures !outcome.Done? ==> |posted| - |old(posted)| <= Max(policy.maxAttempts, 0)
    {
      hide HistoryOk, InWindow, Estimate, Readable, Suffix;
      outcome := Compact(outside, workflowComplete);
      if outcome.Done? {
        var request := Posted(outside.wire.decision(memory, compacted), policy.decisionCap);
        OneMoreFits(policy, posted, request);
        posted := posted + [request];
        stepCount := stepCount + 1;
      }
    }
  }

  lemma {:induction false} OneMoreFits(policy: Policy, posted: seq<Posted>, p: Posted)
    requires AllFit(policy, posted) && InWindow(policy, p.payload, p.cap)
    ensures AllFit(policy, posted + [p])
  {
    hide InWindow;
  }

  /** Every reading of the history has the same candidate: what is affordable of the groups before the kept ones. */
  lemma {:induction false} OneCandidate(policy: Policy, wire: Wire, goal: string, compacted: Option<string>,
                                        memory: seq<Message>, groups: seq<seq<Message>>, kept: seq<seq<Message>>)
    requires memory != [] && Reads(groups + kept, memory[1..])
    requires |groups| == Boundary(groups + kept, policy.keep, |groups + kept|)
    ensures forall other | Reads(other, memory[1..]) ::
      Candidate(policy, wire, goal, compacted, other) == Affordable(policy, wire, goal, compacted, groups)
  {
    hide Affordable, Reads, Boundary;
    var all := groups + kept;
    assert all[..|groups|] == groups;
    forall other | Reads(other, memory[1..]) ensures other == all {
      ReadingIsUnique(other, all, memory[1..]);
    }
  }

  lemma {:induction false} NoneAffordable(policy: Policy, wire: Wire, goal: string, compacted: Option<string>)
    ensures Affordable(policy, wire, goal, compacted, []) == []
  {
  }

  /** What follows the folded messages. */
  function Rest(messages: seq<Message>, folded: seq<Message>): seq<Message> {
    if |folded| <= |messages| then messages[|folded|..] else []
  }

  lemma {:induction false} RestIs(messages: seq<Message>, folded: seq<Message>, tail: seq<Message>)
    requires messages == folded + tail
    ensures Rest(messages, folded) == tail
  {
  }

  lemma {:induction false} WorthIff(policy: Policy, measured: Payload, floor: Payload, room: int, required: int)
    requires room == Max(policy.window - Reserve(policy, policy.decisionCap) - policy.margin, 1)
    requires required == Max(Max(1, policy.minReduction), Ceiling(Times(Estimate(measured), policy.minReductionRatio)))
    ensures Estimate(measured) as real / room as real >= policy.minPressure &&
            Max(Estimate(measured) - Estimate(floor), 0) >= Max(policy.minReclaimable, required) <==>
            WorthFolding(policy, measured, floor)
    ensures required as real >= Times(Size(measured), policy.minReductionRatio)
  {
    hide Ceiling, Times;
    var least := Times(Size(measured), policy.minReductionRatio);
    RatioIff(Size(measured), room, policy.minPressure);
    LeastInteger(least, required);
    LeastInteger(least, Size(measured) - Size(floor));
  }

  lemma {:induction false} LeastInteger(x: real, n: int)
    ensures n >= Ceiling(x) <==> n as real >= x
  {
    assert -n <= (-x).Floor <==> (-n) as real <= -x;
  }

  lemma {:induction false} RatioIff(size: int, room: int, least: real)
    requires room >= 1
    ensures size as real / room as real >= least <==> size as real >= Times(room, least)
  {
    var q, r := size as real / room as real, room as real;
    assert q * r == size as real;
    assert q >= least ==> q * r >= least * r;
    assert q < least ==> q * r < least * r;
  }

  /** The candidate source does not depend on how the history is read, since it can be read in one way only. */
  lemma {:induction false} BlockedIff(policy: Policy, wire: Wire, goal: string, compacted: Option<string>,
                                      memory: seq<Message>, last: Option<Source>,
                                      groups: seq<seq<Message>>, kept: seq<seq<Message>>)
    requires memory != [] && Reads(groups + kept, memory[1..])
    requires |groups| == Boundary(groups + kept, policy.keep, |groups + kept|)
    ensures var source := Affordable(policy, wire, goal, compacted, groups);
      Blocked(policy, wire, goal, compacted, memory, last) <==>
        source != [] && last == Some(SourceText(goal, Flatten(source), compacted))
  {
    hide Affordable, Reads, Boundary, SourceText, Flatten;
    var all := groups + kept;
    assert all[..|groups|] == groups;
    forall other | Reads(other, memory[1..]) ensures other == all {
      ReadingIsUnique(other, all, memory[1..]);
    }
  }

  lemma {:induction false} UnitsSplit(a: seq<seq<Message>>, b: seq<seq<Message>>)
    requires Units(a + b)
    ensures Units(a) && Units(b)
  {
    hide IsUnit;
    assert forall i :: 0 <= i < |a| ==> a[i] == (a + b)[i];
    assert forall i :: 0 <= i < |b| ==> b[i] == (a + b)[|a| + i];
  }

  /** Moving groups from the source to the tail changes neither the messages nor their order. */
  lemma {:induction false} Regrouped(memory: seq<Message>, groups: seq<seq<Message>>, kept: seq<seq<Message>>,
                                     source: seq<seq<Message>>, tail: seq<seq<Message>>)
    requires memory != [] && Reads(groups + kept, memory[1..]) && source + tail == groups + kept
    requires source != [] && Units(source) && Units(tail) && |kept| <= |tail|
    ensures memory[1..] == Flatten(source) + Flatten(tail) && Flatten(source) != []
    ensures Readable(Flatten(tail)) && |Flatten(tail)| >= |Flatten(kept)|
    ensures Suffix(Flatten(tail), memory[1..])
  {
    hide Units, Flatten;
    FlattenConcat(source, tail);
    UnitsAreNonempty(source);
    var moved := tail[..|tail| - |kept|];
    EndsInKept(groups, kept, source, tail);
    FlattenConcat(moved, kept);
    assert Reads(tail, Flatten(tail));
  }

  /** The longer of two ends of one sequence ends in the shorter one. */
  lemma {:induction false} EndsInKept(groups: seq<seq<Message>>, kept: seq<seq<Message>>,
                                      source: seq<seq<Message>>, tail: seq<seq<Message>>)
    requires source + tail == groups + kept && |kept| <= |tail|
    ensures tail == tail[..|tail| - |kept|] + kept
  {
    var k := |tail| - |kept|;
    forall i | 0 <= i < |kept| ensures kept[i] == tail[k + i] {
      assert (groups + kept)[|groups| + i] == (source + tail)[|source| + (k + i)];
    }
  }

  lemma {:induction false} ReadsFlat(groups: seq<seq<Message>>)
    requires Units(groups)
    ensures Reads(groups, Flatten(groups))
  {
  }
}