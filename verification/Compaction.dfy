/** Compaction: old interaction groups are replaced by a validated summary, under a request budget. */
module Compaction {
  import opened Options
  import opened History

  // ------------------------------------------------------------ request budget

  datatype Policy = Policy(
    window: int, reserved: int, margin: int, decisionCap: int, summaryCap: int, maxTokens: int,
    maxAttempts: int, maxPasses: int, minGrowth: int, minInterval: int, interval: Option<int>, keep: nat,
    minPressure: real, minReclaimable: int, minReduction: int, minReductionRatio: real)

  /** What the estimator sees of a request: its serialised bytes and its messages. */
  datatype Payload = Payload(bytes: nat, messages: nat)

  /** How requests are built is left open: any size for any memory, summary and source. */
  datatype Wire = Wire(decision: (seq<Message>, Option<string>) -> Payload,
                       summary: (Source, Option<string>) -> Payload)

  function Estimate(p: Payload): int {
    p.bytes + 32 * p.messages
  }

  function Reserve(policy: Policy, cap: int): int {
    if policy.reserved >= cap then policy.reserved else cap
  }

  predicate Fits(policy: Policy, p: Payload, cap: int) {
    Estimate(p) + Reserve(policy, cap) + policy.margin <= policy.window
  }

  /** The request and the output reserved for it, the configured reserve as well as the request's own cap, stay within
      the window. */
  predicate InWindow(policy: Policy, p: Payload, cap: int) {
    p.bytes + 32 * p.messages + policy.reserved + policy.margin <= policy.window &&
    p.bytes + 32 * p.messages + cap + policy.margin <= policy.window
  }

  /** The budget check is exactly that. */
  lemma {:induction false} FitsIsInWindow(policy: Policy)
    ensures forall p, cap :: Fits(policy, p, cap) <==> InWindow(policy, p, cap)
  {
  }

  /** A request that was posted to the model. */
  datatype Posted = Posted(payload: Payload, cap: int)

  // ------------------------------------------------------------ summaries and what they replace

  /** The text a summary is made from; its digest is taken to be injective. */
  datatype Source = Source(goal: string, previous: string, history: seq<Message>)

  datatype Summary = Summary(id: nat, content: string, fingerprint: Source, sourceIds: seq<nat>,
                             retainedIds: seq<nat>, previous: Option<nat>, source: seq<Message>)

  /** Identities do not travel on the wire. */
  function Bare(m: Message): Message {
    m.(identity := None)
  }

  function Wires(messages: seq<Message>): (r: seq<Message>)
    ensures |r| == |messages| && forall i :: 0 <= i < |r| ==> r[i] == Bare(messages[i])
  {
    seq(|messages|, i requires 0 <= i < |messages| => Bare(messages[i]))
  }

  function SourceText(goal: string, history: seq<Message>, previous: Option<string>): Source {
    Source(goal, if previous.Some? && previous.value != "" then previous.value else "none", Wires(history))
  }

  function IdOf(m: Message): seq<nat> {
    if m.identity.Some? then [m.identity.value] else []
  }

  /** The identities of the messages that have one. */
  function Ids(messages: seq<Message>): seq<nat> {
    if messages == [] then [] else IdOf(messages[0]) + Ids(messages[1..])
  }

  function Sources(summaries: seq<Summary>): seq<Message> {
    if summaries == [] then [] else Sources(summaries[..|summaries| - 1]) + summaries[|summaries| - 1].source
  }

  /** The goal, then every summarised source in order, then the current tail, is everything ever appended. */
  predicate Conserved(archive: seq<Message>, summaries: seq<Summary>, memory: seq<Message>) {
    memory != [] && archive == [memory[0]] + Sources(summaries) + memory[1..]
  }

  predicate Numbered(archive: seq<Message>, next: nat) {
    (forall i :: 0 <= i < |archive| ==> archive[i].identity.Some? && archive[i].identity.value < next) &&
    (forall i, j :: 0 <= i < j < |archive| ==> archive[i].identity != archive[j].identity)
  }

  ghost predicate Readable(messages: seq<Message>) {
    exists groups :: Reads(groups, messages)
  }

  function LastId(summaries: seq<Summary>): Option<nat> {
    if summaries == [] then None else Some(summaries[|summaries| - 1].id)
  }

  function LastContent(summaries: seq<Summary>): Option<string> {
    if summaries == [] then None else Some(summaries[|summaries| - 1].content)
  }

  /** Each summary names whole groups and continues the summary before it. */
  ghost predicate Linked(goal: string, prior: seq<Summary>, s: Summary) {
    s.source != [] && Readable(s.source) && s.sourceIds == Ids(s.source) &&
    s.previous == LastId(prior) && s.fingerprint == SourceText(goal, s.source, LastContent(prior))
  }

  ghost predicate Chained(goal: string, summaries: seq<Summary>) {
    forall i :: 0 <= i < |summaries| ==> Linked(goal, summaries[..i], summaries[i])
  }

  /** Summary identities are distinct, and the messages each kept were in the archive. */
  predicate Kept(archive: seq<Message>, summaries: seq<Summary>, next: nat) {
    (forall i :: 0 <= i < |summaries| ==> summaries[i].id < next) &&
    (forall i, j :: 0 <= i < j < |summaries| ==> summaries[i].id != summaries[j].id) &&
    (forall i :: 0 <= i < |summaries| ==> RetainedOk(archive, summaries[i].retainedIds))
  }

  predicate RetainedOk(archive: seq<Message>, ids: seq<nat>) {
    (forall i, j :: 0 <= i < j < |ids| ==> ids[i] != ids[j]) &&
    (forall i :: 0 <= i < |ids| ==> Find(archive, ids[i]).Some?)
  }

  /** Where the transcript holds the message with this identity. */
  function Find(archive: seq<Message>, id: nat): (r: Option<nat>)
    ensures r.Some? ==> r.value < |archive| && archive[r.value].identity == Some(id)
    ensures r.None? ==> forall i :: 0 <= i < |archive| ==> archive[i].identity != Some(id)
  {
    if archive == [] then None
    else if archive[|archive| - 1].identity == Some(id) then Some(|archive| - 1)
    else Find(archive[..|archive| - 1], id)
  }

  // ------------------------------------------------------------ sequences of messages and identities

  lemma {:induction false} IdsOfNamed(messages: seq<Message>)
    requires forall i :: 0 <= i < |messages| ==> messages[i].identity.Some?
    ensures |Ids(messages)| == |messages|
    ensures forall i :: 0 <= i < |messages| ==> messages[i].identity == Some(Ids(messages)[i])
    decreases |messages|
  {
    if messages != [] { IdsOfNamed(messages[1..]); }
  }

  lemma {:induction false} FindAt(archive: seq<Message>, next: nat, i: nat)
    requires Numbered(archive, next) && i < |archive|
    ensures Find(archive, archive[i].identity.value) == Some(i)
  {
  }

  lemma {:induction false} SourcesConcat(a: seq<Summary>, b: seq<Summary>)
    ensures Sources(a + b) == Sources(a) + Sources(b)
    decreases |b|
  {
    if b == [] {
      assert a + b == a;
    } else {
      assert (a + b)[..|a + b| - 1] == a + b[..|b| - 1];
      SourcesConcat(a, b[..|b| - 1]);
    }
  }

  lemma {:induction false} SourcesOne(s: Summary)
    ensures Sources([s]) == s.source
  {
    assert [s][..0] == [];
  }

  /** The source of the i-th summary is one stretch of the archive. */
  lemma {:induction false} SourceAt(archive: seq<Message>, summaries: seq<Summary>, memory: seq<Message>, i: nat) returns (at: nat)
    requires Conserved(archive, summaries, memory) && i < |summaries|
    ensures at + |summaries[i].source| <= |archive|
    ensures archive[at..at + |summaries[i].source|] == summaries[i].source
  {
    var before, s, after := summaries[..i], summaries[i], summaries[i + 1..];
    assert summaries == (before + [s]) + after;
    SourcesConcat(before + [s], after);
    SourcesConcat(before, [s]);
    SourcesOne(s);
    at := 1 + |Sources(before)|;
    assert archive == ([memory[0]] + Sources(before)) + s.source + (Sources(after) + memory[1..]);
  }

  // ------------------------------------------------------------ the server's re-check of a summary

  datatype SummaryError = EmptySources | DuplicateSource | MissingSource | Unordered | BadRetained
                        | MissingPrevious | FingerprintMismatch

  function Position(archive: seq<Message>, id: nat): nat {
    var p := Find(archive, id);
    if p.Some? then p.value else 0
  }

  function Archived(archive: seq<Message>, ids: seq<nat>): (r: seq<Message>)
    requires forall i :: 0 <= i < |ids| ==> Find(archive, ids[i]).Some?
    ensures |r| == |ids| && forall i :: 0 <= i < |r| ==> r[i] == Bare(archive[Position(archive, ids[i])])
  {
    seq(|ids|, i requires 0 <= i < |ids| => Bare(archive[Position(archive, ids[i])]))
  }

  predicate Ordered(archive: seq<Message>, ids: seq<nat>) {
    (forall i :: 0 <= i < |ids| ==> Find(archive, ids[i]).Some?) &&
    (forall i, j :: 0 <= i < j < |ids| ==> Position(archive, ids[i]) < Position(archive, ids[j]))
  }

  function FindSummary(summaries: seq<Summary>, id: nat): (r: Option<Summary>)
    ensures r.Some? ==> r.value in summaries && r.value.id == id
    ensures r.None? ==> forall i :: 0 <= i < |summaries| ==> summaries[i].id != id
  {
    if summaries == [] then None
    else if summaries[|summaries| - 1].id == id then Some(summaries[|summaries| - 1])
    else FindSummary(summaries[..|summaries| - 1], id)
  }

  /** The summary names archived messages in order, and its fingerprint is that of what they say. */
  predicate SummaryOk(archive: seq<Message>, prior: seq<Summary>, goal: string, s: Summary) {
    s.sourceIds != [] && Ordered(archive, s.sourceIds) && RetainedOk(archive, s.retainedIds) &&
    (s.previous.Some? ==> FindSummary(prior, s.previous.value).Some?) &&
    s.fingerprint == SourceText(goal, Archived(archive, s.sourceIds),
      if s.previous.Some? then Some(FindSummary(prior, s.previous.value).value.content) else None)
  }

  /** The source messages of a payload, as archived. */
  method CheckSources(archive: seq<Message>, ids: seq<nat>)
    returns (error: Option<SummaryError>, messages: seq<Message>)
    ensures error.None? <==> Ordered(archive, ids)
    ensures error.None? ==> messages == Archived(archive, ids)
  {
    var distinct: set<nat>, last: int := {}, -1;
    messages := [];
    var i := 0;
    while i < |ids|
      invariant 0 <= i <= |ids| && Ordered(archive, ids[..i])
      invariant distinct == set k | 0 <= k < i :: ids[k]
      invariant messages == Archived(archive, ids[..i])
      invariant last == if i == 0 then -1 else Position(archive, ids[i - 1])
    {
      hide Find;
      if ids[i] in distinct {
        var k :| 0 <= k < i && ids[k] == ids[i];
        return Some(DuplicateSource), [];
      }
      var found := Find(archive, ids[i]);
      if found.None? { return Some(MissingSource), []; }
      if found.value <= last {
        assert Position(archive, ids[i]) <= Position(archive, ids[i - 1]);
        return Some(Unordered), [];
      }
      distinct, last := distinct + {ids[i]}, found.value;
      messages := messages + [Bare(archive[found.value])];
      i := i + 1;
    }
    assert ids[..i] == ids;
    error := None;
  }

  /** The check is exact: it accepts a summary payload if and only if it is in order. */
  method ValidateSummary(archive: seq<Message>, prior: seq<Summary>, goal: string, s: Summary)
    returns (error: Option<SummaryError>)
    ensures error.None? <==> SummaryOk(archive, prior, goal, s)
  {
    hide Find, FindSummary, Ordered, RetainedOk, SourceText;
    if s.sourceIds == [] { return Some(EmptySources); }
    var messages;
    error, messages := CheckSources(archive, s.sourceIds);
    if error.Some? { return; }
    var retained := CheckRetained(archive, s.retainedIds);
    if !retained { return Some(BadRetained); }
    var previous := None;
    if s.previous.Some? {
      var row := FindSummary(prior, s.previous.value);
      if row.None? { return Some(MissingPrevious); }
      previous := Some(row.value.content);
    }
    if s.fingerprint != SourceText(goal, messages, previous) { return Some(FingerprintMismatch); }
    return None;
  }

  /** The identities are distinct and each belongs to an archived message. */
  predicate ArchivedOnce(archive: seq<Message>, ids: seq<nat>) {
    (forall i, j :: 0 <= i < j < |ids| ==> ids[i] != ids[j]) &&
    forall i :: 0 <= i < |ids| ==> Filed(archive, ids[i])
  }

  predicate Filed(archive: seq<Message>, id: nat) {
    exists k :: 0 <= k < |archive| && archive[k].identity == Some(id)
  }

  lemma {:induction false} RetainedIff(archive: seq<Message>, ids: seq<nat>)
    ensures RetainedOk(archive, ids) <==> ArchivedOnce(archive, ids)
  {
    hide Find;
    forall i | 0 <= i < |ids| ensures Find(archive, ids[i]).Some? <==> Filed(archive, ids[i]) {
      var p := Find(archive, ids[i]);
      if p.Some? { assert archive[p.value].identity == Some(ids[i]); }
    }
  }

  method CheckRetained(archive: seq<Message>, ids: seq<nat>) returns (ok: bool)
    ensures ok <==> RetainedOk(archive, ids)
    ensures ok <==> ArchivedOnce(archive, ids)
  {
    RetainedIff(archive, ids);
    var seen: set<nat> := {};
    var i := 0;
    while i < |ids|
      invariant 0 <= i <= |ids| && RetainedOk(archive, ids[..i])
      invariant seen == set k | 0 <= k < i :: ids[k]
    {
      if ids[i] in seen {
        var k :| 0 <= k < i && ids[k] == ids[i];
        return false;
      }
      if Find(archive, ids[i]).None? { return false; }
      seen := seen + {ids[i]};
      i := i + 1;
    }
    assert ids[..i] == ids;
    return true;
  }

  // ------------------------------------------------------------ what the re-check means

  predicate SaysSame(m: Message, n: Message) {
    m.role == n.role && m.content == n.content && m.callId == n.callId && m.calls == n.calls
  }

  /** The summary's sources stand at these places of the archive, in order, and its fingerprint says what they say. */
  predicate SourcedAt(archive: seq<Message>, s: Summary, at: seq<nat>) {
    |at| == |s.sourceIds| == |s.fingerprint.history| >= 1 &&
    (forall k, l :: 0 <= k < l < |at| ==> at[k] < at[l]) &&
    forall k :: 0 <= k < |at| ==>
      at[k] < |archive| && archive[at[k]].identity == Some(s.sourceIds[k]) &&
      s.fingerprint.history[k].identity.None? && SaysSame(s.fingerprint.history[k], archive[at[k]])
  }

  /** The summary continues the one it names, and none if it names none. */
  predicate Continues(prior: seq<Summary>, s: Summary) {
    if s.previous.None? then s.fingerprint.previous == "none"
    else
      exists i :: 0 <= i < |prior| && prior[i].id == s.previous.value &&
                  s.fingerprint.previous == if prior[i].content == "" then "none" else prior[i].content
  }

  /** A summary passes exactly if its sources are archived messages in order and its fingerprint is of this goal, of what
      they say and of the summary before; and what it kept is archived, once each. */
  lemma {:induction false} PassesIff(archive: seq<Message>, next: nat, prior: seq<Summary>, goal: string, s: Summary)
    requires Numbered(archive, next)
    requires forall i, j :: 0 <= i < j < |prior| ==> prior[i].id != prior[j].id
    ensures SummaryOk(archive, prior, goal, s) <==>
      (exists at :: SourcedAt(archive, s, at)) && Continues(prior, s) && s.fingerprint.goal == goal &&
      ArchivedOnce(archive, s.retainedIds)
  {
    hide Find, FindSummary, Numbered, SourcedAt, Continues, RetainedOk, ArchivedOnce, Ordered, SourceText;
    RetainedIff(archive, s.retainedIds);
    if s.sourceIds != [] && Ordered(archive, s.sourceIds) {
      OrderedIsSourced(archive, next, s);
      if s.previous.Some? && FindSummary(prior, s.previous.value).None? {
        NotContinued(prior, s);
      } else {
        FingerprintIff(archive, prior, goal, s);
      }
    } else if exists at :: SourcedAt(archive, s, at) {
      var at :| SourcedAt(archive, s, at);
      SourcedIsOrdered(archive, next, s, at);
    }
  }

  lemma {:induction false} NotContinued(prior: seq<Summary>, s: Summary)
    requires s.previous.Some? && FindSummary(prior, s.previous.value).None?
    ensures !Continues(prior, s)
  {
  }

  lemma {:induction false} SourcedIsOrdered(archive: seq<Message>, next: nat, s: Summary, at: seq<nat>)
    requires Numbered(archive, next) && SourcedAt(archive, s, at)
    ensures s.sourceIds != [] && Ordered(archive, s.sourceIds)
    ensures forall k :: 0 <= k < |at| ==> Position(archive, s.sourceIds[k]) == at[k]
  {
    hide Find, Numbered;
    forall k | 0 <= k < |at| ensures Find(archive, s.sourceIds[k]) == Some(at[k]) { FindAt(archive, next, at[k]); }
  }

  lemma {:induction false} OrderedIsSourced(archive: seq<Message>, next: nat, s: Summary)
    requires Numbered(archive, next) && s.sourceIds != [] && Ordered(archive, s.sourceIds)
    ensures (exists at :: SourcedAt(archive, s, at)) <==> s.fingerprint.history == Wires(Archived(archive, s.sourceIds))
  {
    hide Find, Numbered;
    var ids, said := s.sourceIds, Wires(Archived(archive, s.sourceIds));
    if s.fingerprint.history == said {
      var at := seq(|ids|, i requires 0 <= i < |ids| => Position(archive, ids[i]));
      assert SourcedAt(archive, s, at);
    }
    if exists at :: SourcedAt(archive, s, at) {
      var at :| SourcedAt(archive, s, at);
      SourcedIsOrdered(archive, next, s, at);
      forall k | 0 <= k < |at| ensures said[k] == s.fingerprint.history[k] {
        assert SaysSame(s.fingerprint.history[k], archive[at[k]]);
      }
      assert said == s.fingerprint.history;
    }
  }

  lemma {:induction false} FingerprintIff(archive: seq<Message>, prior: seq<Summary>, goal: string, s: Summary)
    requires Ordered(archive, s.sourceIds)
    requires s.previous.Some? ==> FindSummary(prior, s.previous.value).Some?
    requires forall i, j :: 0 <= i < j < |prior| ==> prior[i].id != prior[j].id
    ensures var found := if s.previous.Some? then Some(FindSummary(prior, s.previous.value).value.content) else None;
      s.fingerprint == SourceText(goal, Archived(archive, s.sourceIds), found) <==>
        s.fingerprint.history == Wires(Archived(archive, s.sourceIds)) && Continues(prior, s) && s.fingerprint.goal == goal
  {
    hide Find, Ordered, Archived, Wires;
    if s.previous.Some? {
      var row := FindSummary(prior, s.previous.value).value;
      var i :| 0 <= i < |prior| && prior[i] == row;
    }
  }

  // ------------------------------------------------------------ theorems about every reachable history

  lemma {:induction false} BareTwice(archive: seq<Message>, ids: seq<nat>, source: seq<Message>)
    requires forall i :: 0 <= i < |ids| ==> Find(archive, ids[i]).Some?
    requires |ids| == |source| && forall i :: 0 <= i < |ids| ==> archive[Position(archive, ids[i])] == source[i]
    ensures Wires(Archived(archive, ids)) == Wires(source)
  {
  }

  /** Every summary compaction produces passes the server's source-fingerprint check, whenever it is made. */
  lemma {:induction false} ProducedSummaryPasses(goal: string, archive: seq<Message>, summaries: seq<Summary>, memory: seq<Message>,
                              next: nat, i: nat)
    requires Conserved(archive, summaries, memory) && Numbered(archive, next) && Kept(archive, summaries, next)
    requires Chained(goal, summaries) && i < |summaries|
    ensures SummaryOk(archive, summaries[..i], goal, summaries[i])
  {
    hide Readable, Conserved, Numbered, Linked, SummaryOk, RetainedOk;
    var at := SourceAt(archive, summaries, memory, i);
    assert Linked(goal, summaries[..i], summaries[i]);
    if i > 0 { PriorFound(summaries, next, archive, i); }
    LinkedPasses(goal, archive, next, summaries[..i], summaries[i], at);
  }

  lemma {:induction false} LinkedPasses(goal: string, archive: seq<Message>, next: nat, prior: seq<Summary>, s: Summary, at: nat)
    requires Numbered(archive, next) && Linked(goal, prior, s) && RetainedOk(archive, s.retainedIds)
    requires at + |s.source| <= |archive| && archive[at..at + |s.source|] == s.source
    requires prior != [] ==> FindSummary(prior, prior[|prior| - 1].id) == Some(prior[|prior| - 1])
    ensures SummaryOk(archive, prior, goal, s)
  {
    hide Readable, Numbered, Find, FindSummary, RetainedOk, Ids, Position;
    IdsOfSlice(archive, next, at, s.source);
    BareTwice(archive, s.sourceIds, s.source);
  }

  lemma {:induction false} IdsOfSlice(archive: seq<Message>, next: nat, at: nat, source: seq<Message>)
    requires Numbered(archive, next) && at + |source| <= |archive| && archive[at..at + |source|] == source
    ensures |Ids(source)| == |source| && Ordered(archive, Ids(source))
    ensures forall k :: 0 <= k < |source| ==>
      Position(archive, Ids(source)[k]) == at + k && archive[at + k] == source[k]
  {
    forall k | 0 <= k < |source| ensures source[k] == archive[at + k] {
    }
    NamedSlice(archive, next, at, source);
    IdsOfNamed(source);
    hide Find, Numbered, Ids;
    var ids := Ids(source);
    forall k | 0 <= k < |source| ensures Find(archive, ids[k]) == Some(at + k) {
      assert Some(ids[k]) == archive[at + k].identity;
      FindAt(archive, next, at + k);
    }
  }

  lemma {:induction false} NamedSlice(archive: seq<Message>, next: nat, at: nat, source: seq<Message>)
    requires Numbered(archive, next) && at + |source| <= |archive|
    requires forall k :: 0 <= k < |source| ==> source[k] == archive[at + k]
    ensures forall k :: 0 <= k < |source| ==> source[k].identity.Some?
  {
  }

  lemma {:induction false} PriorFound(summaries: seq<Summary>, next: nat, archive: seq<Message>, i: nat)
    requires Kept(archive, summaries, next) && 0 < i < |summaries|
    ensures FindSummary(summaries[..i], summaries[i - 1].id) == Some(summaries[i - 1])
  {
    var prior := summaries[..i];
    assert prior[i - 1] == summaries[i - 1];
    var found := FindSummary(prior, summaries[i - 1].id);
    var k :| 0 <= k < |prior| && prior[k] == found.value;
  }

  /** The sources are cut out of `all` group by group, in order, leaving the tail. */
  ghost predicate CutAt(all: seq<seq<Message>>, sources: seq<Summary>, tail: seq<Message>)
    decreases |sources|
  {
    if sources == [] then Flatten(all) == tail
    else exists k | 0 <= k <= |all| ::
      Flatten(all[..k]) == sources[0].source && CutAt(all[k..], sources[1..], tail)
  }

  lemma {:induction false} PrefixUnits(part: seq<seq<Message>>, all: seq<seq<Message>>)
    requires Units(part) && Units(all) && Flatten(part) <= Flatten(all)
    ensures part <= all
    decreases |part|
  {
    hide IsUnit;
    if part != [] {
      UnitsAreNonempty(part);
      UnitsAreNonempty(all);
      SameUnit(part[0], all[0], Flatten(all));
      assert Flatten(part)[|part[0]|..] == Flatten(part[1..]);
      assert Flatten(all)[|all[0]|..] == Flatten(all[1..]);
      PrefixUnits(part[1..], all[1..]);
    }
  }

  lemma {:induction false} SourcesFront(summaries: seq<Summary>)
    requires summaries != []
    ensures Sources(summaries) == summaries[0].source + Sources(summaries[1..])
  {
    assert summaries == [summaries[0]] + summaries[1..];
    SourcesConcat([summaries[0]], summaries[1..]);
    SourcesOne(summaries[0]);
  }

  lemma {:induction false} RestOf(part: seq<seq<Message>>, rest: seq<seq<Message>>, source: seq<Message>,
                                  tail: seq<Message>)
    requires Flatten(part + rest) == source + tail && Flatten(part) == source
    ensures Flatten(rest) == tail
  {
    hide Flatten;
    FlattenConcat(part, rest);
    assert (source + tail)[|source|..] == tail;
    assert (source + Flatten(rest))[|source|..] == Flatten(rest);
  }

  lemma {:induction false} CutStep(all: seq<seq<Message>>, sources: seq<Summary>, tail: seq<Message>, k: nat)
    requires sources != [] && k <= |all| && Flatten(all[..k]) == sources[0].source
    requires CutAt(all[k..], sources[1..], tail)
    ensures CutAt(all, sources, tail)
  {
    hide Flatten;
  }

  /** The first source is the first few groups, and the others and the tail are the rest. */
  lemma {:induction false} FirstCut(all: seq<seq<Message>>, sources: seq<Summary>, tail: seq<Message>)
    returns (k: nat)
    requires Units(all) && Flatten(all) == Sources(sources) + tail
    requires sources != [] && Readable(sources[0].source)
    ensures k <= |all| && Flatten(all[..k]) == sources[0].source
    ensures Flatten(all[k..]) == Sources(sources[1..]) + tail
  {
    hide IsUnit, Flatten, Sources;
    SourcesFront(sources);
    var part :| Reads(part, sources[0].source);
    PrefixUnits(part, all);
    k := |part|;
    assert all[..k] == part && all == part + all[k..];
    RestOf(part, all[k..], sources[0].source, Sources(sources[1..]) + tail);
  }

  lemma {:induction false} CutsFollow(all: seq<seq<Message>>, sources: seq<Summary>, tail: seq<Message>)
    requires Units(all) && Flatten(all) == Sources(sources) + tail
    requires forall i :: 0 <= i < |sources| ==> Readable(sources[i].source)
    ensures CutAt(all, sources, tail)
    decreases |sources|
  {
    hide IsUnit, Flatten, Readable;
    if sources == [] {
      assert Sources(sources) + tail == tail;
    } else {
      var k := FirstCut(all, sources, tail);
      CutsFollow(all[k..], sources[1..], tail);
      CutStep(all, sources, tail, k);
    }
  }

  /** No tool-call batch is ever split between two summaries, or between a summary and the memory that is kept:
      the groups of everything ever appended are dealt out whole. */
  lemma {:induction false} NoGroupIsSplit(goal: string, archive: seq<Message>, summaries: seq<Summary>, memory: seq<Message>,
                       all: seq<seq<Message>>)
    requires Conserved(archive, summaries, memory) && Chained(goal, summaries) && Reads(all, archive[1..])
    ensures CutAt(all, summaries, memory[1..])
  {
    assert archive[1..] == Sources(summaries) + memory[1..];
    forall i | 0 <= i < |summaries| ensures Readable(summaries[i].source) {
      assert Linked(goal, summaries[..i], summaries[i]);
    }
    CutsFollow(all, summaries, memory[1..]);
  }
}
