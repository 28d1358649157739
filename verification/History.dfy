/** Grouping of a message history into plain messages and complete tool-call batches. */
module History {
  import opened Options

  datatype Role = System | User | Assistant | Tool
  datatype Call = Call(id: Option<string>, body: string)
  datatype Message = Message(role: Role, content: Option<string>, callId: Option<string>, calls: seq<Call>,
                             identity: Option<nat>)

  // ------------------------------------------------------------ what a history is made of

  predicate Batched(m: Message) {
    m.role == Assistant && m.calls != []
  }

  predicate Named(id: Option<string>) {
    id.Some? && id.value != ""
  }

  predicate IsPlain(g: seq<Message>) {
    |g| == 1 && g[0].role != Tool && !Batched(g[0])
  }

  predicate NamedCalls(calls: seq<Call>) {
    (forall i :: 0 <= i < |calls| ==> Named(calls[i].id)) &&
    (forall i, j :: 0 <= i < j < |calls| ==> calls[i].id != calls[j].id)
  }

  predicate NamedResults(results: seq<Message>) {
    (forall i :: 0 <= i < |results| ==> results[i].role == Tool && Named(results[i].callId)) &&
    (forall i, j :: 0 <= i < j < |results| ==> results[i].callId != results[j].callId)
  }

  /** Every call has a result under its own id. */
  predicate Answered(calls: seq<Call>, results: seq<Message>) {
    forall i :: 0 <= i < |calls| ==> exists j :: 0 <= j < |results| && results[j].callId == calls[i].id
  }

  /** An assistant message with calls, followed by exactly one result for each of them, in any order. */
  predicate IsBatch(g: seq<Message>) {
    |g| > 0 && Batched(g[0]) && |g| == 1 + |g[0].calls| &&
    NamedCalls(g[0].calls) && NamedResults(g[1..]) && Answered(g[0].calls, g[1..])
  }

  predicate IsUnit(g: seq<Message>) {
    IsPlain(g) || IsBatch(g)
  }

  function Flatten(groups: seq<seq<Message>>): seq<Message> {
    if groups == [] then [] else groups[0] + Flatten(groups[1..])
  }

  predicate Units(groups: seq<seq<Message>>) {
    forall i :: 0 <= i < |groups| ==> IsUnit(groups[i])
  }

  /** `groups` is a reading of the history as plain messages and complete batches. */
  predicate Reads(groups: seq<seq<Message>>, messages: seq<Message>) {
    Units(groups) && Flatten(groups) == messages
  }

  lemma {:induction false} FlattenConcat(a: seq<seq<Message>>, b: seq<seq<Message>>)
    ensures Flatten(a + b) == Flatten(a) + Flatten(b)
    decreases |a|
  {
    if a == [] {
      assert a + b == b;
    } else {
      assert (a + b)[1..] == a[1..] + b;
      FlattenConcat(a[1..], b);
    }
  }

  lemma {:induction false} FlattenOne(g: seq<Message>)
    ensures Flatten([g]) == g
  {
    assert [g][1..] == [];
  }

  lemma {:induction false} UnitsAreNonempty(groups: seq<seq<Message>>)
    requires Units(groups) && groups != []
    ensures |Flatten(groups)| >= |groups[0]| > 0 && IsUnit(groups[0])
  {
  }

  /** Two units that begin the same history are the same unit. */
  lemma {:induction false} SameUnit(g: seq<Message>, h: seq<Message>, messages: seq<Message>)
    requires IsUnit(g) && IsUnit(h) && g <= messages && h <= messages
    ensures g == h
  {
    assert g[0] == messages[0] == h[0];
    assert |g| == |h|;
  }

  /** A reading is unique: grouping is unambiguous. */
  lemma {:induction false} ReadingIsUnique(a: seq<seq<Message>>, b: seq<seq<Message>>, messages: seq<Message>)
    requires Reads(a, messages) && Reads(b, messages)
    ensures a == b
    decreases |a|
  {
    if a == [] {
      if b != [] { UnitsAreNonempty(b); }
    } else {
      assert IsUnit(a[0]);
      assert b != [];
      assert IsUnit(b[0]);
      SameUnit(a[0], b[0], messages);
      assert messages[|a[0]|..] == Flatten(a[1..]);
      assert messages[|b[0]|..] == Flatten(b[1..]);
      ReadingIsUnique(a[1..], b[1..], messages[|a[0]|..]);
    }
  }

  /** A reading of the whole history goes on with a unit wherever a reading of a proper prefix ends. */
  lemma {:induction false} NextUnit(read: seq<seq<Message>>, messages: seq<Message>, all: seq<seq<Message>>)
    returns (end: nat)
    requires Units(read) && Flatten(read) <= messages && |Flatten(read)| < |messages|
    requires Reads(all, messages)
    ensures |Flatten(read)| < end <= |messages| && IsUnit(messages[|Flatten(read)|..end])
    decreases |read|
  {
    hide IsPlain, IsBatch;
    UnitsAreNonempty(all);
    if read == [] {
      end := |all[0]|;
      assert messages[0..end] == all[0];
    } else {
      UnitsAreNonempty(read);
      SameUnit(all[0], read[0], messages);
      var k := |read[0]|;
      assert messages[k..] == Flatten(all[1..]);
      end := NextUnit(read[1..], messages[k..], all[1..]);
      assert messages[k..][|Flatten(read[1..])|..end] == messages[|Flatten(read)|..k + end];
      end := k + end;
    }
  }

  // ------------------------------------------------------------ interaction_groups

  datatype IntegrityError =
    | OrphanedResult | MissingCallId | DuplicateCallId | IncompleteBatch
    | ForeignMessage | MissingResultId | DuplicateResultId | Uncorrelated

  datatype Grouping =
    | Groups(groups: seq<seq<Message>>, indexes: seq<seq<nat>>)
    | Broken(error: IntegrityError, index: nat)

  predicate Consecutive(indexes: seq<seq<nat>>, groups: seq<seq<Message>>) {
    |indexes| == |groups| &&
    forall i :: 0 <= i < |groups| ==>
      |indexes[i]| == |groups[i]| &&
      forall j :: 0 <= j < |groups[i]| ==> indexes[i][j] == |Flatten(groups[..i])| + j
  }

  /** The calls of a batch: every id present, none twice. */
  method CheckCalls(calls: seq<Call>) returns (error: Option<IntegrityError>, ids: seq<string>)
    ensures error.None? <==> NamedCalls(calls)
    ensures error.None? ==> |ids| == |calls| && forall i :: 0 <= i < |calls| ==> calls[i].id == Some(ids[i])
  {
    ids := [];
    var unique: set<string> := {};
    var i := 0;
    while i < |calls|
      invariant 0 <= i <= |calls| && |ids| == i && NamedCalls(calls[..i])
      invariant forall k :: 0 <= k < i ==> calls[k].id == Some(ids[k])
      invariant unique == set k | 0 <= k < i :: ids[k]
    {
      if !Named(calls[i].id) { return Some(MissingCallId), []; }
      var id := calls[i].id.value;
      if id in unique {
        var k :| 0 <= k < i && ids[k] == id;
        assert calls[k].id == calls[i].id;
        return Some(DuplicateCallId), [];
      }
      unique := unique + {id};
      ids := ids + [id];
      i := i + 1;
    }
    assert calls[..i] == calls;
    error := None;
  }

  /** The results of a batch: all tool messages, every id present, none twice. */
  method CheckResults(results: seq<Message>) returns (error: Option<IntegrityError>, seen: set<string>)
    ensures error.None? <==> NamedResults(results)
    ensures error.None? ==> seen == set k | 0 <= k < |results| && results[k].callId.Some? :: results[k].callId.value
  {
    seen := {};
    var i := 0;
    while i < |results|
      invariant 0 <= i <= |results| && NamedResults(results[..i])
      invariant seen == set k | 0 <= k < i && results[k].callId.Some? :: results[k].callId.value
    {
      if results[i].role != Tool { return Some(ForeignMessage), {}; }
      if !Named(results[i].callId) { return Some(MissingResultId), {}; }
      var id := results[i].callId.value;
      if id in seen {
        var k :| 0 <= k < i && results[k].callId.Some? && results[k].callId.value == id;
        assert results[k].callId == results[i].callId;
        return Some(DuplicateResultId), {};
      }
      seen := seen + {id};
      i := i + 1;
    }
    assert results[..i] == results;
    error := None;
  }

  /** Check the batch that starts at `index`; no error means the messages up to `end` are one. */
  method CheckBatch(messages: seq<Message>, index: nat) returns (error: Option<IntegrityError>, end: nat)
    requires index < |messages| && Batched(messages[index])
    ensures end == index + 1 + |messages[index].calls|
    ensures error.None? <==> end <= |messages| && IsBatch(messages[index..end])
  {
    var calls := messages[index].calls;
    end := index + 1 + |calls|;
    var badCall, ids := CheckCalls(calls);
    if end <= |messages| { assert messages[index..end][0] == messages[index]; }
    if badCall.Some? { return badCall, end; }
    if end > |messages| { return Some(IncompleteBatch), end; }
    var g := messages[index..end];
    assert g[1..] == messages[index + 1..end];
    var badResult, seen := CheckResults(messages[index + 1..end]);
    if badResult.Some? { return badResult, end; }
    var results := g[1..];
    if exists i | 0 <= i < |ids| :: ids[i] !in seen {
      var i :| 0 <= i < |ids| && ids[i] !in seen;
      assert calls[i].id == Some(ids[i]);
      assert forall j :: 0 <= j < |results| ==> results[j].callId != calls[i].id;
      return Some(Uncorrelated), end;
    }
    forall i | 0 <= i < |calls| ensures exists j :: 0 <= j < |results| && results[j].callId == calls[i].id {
      assert ids[i] in seen;
      var j :| 0 <= j < |results| && results[j].callId.Some? && results[j].callId.value == ids[i];
    }
    return None, end;
  }

  /** No unit of a history begins at `index`. */
  predicate Refused(messages: seq<Message>, index: nat)
    requires index < |messages|
  {
    var end := index + 1 + |messages[index].calls|;
    messages[index].role == Tool ||
    (Batched(messages[index]) && !(end <= |messages| && IsBatch(messages[index..end])))
  }

  /** Grouping succeeds exactly when the history is a concatenation of plain messages and complete batches, and then
      returns that one reading with each message's position; otherwise it reports where the reading breaks off. */
  method InteractionGroups(messages: seq<Message>) returns (r: Grouping)
    ensures r.Groups? ==> Reads(r.groups, messages) && Consecutive(r.indexes, r.groups)
    ensures r.Broken? ==> forall all :: !Reads(all, messages)
    ensures r.Broken? ==> r.index < |messages| && exists read :: Reads(read, messages[..r.index])
  {
    var groups: seq<seq<Message>>, indexes: seq<seq<nat>> := [], [];
    var index := 0;
    while index < |messages|
      invariant 0 <= index <= |messages|
      invariant Reads(groups, messages[..index]) && Consecutive(indexes, groups)
      decreases |messages| - index
    {
      var m := messages[index];
      ghost var at := |Flatten(groups)|;
      if m.role == Tool {
        StuckAt(groups, messages);
        return Broken(OrphanedResult, index);
      }
      var end := index + 1;
      if Batched(m) {
        var error;
        error, end := CheckBatch(messages, index);
        if error.Some? {
          StuckAt(groups, messages);
          return Broken(error.value, index);
        }
      }
      var g := messages[index..end];
      var positions := seq(end - index, i requires 0 <= i => index + i);
      FlattenConcat(groups, [g]);
      FlattenOne(g);
      assert messages[..index] + g == messages[..end];
      ConsecutiveAppend(indexes, groups, positions, g);
      groups, indexes := groups + [g], indexes + [positions];
      index := end;
    }
    assert messages[..index] == messages;
    return Groups(groups, indexes);
  }

  lemma {:induction false} ConsecutiveAppend(indexes: seq<seq<nat>>, groups: seq<seq<Message>>, positions: seq<nat>, g: seq<Message>)
    requires Consecutive(indexes, groups) && |positions| == |g|
    requires forall j :: 0 <= j < |g| ==> positions[j] == |Flatten(groups)| + j
    ensures Consecutive(indexes + [positions], groups + [g])
  {
    var all := groups + [g];
    forall i | 0 <= i < |all| ensures all[..i] == if i < |groups| then groups[..i] else groups {
    }
  }

  /** When the unit at the reading's end is refused, no reading of the whole history exists. */
  lemma {:induction false} StuckAt(read: seq<seq<Message>>, messages: seq<Message>)
    requires Units(read) && Flatten(read) <= messages && |Flatten(read)| < |messages|
    requires Refused(messages, |Flatten(read)|)
    ensures forall all :: !Reads(all, messages)
  {
    var i := |Flatten(read)|;
    forall end | i < end <= |messages| ensures !IsUnit(messages[i..end]) {
      assert messages[i..end][0] == messages[i];
    }
    forall all ensures !Reads(all, messages) {
      if Reads(all, messages) { var end := NextUnit(read, messages, all); }
    }
  }

  // ------------------------------------------------------------ split_history

  /** Where the tail begins: walking back from `b`, until it holds at least `minimum` messages. */
  function Boundary(groups: seq<seq<Message>>, minimum: nat, b: nat): (r: nat)
    requires b <= |groups|
    ensures r <= b
  {
    if b == 0 || |Flatten(groups[b..])| >= minimum then b else Boundary(groups, minimum, b - 1)
  }

  /** Keep the shortest run of whole groups at the end that holds at least `minimum` messages. */
  method SplitHistory(messages: seq<Message>, minimum: nat)
    returns (ok: bool, history: seq<seq<Message>>, tail: seq<seq<Message>>)
    ensures ok <==> exists groups :: Reads(groups, messages)
    ensures ok ==> Reads(history + tail, messages) && Flatten(history) + Flatten(tail) == messages
    ensures ok ==> |history| == Boundary(history + tail, minimum, |history + tail|)
    ensures ok && history != [] ==> |Flatten(tail)| >= minimum
    ensures ok && tail != [] ==> |Flatten(tail[1..])| < minimum
  {
    hide IsUnit, Consecutive;
    var grouped := InteractionGroups(messages);
    if grouped.Broken? { return false, [], []; }
    var groups := grouped.groups;
    hide Reads, Units;
    var boundary, count := |groups|, 0;
    while boundary > 0 && count < minimum
      invariant 0 <= boundary <= |groups| && count == |Flatten(groups[boundary..])|
      invariant Boundary(groups, minimum, |groups|) == Boundary(groups, minimum, boundary)
      invariant boundary < |groups| ==> |Flatten(groups[boundary + 1..])| < minimum
    {
      boundary := boundary - 1;
      assert groups[boundary..][1..] == groups[boundary + 1..];
      count := count + |groups[boundary]|;
    }
    assert groups[..boundary] + groups[boundary..] == groups;
    FlattenConcat(groups[..boundary], groups[boundary..]);
    assert boundary < |groups| ==> groups[boundary..][1..] == groups[boundary + 1..];
    return true, groups[..boundary], groups[boundary..];
  }

  // ------------------------------------------------------------ single_call_wire

  function FindResult(results: seq<Message>, id: Option<string>): (r: Option<nat>)
    ensures r.None? ==> forall j :: 0 <= j < |results| ==> results[j].callId != id
    ensures r.Some? ==> r.value < |results| && results[r.value].callId == id
  {
    if results == [] then None
    else if results[|results| - 1].callId == id then Some(|results| - 1)
    else FindResult(results[..|results| - 1], id)
  }

  /** The k-th call on its own; only the first keeps the assistant's text. */
  function Single(m: Message, k: nat): Message
    requires k < |m.calls|
  {
    m.(calls := [m.calls[k]], content := if k == 0 then m.content else None)
  }

  /** The result that answers the k-th call. */
  function ResultOf(g: seq<Message>, k: nat): (r: Message)
    requires IsBatch(g) && k < |g[0].calls|
    ensures r in g[1..] && r.callId == g[0].calls[k].id && r.role == Tool
  {
    assert FindResult(g[1..], g[0].calls[k].id).Some?;
    g[1..][FindResult(g[1..], g[0].calls[k].id).value]
  }

  /** The first n calls of a batch, each followed by its own result. */
  function Expand(g: seq<Message>, n: nat): seq<Message>
    requires IsBatch(g) && n <= |g[0].calls|
  {
    if n == 0 then [] else Expand(g, n - 1) + [Single(g[0], n - 1), ResultOf(g, n - 1)]
  }

  function WireUnit(g: seq<Message>): seq<Message>
    requires IsUnit(g)
  {
    if IsPlain(g) then g else Expand(g, |g[0].calls|)
  }

  function WireAll(groups: seq<seq<Message>>): seq<Message>
    requires Units(groups)
  {
    if groups == [] then [] else WireUnit(groups[0]) + WireAll(groups[1..])
  }

  lemma {:induction false} WireConcat(a: seq<seq<Message>>, b: seq<seq<Message>>)
    requires Units(a) && Units(b)
    ensures Units(a + b) && WireAll(a + b) == WireAll(a) + WireAll(b)
    decreases |a|
  {
    hide IsUnit, WireUnit;
    if a == [] {
      assert a + b == b;
    } else {
      assert (a + b)[1..] == a[1..] + b;
      WireConcat(a[1..], b);
    }
  }

  method ExpandBatch(g: seq<Message>) returns (singles: seq<Message>)
    requires IsBatch(g)
    ensures singles == Expand(g, |g[0].calls|)
  {
    hide NamedCalls, NamedResults, Answered;
    singles := [];
    var position := 0;
    while position < |g[0].calls|
      invariant 0 <= position <= |g[0].calls| && singles == Expand(g, position)
    {
      singles := singles + [Single(g[0], position), ResultOf(g, position)];
      position := position + 1;
    }
  }

  /** The unit at `index` and its rewriting. */
  method WireNext(messages: seq<Message>, index: nat) returns (end: nat, wire: Option<seq<Message>>)
    requires index < |messages|
    ensures wire.None? ==> Refused(messages, index)
    ensures wire.Some? ==> index < end <= |messages| && IsUnit(messages[index..end])
    ensures wire.Some? ==> wire.value == WireUnit(messages[index..end])
  {
    hide NamedCalls, NamedResults, Answered;
    var m := messages[index];
    end := index + 1;
    if m.role == Tool { return end, None; }
    if !Batched(m) {
      assert messages[index..end] == [m];
      return end, Some([m]);
    }
    var error;
    error, end := CheckBatch(messages, index);
    if error.Some? { return end, None; }
    var singles := ExpandBatch(messages[index..end]);
    wire := Some(singles);
  }

  /** Accepts exactly the histories that can be read, and rewrites each reading call by call. */
  method SingleCallWire(messages: seq<Message>) returns (r: Option<seq<Message>>)
    ensures r.Some? <==> exists groups :: Reads(groups, messages)
    ensures forall groups :: Reads(groups, messages) ==> r == Some(WireAll(groups))
  {
    hide IsUnit, WireUnit, Refused;
    var output: seq<Message> := [];
    ghost var groups: seq<seq<Message>> := [];
    var index := 0;
    while index < |messages|
      invariant 0 <= index <= |messages|
      invariant Reads(groups, messages[..index]) && output == WireAll(groups)
      decreases |messages| - index
    {
      var end, wire := WireNext(messages, index);
      if wire.None? {
        StuckAt(groups, messages);
        return None;
      }
      output := output + wire.value;
      WireStep(groups, messages[index..end], messages, index);
      groups := groups + [messages[index..end]];
      index := end;
    }
    assert messages[..index] == messages;
    forall all | Reads(all, messages) ensures all == groups {
      ReadingIsUnique(all, groups, messages);
    }
    return Some(output);
  }

  /** Reading one more unit. */
  lemma {:induction false} WireStep(groups: seq<seq<Message>>, g: seq<Message>, messages: seq<Message>, index: nat)
    requires index + |g| <= |messages| && g == messages[index..index + |g|] && IsUnit(g)
    requires Reads(groups, messages[..index])
    ensures Reads(groups + [g], messages[..index + |g|])
    ensures WireAll(groups + [g]) == WireAll(groups) + WireUnit(g)
  {
    hide IsUnit, WireUnit;
    FlattenConcat(groups, [g]);
    FlattenOne(g);
    WireConcat(groups, [g]);
    WireOne(g);
    assert messages[..index] + g == messages[..index + |g|];
  }

  lemma {:induction false} WireOne(g: seq<Message>)
    requires IsUnit(g)
    ensures WireAll([g]) == WireUnit(g)
  {
    assert [g][1..] == [];
  }

  // ------------------------------------------------------------ what the rewriting keeps

  /** The units of an expanded batch: one call and its result each. */
  function Pairs(g: seq<Message>, n: nat): (r: seq<seq<Message>>)
    requires IsBatch(g) && n <= |g[0].calls|
    ensures |r| == n
  {
    if n == 0 then [] else Pairs(g, n - 1) + [[Single(g[0], n - 1), ResultOf(g, n - 1)]]
  }

  function SingleUnits(groups: seq<seq<Message>>): seq<seq<Message>>
    requires Units(groups)
  {
    if groups == [] then []
    else (if IsPlain(groups[0]) then [groups[0]] else Pairs(groups[0], |groups[0][0].calls|)) + SingleUnits(groups[1..])
  }

  lemma {:induction false} PairIsBatch(g: seq<Message>, k: nat)
    requires IsBatch(g) && k < |g[0].calls|
    ensures IsBatch([Single(g[0], k), ResultOf(g, k)])
    ensures WireUnit([Single(g[0], k), ResultOf(g, k)]) == [Single(g[0], k), ResultOf(g, k)]
  {
    var pair := [Single(g[0], k), ResultOf(g, k)];
    assert pair[1..] == [ResultOf(g, k)];
    assert ResultOf(g, k) in g[1..];
    assert pair[1..][0].callId == pair[0].calls[0].id;
    assert IsBatch(pair);
    assert Expand(pair, 1) == Expand(pair, 0) + [Single(pair[0], 0), ResultOf(pair, 0)];
  }

  lemma {:induction false} PairsRead(g: seq<Message>, n: nat)
    requires IsBatch(g) && n <= |g[0].calls|
    ensures Reads(Pairs(g, n), Expand(g, n)) && WireAll(Pairs(g, n)) == Expand(g, n)
  {
    hide IsBatch, Single, ResultOf, WireUnit;
    if n > 0 {
      PairsRead(g, n - 1);
      PairIsBatch(g, n - 1);
      var pair := [Single(g[0], n - 1), ResultOf(g, n - 1)];
      FlattenConcat(Pairs(g, n - 1), [pair]);
      FlattenOne(pair);
      WireConcat(Pairs(g, n - 1), [pair]);
      WireOne(pair);
    }
  }

  /** The rewritten history is again a history, of single-call units, and rewriting it again changes nothing. */
  lemma {:induction false} WireIsIdempotent(groups: seq<seq<Message>>)
    requires Units(groups)
    ensures Reads(SingleUnits(groups), WireAll(groups))
    ensures WireAll(SingleUnits(groups)) == WireAll(groups)
    decreases |groups|
  {
    if groups != [] {
      var g := groups[0];
      assert IsUnit(g);
      WireIsIdempotent(groups[1..]);
      var first := if IsPlain(g) then [g] else Pairs(g, |g[0].calls|);
      if IsPlain(g) {
        FlattenOne(g);
        WireOne(g);
      } else {
        PairsRead(g, |g[0].calls|);
      }
      FlattenConcat(first, SingleUnits(groups[1..]));
      WireConcat(first, SingleUnits(groups[1..]));
    }
  }

  /** Every call the assistant made in a history, in order. */
  function AllCalls(messages: seq<Message>): seq<Call> {
    if messages == [] then [] else CallsOf(messages[0]) + AllCalls(messages[1..])
  }

  function CallsOf(m: Message): seq<Call> {
    if Batched(m) then m.calls else []
  }

  function ToolMessages(messages: seq<Message>): multiset<Message> {
    if messages == [] then multiset{}
    else ToolMessages(messages[1..]) + if messages[0].role == Tool then multiset{messages[0]} else multiset{}
  }

  lemma {:induction false} AllCallsConcat(a: seq<Message>, b: seq<Message>)
    ensures AllCalls(a + b) == AllCalls(a) + AllCalls(b)
    decreases |a|
  {
    hide CallsOf;
    if a == [] {
      assert a + b == b;
    } else {
      assert (a + b)[1..] == a[1..] + b && (a + b)[0] == a[0];
      AllCallsConcat(a[1..], b);
    }
  }

  lemma {:induction false} ToolMessagesConcat(a: seq<Message>, b: seq<Message>)
    ensures ToolMessages(a + b) == ToolMessages(a) + ToolMessages(b)
    decreases |a|
  {
    if a == [] {
      assert a + b == b;
    } else {
      assert (a + b)[1..] == a[1..] + b && (a + b)[0] == a[0];
      ToolMessagesConcat(a[1..], b);
    }
  }

  /** What the messages that are not tool results say. */
  function Texts(messages: seq<Message>): seq<string> {
    if messages == [] then [] else TextOf(messages[0]) + Texts(messages[1..])
  }

  function TextOf(m: Message): seq<string> {
    if m.role != Tool && m.content.Some? then [m.content.value] else []
  }

  lemma {:induction false} TextsConcat(a: seq<Message>, b: seq<Message>)
    ensures Texts(a + b) == Texts(a) + Texts(b)
    decreases |a|
  {
    hide TextOf;
    if a == [] {
      assert a + b == b;
    } else {
      assert (a + b)[1..] == a[1..] + b && (a + b)[0] == a[0];
      TextsConcat(a[1..], b);
    }
  }

  lemma {:induction false} ResultsSayNothing(results: seq<Message>)
    requires forall i :: 0 <= i < |results| ==> results[i].role == Tool
    ensures Texts(results) == []
    decreases |results|
  {
    if results != [] { ResultsSayNothing(results[1..]); }
  }

  lemma {:induction false} PairTexts(g: seq<Message>, k: nat)
    requires IsBatch(g) && k < |g[0].calls|
    ensures Texts([Single(g[0], k), ResultOf(g, k)]) == if k == 0 then TextOf(g[0]) else []
  {
    hide NamedCalls, NamedResults, Answered, ResultOf;
    var s, r := Single(g[0], k), ResultOf(g, k);
    TextsConcat([s], [r]);
    assert [s] + [r] == [s, r];
    assert Texts([r]) == [] by { assert [r][1..] == []; }
    assert Texts([s]) == TextOf(s) by { assert [s][1..] == []; }
  }

  lemma {:induction false} ExpandTexts(g: seq<Message>, n: nat)
    requires IsBatch(g) && n <= |g[0].calls|
    ensures Texts(Expand(g, n)) == if n == 0 then [] else TextOf(g[0])
  {
    hide IsBatch, Single, ResultOf, TextOf, Texts;
    if n == 0 {
      assert Texts([]) == [] by { NoTexts(); }
    } else {
      ExpandTexts(g, n - 1);
      PairTexts(g, n - 1);
      TextsConcat(Expand(g, n - 1), [Single(g[0], n - 1), ResultOf(g, n - 1)]);
    }
  }

  lemma {:induction false} NoTexts()
    ensures Texts([]) == []
  {
  }

  lemma {:induction false} UnitTexts(g: seq<Message>)
    requires IsUnit(g)
    ensures Texts(WireUnit(g)) == Texts(g)
  {
    hide Expand, TextOf;
    if IsBatch(g) {
      ExpandTexts(g, |g[0].calls|);
      ResultsSayNothing(g[1..]);
    }
  }

  /** The assistant's text is kept once for each batch, and every other text as it is. */
  lemma {:induction false} WireKeepsTexts(groups: seq<seq<Message>>)
    requires Units(groups)
    ensures Texts(WireAll(groups)) == Texts(Flatten(groups))
    decreases |groups|
  {
    hide IsUnit, WireUnit, Texts;
    if groups != [] {
      assert IsUnit(groups[0]);
      UnitTexts(groups[0]);
      WireKeepsTexts(groups[1..]);
      TextsConcat(groups[0], Flatten(groups[1..]));
      TextsConcat(WireUnit(groups[0]), WireAll(groups[1..]));
    }
  }

  lemma {:induction false} QuietResults(results: seq<Message>)
    requires forall i :: 0 <= i < |results| ==> results[i].role == Tool
    ensures AllCalls(results) == [] && ToolMessages(results) == multiset(results)
    decreases |results|
  {
    if results != [] {
      QuietResults(results[1..]);
      assert results == [results[0]] + results[1..];
    }
  }

  /** Two duplicate-free sequences of the same length, one within the other, hold the same elements. */
  lemma {:induction false} SameElements<T>(a: seq<T>, b: seq<T>)
    requires |a| == |b|
    requires forall i, j :: 0 <= i < j < |a| ==> a[i] != a[j]
    requires forall i :: 0 <= i < |a| ==> a[i] in b
    ensures multiset(a) == multiset(b)
    decreases |a|
  {
    if a == [] {
      assert b == [];
    } else {
      var x, front := a[|a| - 1], a[..|a| - 1];
      var j :| 0 <= j < |b| && b[j] == x;
      var rest := b[..j] + b[j + 1..];
      assert b == b[..j] + [x] + b[j + 1..];
      forall i | 0 <= i < |front| ensures front[i] in rest {
        assert front[i] in b && front[i] != x;
      }
      SameElements(front, rest);
      assert a == front + [x];
    }
  }

  function Chosen(g: seq<Message>, n: nat): (r: seq<Message>)
    requires IsBatch(g) && n <= |g[0].calls|
    ensures |r| == n && forall k :: 0 <= k < n ==> r[k] == ResultOf(g, k)
  {
    if n == 0 then [] else Chosen(g, n - 1) + [ResultOf(g, n - 1)]
  }

  lemma {:induction false} OneMessage(m: Message)
    ensures AllCalls([m]) == CallsOf(m)
    ensures ToolMessages([m]) == if m.role == Tool then multiset{m} else multiset{}
  {
    assert [m][1..] == [];
  }

  lemma {:induction false} PairKeeps(g: seq<Message>, k: nat)
    requires IsBatch(g) && k < |g[0].calls|
    ensures AllCalls([Single(g[0], k), ResultOf(g, k)]) == [g[0].calls[k]]
    ensures ToolMessages([Single(g[0], k), ResultOf(g, k)]) == multiset{ResultOf(g, k)}
  {
    hide NamedCalls, NamedResults, Answered, ResultOf;
    var s, r := Single(g[0], k), ResultOf(g, k);
    assert [s, r][1..] == [r] && [r][1..] == [];
    OneMessage(r);
  }

  /** Adding one call and its result to an expanded prefix. */
  lemma {:induction false} ExpandStep(g: seq<Message>, k: nat, front: seq<Message>, chosen: seq<Message>)
    requires IsBatch(g) && k < |g[0].calls|
    requires AllCalls(front) == g[0].calls[..k] && ToolMessages(front) == multiset(chosen)
    ensures AllCalls(front + [Single(g[0], k), ResultOf(g, k)]) == g[0].calls[..k + 1]
    ensures ToolMessages(front + [Single(g[0], k), ResultOf(g, k)]) == multiset(chosen + [ResultOf(g, k)])
  {
    hide NamedCalls, NamedResults, Answered, Single, ResultOf, AllCalls, ToolMessages, IsBatch;
    PairKeeps(g, k);
    AllCallsConcat(front, [Single(g[0], k), ResultOf(g, k)]);
    ToolMessagesConcat(front, [Single(g[0], k), ResultOf(g, k)]);
  }

  lemma {:induction false} ExpandOne(g: seq<Message>, n: nat)
    requires IsBatch(g) && 0 < n <= |g[0].calls|
    ensures Expand(g, n) == Expand(g, n - 1) + [Single(g[0], n - 1), ResultOf(g, n - 1)]
    ensures Chosen(g, n) == Chosen(g, n - 1) + [ResultOf(g, n - 1)]
  {
    hide IsBatch, Single, ResultOf;
  }

  lemma {:induction false} ExpandKeeps(g: seq<Message>, n: nat)
    requires IsBatch(g) && n <= |g[0].calls|
    ensures AllCalls(Expand(g, n)) == g[0].calls[..n]
    ensures ToolMessages(Expand(g, n)) == multiset(Chosen(g, n))
  {
    hide IsBatch, Single, ResultOf, AllCalls, ToolMessages, Expand, Chosen;
    if n == 0 {
      ExpandNone(g);
    } else {
      ExpandOne(g, n);
      ExpandKeeps(g, n - 1);
      ExpandStep(g, n - 1, Expand(g, n - 1), Chosen(g, n - 1));
    }
  }

  lemma {:induction false} ExpandNone(g: seq<Message>)
    requires IsBatch(g)
    ensures AllCalls(Expand(g, 0)) == g[0].calls[..0]
    ensures ToolMessages(Expand(g, 0)) == multiset(Chosen(g, 0))
  {
    hide IsBatch;
  }

  /** The results picked call by call are all the results of the batch. */
  lemma {:induction false} ChosenIsAll(g: seq<Message>)
    requires IsBatch(g)
    ensures multiset(Chosen(g, |g[0].calls|)) == multiset(g[1..])
  {
    hide NamedResults, Answered, ResultOf;
    var n := |g[0].calls|;
    var chosen := Chosen(g, n);
    forall i, j | 0 <= i < j < n ensures chosen[i] != chosen[j] {
      assert chosen[i].callId == g[0].calls[i].id && chosen[j].callId == g[0].calls[j].id;
    }
    SameElements(chosen, g[1..]);
  }

  lemma {:induction false} UnitKeeps(g: seq<Message>)
    requires IsUnit(g)
    ensures AllCalls(WireUnit(g)) == AllCalls(g) && ToolMessages(WireUnit(g)) == ToolMessages(g)
  {
    hide NamedCalls, Answered;
    if !IsPlain(g) {
      ExpandKeeps(g, |g[0].calls|);
      ChosenIsAll(g);
      QuietResults(g[1..]);
      assert g[0].calls[..|g[0].calls|] == g[0].calls;
    }
  }

  /** Rewriting a history call by call loses, adds and reorders no call, and keeps exactly the same tool results. */
  lemma {:induction false} WireKeepsCallsAndResults(groups: seq<seq<Message>>)
    requires Units(groups)
    ensures AllCalls(WireAll(groups)) == AllCalls(Flatten(groups))
    ensures ToolMessages(WireAll(groups)) == ToolMessages(Flatten(groups))
    decreases |groups|
  {
    if groups != [] {
      assert IsUnit(groups[0]);
      UnitKeeps(groups[0]);
      WireKeepsCallsAndResults(groups[1..]);
      AllCallsConcat(groups[0], Flatten(groups[1..]));
      AllCallsConcat(WireUnit(groups[0]), WireAll(groups[1..]));
      ToolMessagesConcat(groups[0], Flatten(groups[1..]));
      ToolMessagesConcat(WireUnit(groups[0]), WireAll(groups[1..]));
    }
  }
}
