/** `dispatch` and `write_tool_executions` in their own imperative form, beside everyone else's steps. */
module Dispatcher {
  import opened Options
  import opened Actions
  import opened ActionWorld
  import opened ActionInvariants
  import opened ActionTheorems

  /** The action tables of one session and the recipient's table, updated in place. */
  class Tables {
    var table: map<Id, Execution>
    var recipient: seq<Row>

    /** The aggregate first, then every pending attempt in turn; any refusal rolls back. */
    method WriteToolExecutions(b: Batch) returns (ok: bool)
      modifies this`table
      ensures ok <==> WriteBatch(old(table), b).Some?
      ensures table == if ok then WriteBatch(old(table), b).value else old(table)
    {
      if b.put.None? && b.attempts == [] { return true; }
      var current := if b.id in table then Some(table[b.id]) else None;
      if b.put.Some? { current := WriteAggregate(current, b.put.value); }
      if current.None? { return false; }
      var rows := current.value.rows;
      var i := 0;
      while i < |b.attempts|
        invariant 0 <= i <= |b.attempts|
        invariant WriteAttempts(rows, b.attempts[i..]) == WriteAttempts(current.value.rows, b.attempts)
      {
        assert b.attempts[i..][1..] == b.attempts[i + 1..];
        var a := b.attempts[i];
        var at := FindAttempt(rows, a.id);
        if at.None? {
          if !NumberFree(rows, a.number) { return false; }
          rows := rows + [a];
        } else {
          var stored := rows[at.value];
          if stored.number != a.number || stored.kind != a.kind || stored.payload != a.payload || stored.fence != a.fence {
            return false;
          }
          if stored.status != Running {
            if stored.status != a.status || stored.evidence != a.evidence { return false; }
          } else {
            rows := rows[at.value := a];
          }
        }
        i := i + 1;
      }
      table := table[b.id := current.value.(rows := rows)];
      return true;
    }

    /** `recipient`: insert on a new key, read the row back, refuse a row with another payload. */
    method Receive(key: Key, payload: Payload) returns (answer: Option<Text>)
      modifies this`recipient
      ensures (recipient, answer) == Deliver(old(recipient), key, payload)
    {
      var at := FindRow(recipient, key);
      if at.None? {
        var row := Row(key, payload, EffectOf(key, payload));
        recipient := recipient + [row];
        return Some(Canonical(row.effect));
      }
      var row := recipient[at.value];
      return if row.payload == payload then Some(Canonical(row.effect)) else None;
    }
  }

  predicate ByOthers(trace: seq<Event>, me: Id) {
    forall i :: 0 <= i < |trace| ==> trace[i].w != me
  }

  lemma {:induction false} OthersKeepMe(g: World, trace: seq<Event>, me: Id)
    requires me in g.workers && ByOthers(trace, me)
    ensures me in After(g, trace).workers && After(g, trace).workers[me] == g.workers[me]
    decreases |trace|
  {
    if trace != [] {
      assert trace[0].w != me;
      OthersKeepMe(Step(g, trace[0]), trace[1..], me);
    }
  }

  lemma {:induction false} AfterConcat(g: World, a: seq<Event>, b: seq<Event>)
    ensures After(g, a + b) == After(After(g, a), b)
    decreases |a|
  {
    if a == [] {
      assert a + b == b;
    } else {
      assert (a + b)[1..] == a[1..] + b;
      AfterConcat(Step(g, a[0]), a[1..], b);
    }
  }

  lemma {:induction false} OneStep(g: World, e: Event)
    ensures After(g, [e]) == Step(g, e)
  {
    assert [e][1..] == [];
  }

  lemma {:induction false} MyStep(g: World, e: Event)
    requires e.w in g.workers && !e.Crash?
    ensures e.w in Step(g, e).workers
  {
  }

  function NewId(rows: seq<Attempt>): (id: Id)
    ensures forall i :: 0 <= i < |rows| ==> rows[i].id < id
  {
    if rows == [] then 0
    else
      var rest := NewId(rows[..|rows| - 1]);
      if rows[|rows| - 1].id >= rest then rows[|rows| - 1].id + 1 else rest
  }

  /** The worker is level with the session. */
  predicate Level(g: World, me: Id) {
    me in g.workers && g.workers[me].revision == g.revision
  }

  /** The action a call is about: the recorded one, or the intent recorded for it. */
  function Target(g: World, id: Id, frozen: Frozen): Execution {
    if id in g.table then g.table[id] else Intent(id, frozen, g.namespace, g.session)
  }

  predicate ToVerify(e: Execution) {
    e.status != Pending && e.frozen.mode == Reconcile && e.frozen.tool == Fixture
  }

  /** The recovery guard lets a dispatch through. */
  predicate ToCall(e: Execution) {
    e.attempts < e.frozen.maxAttempts &&
    match e.frozen.mode
    case ReadOnly | Repeatable => true
    case Idempotent => e.frozen.tool == Fixture
    case Reconcile => e.status == Pending
  }

  /** Dispatched before and not to be repeated: only an operator, or the recipient's row, can settle it. */
  predicate MustBlock(e: Execution) {
    e.status != Pending && (e.frozen.mode == Reconcile || (e.frozen.mode == Idempotent && e.frozen.tool != Fixture))
  }

  /** A call can be answered: its payload is the frozen one, and its result is recorded, or the recipient has it,
      or a dispatch is still allowed. */
  predicate Answerable(recipient: seq<Row>, e: Execution, frozen: Frozen) {
    e.payload == PayloadOf(frozen) &&
    (Terminal(e.status) || if ToVerify(e) then FindRow(recipient, e.key).Some? else ToCall(e))
  }

  /** The same action, whatever attempts are recorded. */
  predicate SameAction(e: Execution, f: Execution) {
    e.(rows := []) == f.(rows := [])
  }

  /** One worker's `dispatch`, step by step; before every step the other workers do whatever they like. In calm,
      nobody else acts, every commit is acknowledged, and the recipient can be read and answers. */
  class Dispatcher {
    const me: Id
    var world: World
    ghost const origin: World
    ghost var history: seq<Event>

    ghost predicate Valid()
      reads this
    {
      Reachable(origin) && world == After(origin, history) && me in world.workers
    }

    function Mine(): Worker
      requires me in world.workers
      reads this
    {
      world.workers[me]
    }

    /** This worker is to do what `Decided` says of its copy of the action. */
    predicate Deciding(id: Id)
      requires me in world.workers
      reads this
    {
      id in Mine().view && Mine().pc == Decided(id, Mine().view[id], NewId(Mine().view[id].rows), Mine().fence)
    }

    /** This worker is past verification and is to do what `Guarded` says. */
    predicate Guarding(id: Id)
      requires me in world.workers
      reads this
    {
      id in Mine().view && Mine().pc == Guarded(id, Mine().view[id], NewId(Mine().view[id].rows), Mine().fence)
    }

    constructor (start: World, me: Id)
      requires Reachable(start) && me in start.workers
      ensures Valid() && world == start && this.me == me
    {
      this.me, world, origin, history := me, start, start, [];
    }

    /** Others act, then this worker takes one step. */
    method Perform(e: Event, calm: bool) returns (ghost others: seq<Event>)
      requires Valid() && e.w == me && !e.Crash?
      modifies this
      ensures Valid() && ByOthers(others, me) && world == Step(After(old(world), others), e)
      ensures me in After(old(world), others).workers && After(old(world), others).workers[me] == old(Mine())
      ensures calm ==> others == [] && world == Step(old(world), e)
    {
      var interference: seq<Event> := *;
      others := interference;
      if calm || exists i | 0 <= i < |interference| :: interference[i].w == me { others, interference := [], []; }
      OthersKeepMe(world, others, me);
      AfterConcat(origin, history, others + [e]);
      AfterConcat(world, others, [e]);
      OneStep(After(world, others), e);
      MyStep(After(world, others), e);
      world := Step(After(world, interference), e);
      history := history + (others + [e]);
    }

    /** Commit the staged batch; true only if this worker learned that it landed. */
    method Checkpoint(calm: bool) returns (ok: bool)
      requires Valid() && Mine().pc.Committing?
      modifies this
      ensures Valid() && Mine().fence == old(Mine().fence)
      ensures ok ==> Mine().pc == At(old(Mine()).pc.next) && Mine().view == world.table &&
                     Some(Mine().view) == WriteBatch(old(Mine()).view, old(Mine()).pc.batch) &&
                     TableGrows(old(Mine().view), Mine().view)
      ensures !ok ==> Mine().pc == Committing(old(Mine()).pc.batch, Stop) || Mine().pc == At(Stop)
      ensures calm && Level(old(world), me) ==> ok && Level(world, me) && world.recipient == old(world.recipient)
      ensures calm ==> world.sent == old(world.sent)
    {
      hide WriteBatch;
      var landing: Landing := *;
      if calm { landing := Landed; }
      ghost var before, was := world, history;
      StagedGrows(before, was, origin, me);
      ghost var others := Perform(Commit(me, landing), calm);
      HistoryReachable(origin, was);
      HistoryReachable(before, others);
      LandedLevel(before, others, me, landing);
      if calm && Level(before, me) { NeverRefused(before, me); }
      ok := landing == Landed && Mine().pc.At?;
    }

    /** `dispatch`: a new call first records its intent. A result is returned only if it is the committed result of the
        action with this payload; in calm, a level worker returns one exactly when the call is answerable, calls out at
        most once and only when a dispatch is allowed, and otherwise leaves an action that must not be repeated blocked. */
    method Dispatch(id: Id, frozen: Frozen, calm: bool) returns (result: Option<Text>)
      requires Valid() && Free(Mine().pc)
      modifies this
      ensures Valid()
      ensures result.Some? ==> id in world.table && world.table[id].result == result &&
                               world.table[id].payload == PayloadOf(frozen)
      ensures calm && Level(old(world), me) ==>
        (result.Some? <==> Answerable(old(world).recipient, Target(old(world), id, frozen), frozen))
      ensures calm && Level(old(world), me) ==>
        var e := Target(old(world), id, frozen);
        if e.payload == PayloadOf(frozen) && !Terminal(e.status) && ToCall(e)
        then |world.sent| == |old(world).sent| + 1 && old(world).sent <= world.sent && world.sent[|old(world).sent|].id == id
        else world.sent == old(world).sent
      ensures calm && Level(old(world), me) ==>
        var e := Target(old(world), id, frozen);
        e.payload == PayloadOf(frozen) && !Terminal(e.status) && MustBlock(e) && result.None? ==>
          id in world.table && world.table[id].status == Blocked
    {
      hide Decided, Guarded, TableGrows, Reachable, WriteBatch;
      HistoryReachable(origin, history);
      ViewBelowTable(world, me, id);
      if id in Mine().view {
        var e := Mine().view[id];
        if e.payload != PayloadOf(frozen) { return None; }
        if Terminal(e.status) { return e.result; }
      }
      var prepared := Prepare(id, frozen, calm);
      if !prepared { return None; }
      ghost var e := Mine().view[id];
      DecidedWhat(id, e, NewId(e.rows), Mine().fence);
      // a reconcile action asks the recipient what became of its original attempt
      if Mine().pc.Committing? && Mine().pc.next.ReadReceipt? {
        var goOn;
        result, goOn := AskRecipient(id, calm);
        if !goOn { return; }
      }
      GuardedWhat(id, Mine().view[id], NewId(Mine().view[id].rows), Mine().fence);
      if !Mine().pc.Committing? { return None; }
      if !Mine().pc.next.Call? {
        ghost var t, b := Mine().view, Mine().pc.batch;
        var blocked := Checkpoint(calm);
        if blocked && MustBlock(t[id]) { WrittenAction(t, b, Mine().view); }
        return None;
      }
      result := CallRecipient(id, calm);
    }

    /** Record the intent of a new call; settle as unknown the attempts a former owner left running. */
    method Prepare(id: Id, frozen: Frozen, calm: bool) returns (ok: bool)
      requires Valid() && Free(Mine().pc)
      requires id in Mine().view ==> !Terminal(Mine().view[id].status) && Mine().view[id].payload == PayloadOf(frozen)
      modifies this
      ensures Valid()
      ensures ok ==> Deciding(id) && Mine().view[id].payload == PayloadOf(frozen) && !Terminal(Mine().view[id].status)
      ensures calm && Level(old(world), me) ==>
        ok && Level(world, me) && world.recipient == old(world).recipient &&
        SameAction(Mine().view[id], Target(old(world), id, frozen))
      ensures calm ==> world.sent == old(world).sent
    {
      hide Decided, TableGrows, WriteBatch, FindAttempt, Reachable;
      HistoryReachable(origin, history);
      ViewBelowTable(world, me, id);
      if id in Mine().view {
        var e := Mine().view[id];
        var _ := Perform(Begin(me, id, NewId(e.rows)), calm);
        if Orphans(e.rows) == [] { return true; }
        ghost var t, b := Mine().view, Mine().pc.batch;
        ok := Checkpoint(calm);
        if ok { WrittenAction(t, b, Mine().view); }
      } else {
        var _ := Perform(Intend(me, id, frozen), calm);
        if !Mine().pc.Committing? { return false; }
        ghost var t, b := Mine().view, Mine().pc.batch;
        ok := Checkpoint(calm);
        if ok { WrittenAction(t, b, Mine().view); }
      }
      if ok { Decide(calm); }
    }

    /** Record a verification attempt, read the recipient, and record what it shows. */
    method AskRecipient(id: Id, calm: bool) returns (result: Option<Text>, goOn: bool)
      requires Valid() && Deciding(id) && ToVerify(Mine().view[id])
      modifies this
      ensures Valid()
      ensures result.Some? ==> !goOn && id in world.table && world.table[id].result == result &&
                               world.table[id].payload == old(Mine().view[id].payload)
      ensures goOn ==> Guarding(id) && SameAction(Mine().view[id], old(Mine().view[id]))
      ensures calm && Level(old(world), me) ==>
        if FindRow(old(world).recipient, old(Mine().view[id].key)).Some? then result.Some? else goOn && Level(world, me)
      ensures calm ==> world.sent == old(world).sent
    {
      hide WriteBatch, TableGrows, Guarded, FindAttempt, Deliver, FindRow, Reachable;
      ghost var t, b := Mine().view, Mine().pc.batch;
      var recorded := Checkpoint(calm);
      if !recorded { return None, false; }
      WrittenAction(t, b, Mine().view);
      HistoryReachable(origin, history);
      ReadSettles(world, me);
      var readable: bool := *;
      if calm { readable := true; }
      var _ := Perform(Read(me, readable), calm);
      if !Mine().pc.Committing? { return None, false; }
      var next := Mine().pc.next;
      t, b := Mine().view, Mine().pc.batch;
      var verified := Checkpoint(calm);
      if !verified { return None, false; }
      WrittenAction(t, b, Mine().view);
      if next == Stop { return ResultOf(id), false; }
      Decide(calm);
      return None, true;
    }

    /** The attempt is committed before the external call, its outcome after it. */
    method CallRecipient(id: Id, calm: bool) returns (result: Option<Text>)
      requires Valid() && Mine().pc.Committing? && Mine().pc.next.Call? && Mine().pc.next.id == id && id in Mine().view
      modifies this
      ensures Valid()
      ensures result.Some? ==> id in world.table && world.table[id].result == result &&
                               world.table[id].payload == old(Mine().view[id].payload)
      ensures calm && Level(old(world), me) ==>
        result.Some? && world.sent == old(world).sent + [Sent(id, old(Mine().pc.next.number))]
    {
      hide WriteBatch, FindAttempt, FindRow, Reachable, TableGrows, Deliver;
      ghost var first := Mine().view;
      var started := Checkpoint(calm);
      if !started { return None; }
      PayloadStays(first, Mine().view, id);
      HistoryReachable(origin, history);
      NeverRefused(world, me);
      var link: Link, text: Id, error: bool := *, *, *;
      if calm { link := Answered; }
      var _ := Perform(External(me, link, text, error), calm);
      if !Mine().pc.Committing? { return None; }
      ghost var t, b := Mine().view, Mine().pc.batch;
      var outcome := Checkpoint(calm);
      if !outcome { return None; }
      WrittenAction(t, b, Mine().view);
      PayloadStays(t, Mine().view, id);
      return ResultOf(id);
    }

    function ResultOf(id: Id): (r: Option<Text>)
      requires me in world.workers
      reads this
      ensures r.Some? ==> id in Mine().view && r == Mine().view[id].result
    {
      if id in Mine().view then Mine().view[id].result else None
    }

    /** Continue after a checkpoint that settled or verified an earlier attempt. */
    method Decide(calm: bool)
      requires Valid() && Mine().pc.At? && (Mine().pc.next.Proceed? || Mine().pc.next.AfterVerify?)
      requires Mine().pc.next.id in Mine().view
      modifies this
      ensures Valid() && Mine().view == old(Mine().view) && Mine().fence == old(Mine().fence)
      ensures old(Mine().pc.next.Proceed?) ==> Deciding(old(Mine().pc.next.id))
      ensures old(Mine().pc.next.AfterVerify?) ==> Guarding(old(Mine().pc.next.id))
      ensures calm && Level(old(world), me) ==> Level(world, me) && world.recipient == old(world).recipient
      ensures calm ==> world.sent == old(world).sent
    {
      hide Decided, Guarded;
      var next := Mine().pc.next;
      var _ := Perform(Continue(me, NewId(Mine().view[next.id].rows)), calm);
    }
  }

  /** What `Decided` makes of an action. */
  lemma {:induction false} DecidedWhat(id: Id, e: Execution, attempt: Id, fence: nat)
    ensures ToVerify(e) <==> (var pc := Decided(id, e, attempt, fence); pc.Committing? && pc.next.ReadReceipt?)
    ensures !ToVerify(e) ==> Decided(id, e, attempt, fence) == Guarded(id, e, attempt, fence)
  {
  }

  /** What `Guarded` makes of an action. */
  lemma {:induction false} GuardedWhat(id: Id, e: Execution, attempt: Id, fence: nat)
    ensures var pc := Guarded(id, e, attempt, fence);
      (ToCall(e) <==> pc.Committing? && pc.next.Call?) && (pc.Committing? && pc.next.Call? ==> pc.next.id == id) &&
      (MustBlock(e) ==> pc == Committing(Batch(id, Some(e.(status := Blocked)), []), Stop))
  {
  }

  /** What a batch leaves of its action, whatever attempts it records. */
  lemma {:induction false} WrittenAction(t: map<Id, Execution>, b: Batch, u: map<Id, Execution>)
    requires WriteBatch(t, b) == Some(u) && (b.put.Some? || b.attempts != [])
    ensures b.id in u && (b.put.None? ==> b.id in t)
    ensures SameAction(u[b.id], if b.put.Some? then b.put.value else t[b.id])
  {
    hide WriteAttempts;
  }

  lemma {:induction false} PayloadStays(t: map<Id, Execution>, u: map<Id, Execution>, id: Id)
    requires TableGrows(t, u) && id in t
    ensures id in u && u[id].payload == t[id].payload
  {
  }

  /** A verification attempt can be read for, and a recipient row under the action's key has the frozen payload. */
  lemma {:induction false} ReadSettles(g: World, me: Id)
    requires Reachable(g) && me in g.workers && g.workers[me].pc.At? && g.workers[me].pc.next.ReadReceipt?
    ensures Recorded(g.workers[me])
    ensures var e := g.workers[me].view[g.workers[me].pc.next.id];
      forall row :: row in g.recipient && row.key == e.key ==> row.payload == e.payload
  {
    hide SentOk, CallersOk, Reachable, RowsOk, Holds;
    ReachableOk(g);
    var w := g.workers[me];
    var id := w.pc.next.id;
    assert WorkerOk(g, w);
    assert ExecutionOk(g.namespace, g.session, g.recipient, id, w.view[id]);
    assert ExecutionGrows(w.view[id], g.table[id]);
  }

  lemma {:induction false} StagedGrows(g: World, history: seq<Event>, origin: World, me: Id)
    requires Reachable(origin) && g == After(origin, history) && me in g.workers && g.workers[me].pc.Committing?
    ensures WriteBatch(g.workers[me].view, g.workers[me].pc.batch).Some? &&
            TableGrows(g.workers[me].view, WriteBatch(g.workers[me].view, g.workers[me].pc.batch).value)
  {
    hide WriteBatch, TableGrows, TableOk, RecipientOk, SentOk, CallersOk, NextOk, Reachable;
    HistoryReachable(origin, history);
    ReachableOk(g);
    assert WorkerOk(g, g.workers[me]);
  }

  lemma {:induction false} HistoryReachable(origin: World, history: seq<Event>)
    requires Reachable(origin)
    ensures Reachable(After(origin, history))
  {
    var namespace, session, trace :| origin == After(Initial(namespace, session), trace);
    AfterConcat(Initial(namespace, session), trace, history);
  }

  /** What a worker knows of an action is still so, and a level worker knows everything. */
  lemma {:induction false} ViewBelowTable(g: World, me: Id, id: Id)
    requires Reachable(g) && me in g.workers
    ensures id in g.workers[me].view ==>
      id in g.table && ExecutionGrows(g.workers[me].view[id], g.table[id]) &&
      (Terminal(g.workers[me].view[id].status) <==> g.workers[me].view[id].result.Some?)
    ensures Level(g, me) ==> g.workers[me].view == g.table
  {
    hide RecipientOk, SentOk, CallersOk, PcOk, Reachable, RowsOk, Holds;
    ReachableOk(g);
    var w := g.workers[me];
    assert WorkerOk(g, w);
    if id in w.view {
      assert ExecutionOk(g.namespace, g.session, g.recipient, id, w.view[id]);
      assert ExecutionGrows(w.view[id], g.table[id]);
    }
  }

  lemma {:induction false} LevelIsTable(g: World, w: Worker)
    requires WorkerOk(g, w)
    ensures w.revision == g.revision ==> w.view == g.table
  {
  }

  lemma {:induction false} LandedLevel(before: World, others: seq<Event>, me: Id, landing: Landing)
    requires me in before.workers && before.workers[me].pc.Committing? && ByOthers(others, me)
    requires Reachable(After(before, others))
    ensures var g := After(before, others); var h := Step(g, Commit(me, landing));
      me in h.workers &&
      (h.workers[me].pc.At? ==>
        h.workers[me].view == h.table && Some(h.table) == WriteBatch(before.workers[me].view, before.workers[me].pc.batch) &&
        h.workers[me].pc == At(if landing == Landed then before.workers[me].pc.next else Stop)) &&
      (!h.workers[me].pc.At? ==> h.workers[me].pc == Committing(before.workers[me].pc.batch, Stop))
  {
    hide TableOk, TableGrows, RecipientOk, SentOk, CallersOk, WriteBatch, Reachable;
    var g := After(before, others);
    OthersKeepMe(before, others, me);
    ReachableOk(g);
    assert WorkerOk(g, g.workers[me]);
    LevelIsTable(g, g.workers[me]);
  }
}
