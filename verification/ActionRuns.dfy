/** Workers dispatching the actions of one session, with crashes, takeovers, stale workers still in flight,
    lost acknowledgements and lost recipient answers. Only the revision check of a commit is relied on, not the leases. */
module ActionWorld {
  import opened Options
  import opened Actions

  /** `view` is the worker's copy of the action rows, as of the last commit it knows of. */
  datatype Worker = Worker(revision: nat, fence: nat, view: map<Id, Execution>, pc: Pc)

  datatype Sent = Sent(id: Id, number: nat)

  /** `sent` records every external call ever made. */
  datatype World = World(namespace: Id, session: Id, revision: nat, table: map<Id, Execution>,
                         recipient: seq<Row>, sent: seq<Sent>, workers: map<Id, Worker>)

  datatype Link = Answered | AnswerLost | Unsent
  datatype Landing = Landed | LandedCancelled | LandedUnknown | Missed

  datatype Event =
    | Join(w: Id, fence: nat)
    | OtherCommit(w: Id)
    | Intend(w: Id, id: Id, frozen: Frozen)
    | Begin(w: Id, id: Id, attempt: Id)
    | Commit(w: Id, landing: Landing)
    | Continue(w: Id, attempt: Id)
    | Read(w: Id, ok: bool)
    | External(w: Id, link: Link, text: Id, error: bool)
    | Crash(w: Id)

  function Initial(namespace: Id, session: Id): World {
    World(namespace, session, 0, map[], [], [], map[])
  }

  predicate Free(pc: Pc) {
    pc == Idle || pc == At(Stop)
  }

  predicate Unused(t: map<Id, Execution>, id: Id, attempt: Id) {
    id in t && FindAttempt(t[id].rows, attempt).None?
  }

  /** The attempt a worker is to read or call for is in its view. */
  predicate Recorded(w: Worker)
    requires w.pc.At? && (w.pc.next.ReadReceipt? || w.pc.next.Call?)
  {
    w.pc.next.id in w.view && 1 <= w.pc.next.number <= |w.view[w.pc.next.id].rows|
  }

  predicate Enabled(g: World, e: Event) {
    if e.Join? then e.w !in g.workers
    else
      e.w in g.workers &&
      var w := g.workers[e.w];
      match e
      case OtherCommit(_) => w.revision == g.revision
      case Intend(_, id, _) => Free(w.pc) && id !in g.table
      case Begin(_, id, attempt) => Free(w.pc) && Unused(w.view, id, attempt)
      case Commit(_, _) => w.pc.Committing?
      case Continue(_, attempt) =>
        w.pc.At? && (w.pc.next.Proceed? || w.pc.next.AfterVerify?) && Unused(w.view, w.pc.next.id, attempt)
      case Read(_, _) => w.pc.At? && w.pc.next.ReadReceipt? && Recorded(w)
      case External(_, _, _, _) => w.pc.At? && w.pc.next.Call? && Recorded(w)
      case _ => true
  }

  /** The call itself: what it leaves at the recipient, and what comes back. */
  function CallOut(recipient: seq<Row>, e: Execution, link: Link, text: Id, error: bool): (seq<Row>, Option<Text>) {
    if e.frozen.tool != Fixture then (recipient, Some(Raw(text, error)))
    else if link == Unsent then (recipient, None)
    else
      var (table, answer) := Deliver(recipient, e.key, e.payload);
      (table, if link == Answered then answer else None)
  }

  /** A commit lands only for a worker level with the session; otherwise its batch stays staged and it gives up. */
  function Land(g: World, id: Id, landing: Landing): World
    requires id in g.workers && g.workers[id].pc.Committing?
  {
    var w := g.workers[id];
    var gaveUp := g.(workers := g.workers[id := w.(pc := Committing(w.pc.batch, Stop))]);
    if landing == Missed || w.revision != g.revision then gaveUp
    else
      match WriteBatch(g.table, w.pc.batch)
      case None => gaveUp
      case Some(table) =>
        var w' := if landing == LandedUnknown then w.(pc := Committing(w.pc.batch, Stop))
                  else Worker(g.revision + 1, w.fence, table, At(if landing == Landed then w.pc.next else Stop));
        g.(revision := g.revision + 1, table := table, workers := g.workers[id := w'])
  }

  function Apply(g: World, e: Event): World
    requires Enabled(g, e)
  {
    match e
    case Join(w, fence) => g.(workers := g.workers[w := Worker(g.revision, fence, g.table, Idle)])
    case OtherCommit(w) =>
      g.(revision := g.revision + 1, workers := g.workers[w := g.workers[w].(revision := g.revision + 1)])
    case Intend(w, id, frozen) =>
      var intent := Batch(id, Some(Intent(id, frozen, g.namespace, g.session)), []);
      g.(workers := g.workers[w := g.workers[w].(pc := Committing(intent, Proceed(id)))])
    case Begin(w, id, attempt) =>
      var me := g.workers[w];
      g.(workers := g.workers[w := me.(pc := Begun(id, me.view[id], attempt, me.fence))])
    case Commit(w, landing) => Land(g, w, landing)
    case Continue(w, attempt) =>
      var me := g.workers[w];
      var id := me.pc.next.id;
      var pc := if me.pc.next.Proceed? then Decided(id, me.view[id], attempt, me.fence)
                else Guarded(id, me.view[id], attempt, me.fence);
      g.(workers := g.workers[w := me.(pc := pc)])
    case Read(w, ok) =>
      var me := g.workers[w];
      var e := me.view[me.pc.next.id];
      var found := FindRow(g.recipient, e.key);
      var row := if ok && found.Some? then Some(g.recipient[found.value]) else None;
      g.(workers := g.workers[w := me.(pc := Verified(me.pc.next.id, e, me.pc.next.number, row))])
    case External(w, link, text, error) =>
      var me := g.workers[w];
      var id, number := me.pc.next.id, me.pc.next.number;
      var (recipient, output) := CallOut(g.recipient, me.view[id], link, text, error);
      g.(recipient := recipient, sent := g.sent + [Sent(id, number)],
         workers := g.workers[w := me.(pc := Settled(id, me.view[id], number, output))])
    case Crash(w) => g.(workers := g.workers - {w})
  }

  function Step(g: World, e: Event): World {
    if Enabled(g, e) then Apply(g, e) else g
  }

  function After(g: World, trace: seq<Event>): World
    decreases |trace|
  {
    if trace == [] then g else After(Step(g, trace[0]), trace[1..])
  }
}

module ActionInvariants {
  import opened Options
  import opened Actions
  import opened ActionWorld

  // ------------------------------------------------------------ rows

  function Dispatches(rows: seq<Attempt>): nat {
    if rows == [] then 0
    else Dispatches(rows[..|rows| - 1]) + if rows[|rows| - 1].kind == Dispatch then 1 else 0
  }

  /** Attempt numbers are exactly 1..k, and only the newest attempt can still be running. */
  ghost predicate RowsOk(rows: seq<Attempt>) {
    (forall i :: 0 <= i < |rows| ==> rows[i].number == i + 1) &&
    (forall i, j :: 0 <= i < j < |rows| ==> rows[i].id != rows[j].id) &&
    (forall i :: 0 <= i < |rows| - 1 ==> rows[i].status != Running)
  }

  predicate Quiet(rows: seq<Attempt>) {
    rows == [] || rows[|rows| - 1].status != Running
  }

  ghost predicate Holds(recipient: seq<Row>, key: Key, text: Text) {
    exists i :: 0 <= i < |recipient| && recipient[i].key == key && text == Canonical(recipient[i].effect)
  }

  /** A result was recorded by the newest attempt, as a failure exactly if the tool reported an error. */
  predicate ResultRecorded(e: Execution) {
    e.result.Some? ==>
      (e.status == Failed <==> e.result.value.Raw? && e.result.value.error) &&
      e.rows != [] && e.rows[|e.rows| - 1].evidence == e.result &&
      e.rows[|e.rows| - 1].status == if e.status == Failed then Failure else Success
  }

  ghost predicate ExecutionOk(namespace: Id, session: Id, recipient: seq<Row>, id: Id, e: Execution) {
    e.key == Key(namespace, session, id) && e.payload == PayloadOf(e.frozen) &&
    RowsOk(e.rows) && e.attempts == Dispatches(e.rows) <= e.frozen.maxAttempts &&
    (forall i :: 0 <= i < |e.rows| ==> e.rows[i].payload == e.payload) &&
    (Terminal(e.status) <==> e.result.Some?) && (Terminal(e.status) ==> Quiet(e.rows)) &&
    (e.status == Pending ==> e.rows == []) &&
    (e.frozen.mode == Reconcile ==> e.attempts <= 1) &&
    (e.frozen.mode == Idempotent && e.frozen.tool != Fixture ==> e.attempts == 0) && ResultRecorded(e) &&
    (e.frozen.tool == Fixture && e.result.Some? ==> e.status == Succeeded && Holds(recipient, e.key, e.result.value))
  }

  ghost predicate TableOk(namespace: Id, session: Id, recipient: seq<Row>, t: map<Id, Execution>) {
    forall id :: id in t ==> ExecutionOk(namespace, session, recipient, id, t[id])
  }

  // ------------------------------------------------------------ growth

  /** An attempt keeps its identity, and once settled never changes. */
  predicate AttemptGrows(a: Attempt, b: Attempt) {
    a.id == b.id && a.number == b.number && a.kind == b.kind && a.payload == b.payload && a.fence == b.fence &&
    (a.status != Running ==> a == b)
  }

  ghost predicate ExecutionGrows(e: Execution, f: Execution) {
    e.frozen == f.frozen && e.key == f.key && e.payload == f.payload && e.attempts <= f.attempts &&
    |e.rows| <= |f.rows| && (forall i :: 0 <= i < |e.rows| ==> AttemptGrows(e.rows[i], f.rows[i])) &&
    (e.result.Some? ==> f.result == e.result && f.status == e.status)
  }

  ghost predicate TableGrows(t: map<Id, Execution>, u: map<Id, Execution>) {
    forall id :: id in t ==> id in u && ExecutionGrows(t[id], u[id])
  }

  lemma {:induction false} TableGrowsTransitive(t: map<Id, Execution>, u: map<Id, Execution>, v: map<Id, Execution>)
    requires TableGrows(t, u) && TableGrows(u, v)
    ensures TableGrows(t, v)
  {
    forall id | id in t ensures id in v && ExecutionGrows(t[id], v[id]) {
      assert ExecutionGrows(t[id], u[id]) && ExecutionGrows(u[id], v[id]);
    }
  }

  // ------------------------------------------------------------ what a worker is about to do

  ghost predicate NextOk(t: map<Id, Execution>, next: Then) {
    match next
    case Proceed(id) => id in t && !Terminal(t[id].status) && Quiet(t[id].rows)
    case AfterVerify(id) => id in t && !Terminal(t[id].status) && Quiet(t[id].rows)
    case ReadReceipt(id, number) =>
      id in t && number == |t[id].rows| >= 1 && !Terminal(t[id].status) && t[id].status != Pending &&
      t[id].frozen.tool == Fixture && t[id].rows[number - 1].status == Running
    case Call(id, number) =>
      id in t && number == |t[id].rows| >= 1 && !Terminal(t[id].status) && t[id].status != Pending &&
      t[id].rows[number - 1].status == Running && t[id].rows[number - 1].kind == Dispatch
    case Stop => true
  }

  /** A staged batch is accepted by a level database, and leads to a good table and a good next step. */
  ghost predicate BatchOk(g: World, t: map<Id, Execution>, b: Batch, next: Then) {
    WriteBatch(t, b).Some? &&
    var u := WriteBatch(t, b).value;
    TableOk(g.namespace, g.session, g.recipient, u) && TableGrows(t, u) && NextOk(u, next) &&
    (next.Call? ==> next.id in t && next.number == |t[next.id].rows| + 1)
  }

  ghost predicate PcOk(g: World, t: map<Id, Execution>, pc: Pc) {
    match pc
    case Idle => true
    case At(next) => NextOk(t, next)
    case Committing(batch, next) => BatchOk(g, t, batch, next)
  }

  // ------------------------------------------------------------ lists of attempts

  lemma {:induction false} MaxOfRows(rows: seq<Attempt>)
    requires RowsOk(rows)
    ensures MaxNumber(rows) == |rows|
  {
    if rows != [] {
      ShorterRows(rows);
      MaxOfRows(rows[..|rows| - 1]);
    }
  }

  lemma {:induction false} ShorterRows(rows: seq<Attempt>)
    requires RowsOk(rows) && rows != []
    ensures RowsOk(rows[..|rows| - 1]) && Quiet(rows[..|rows| - 1])
  {
    var front := rows[..|rows| - 1];
    forall i, j | 0 <= i < j < |front| ensures front[i].id != front[j].id {
      assert rows[i].id != rows[j].id;
    }
  }

  lemma {:induction false} OrphansOfRows(rows: seq<Attempt>)
    requires RowsOk(rows)
    ensures Orphans(rows) == if Quiet(rows) then [] else [rows[|rows| - 1].(status := Unknown)]
  {
    if rows != [] {
      ShorterRows(rows);
      OrphansOfRows(rows[..|rows| - 1]);
    }
  }

  /** Settling the newest attempt replaces that row and nothing else. */
  lemma {:induction false} SettleRow(rows: seq<Attempt>, a: Attempt)
    requires RowsOk(rows) && !Quiet(rows) && a.status != Running && AttemptGrows(rows[|rows| - 1], a)
    ensures WriteAttempts(rows, [a]) == Some(rows[|rows| - 1 := a])
    ensures RowsOk(rows[|rows| - 1 := a]) && Quiet(rows[|rows| - 1 := a])
    ensures Dispatches(rows[|rows| - 1 := a]) == Dispatches(rows)
  {
    var k := |rows| - 1;
    assert FindAttempt(rows, a.id) == Some(k);
    assert WriteAttempt(rows, a) == Some(rows[k := a]);
    assert [a][1..] == [];
    assert rows[k := a][..k] == rows[..k];
  }

  /** Recording a new attempt appends it. */
  lemma {:induction false} RecordRow(rows: seq<Attempt>, a: Attempt)
    requires RowsOk(rows) && Quiet(rows) && a.number == |rows| + 1 && FindAttempt(rows, a.id).None?
    ensures WriteAttempts(rows, [a]) == Some(rows + [a]) && RowsOk(rows + [a])
    ensures Dispatches(rows + [a]) == Dispatches(rows) + if a.kind == Dispatch then 1 else 0
  {
    hide Dispatches;
    assert NumberFree(rows, a.number);
    assert WriteAttempt(rows, a) == Some(rows + [a]);
    assert [a][1..] == [];
    MoreDispatches(rows, a);
  }

  lemma {:induction false} MoreDispatches(rows: seq<Attempt>, a: Attempt)
    ensures Dispatches(rows + [a]) == Dispatches(rows) + if a.kind == Dispatch then 1 else 0
  {
    assert (rows + [a])[..|rows|] == rows;
  }

  // ------------------------------------------------------------ the dispatch logic, case by case

  lemma {:induction false} BatchMakes(g: World, t: map<Id, Execution>, b: Batch, next: Then, e: Execution)
    requires TableOk(g.namespace, g.session, g.recipient, t) && b.id in t
    requires WriteBatch(t, b) == Some(t[b.id := e])
    requires ExecutionOk(g.namespace, g.session, g.recipient, b.id, e) && ExecutionGrows(t[b.id], e)
    requires NextOk(t[b.id := e], next)
    requires next.Call? ==> next.id == b.id && next.number == |t[b.id].rows| + 1
    ensures BatchOk(g, t, b, next)
  {
    hide ExecutionOk, WriteBatch, NextOk;
    SelfGrows(t, b.id);
  }

  lemma {:induction false} SelfGrows(t: map<Id, Execution>, but: Id)
    ensures forall id :: id in t && id != but ==> ExecutionGrows(t[id], t[id])
  {
  }

  lemma {:induction false} RecordDispatch(g: World, t: map<Id, Execution>, id: Id, a: Attempt)
    requires TableOk(g.namespace, g.session, g.recipient, t) && id in t && !Terminal(t[id].status) && Quiet(t[id].rows)
    requires t[id].attempts < t[id].frozen.maxAttempts && (t[id].frozen.mode == Reconcile ==> t[id].status == Pending)
    requires t[id].frozen.mode == Idempotent ==> t[id].frozen.tool == Fixture
    requires a.number == |t[id].rows| + 1 && a.kind == Dispatch && a.status == Running && a.payload == t[id].payload
    requires FindAttempt(t[id].rows, a.id).None?
    ensures BatchOk(g, t, Batch(id, Some(t[id].(status := Started, attempts := t[id].attempts + 1)), [a]), Call(id, a.number))
  {
    hide TableOk, BatchOk, RowsOk, WriteAttempts;
    var e := t[id];
    assert ExecutionOk(g.namespace, g.session, g.recipient, id, e) by { TableRow(g, t, id); }
    RecordRow(e.rows, a);
    var e' := e.(status := Started, attempts := e.attempts + 1, rows := e.rows + [a]);
    BatchMakes(g, t, Batch(id, Some(e.(status := Started, attempts := e.attempts + 1)), [a]), Call(id, a.number), e');
  }

  lemma {:induction false} TableRow(g: World, t: map<Id, Execution>, id: Id)
    requires TableOk(g.namespace, g.session, g.recipient, t) && id in t
    ensures ExecutionOk(g.namespace, g.session, g.recipient, id, t[id])
  {
  }

  /** Attempts are numbered on from those recorded. */
  lemma {:induction false} OrdinalCounts(g: World, t: map<Id, Execution>, id: Id)
    requires TableOk(g.namespace, g.session, g.recipient, t) && id in t
    ensures Ordinal(t[id]) == |t[id].rows|
  {
    hide TableOk, RowsOk;
    TableRow(g, t, id);
    MaxOfRows(t[id].rows);
  }

  lemma {:induction false} RecordVerify(g: World, t: map<Id, Execution>, id: Id, a: Attempt)
    requires TableOk(g.namespace, g.session, g.recipient, t) && id in t && !Terminal(t[id].status) && Quiet(t[id].rows)
    requires t[id].status != Pending && t[id].frozen.tool == Fixture
    requires a.number == |t[id].rows| + 1 && a.kind == Verify && a.status == Running && a.payload == t[id].payload
    requires FindAttempt(t[id].rows, a.id).None?
    ensures BatchOk(g, t, Batch(id, None, [a]), ReadReceipt(id, a.number))
  {
    hide TableOk, BatchOk, RowsOk, WriteAttempts, FindAttempt;
    var e := t[id];
    TableRow(g, t, id);
    RecordRow(e.rows, a);
    BatchMakes(g, t, Batch(id, None, [a]), ReadReceipt(id, a.number), e.(rows := e.rows + [a]));
  }

  lemma {:induction false} GuardedOk(g: World, t: map<Id, Execution>, id: Id, attempt: Id, fence: nat)
    requires TableOk(g.namespace, g.session, g.recipient, t) && id in t && !Terminal(t[id].status) && Quiet(t[id].rows)
    requires FindAttempt(t[id].rows, attempt).None?
    ensures PcOk(g, t, Guarded(id, t[id], attempt, fence))
  {
    hide TableOk, BatchOk, RowsOk, FindAttempt, MaxNumber, Ordinal;
    var e := t[id];
    TableRow(g, t, id);
    OrdinalCounts(g, t, id);
    if e.status != Pending && !MayRepeat(e.frozen) {
      BatchMakes(g, t, Batch(id, Some(e.(status := Blocked)), []), Stop, e.(status := Blocked));
    } else if e.attempts < e.frozen.maxAttempts && !(e.frozen.mode == Idempotent && e.frozen.tool != Fixture) {
      RecordDispatch(g, t, id, Attempt(attempt, Ordinal(e) + 1, Dispatch, Running, fence, e.payload, None));
    }
  }

  lemma {:induction false} DecidedOk(g: World, t: map<Id, Execution>, id: Id, attempt: Id, fence: nat)
    requires TableOk(g.namespace, g.session, g.recipient, t) && id in t && !Terminal(t[id].status) && Quiet(t[id].rows)
    requires FindAttempt(t[id].rows, attempt).None?
    ensures PcOk(g, t, Decided(id, t[id], attempt, fence))
  {
    hide TableOk, BatchOk, RowsOk, WriteAttempts, Guarded, ExecutionOk, FindAttempt, MaxNumber, Ordinal;
    var e := t[id];
    OrdinalCounts(g, t, id);
    if e.status != Pending && e.frozen.mode == Reconcile && e.frozen.tool == Fixture {
      RecordVerify(g, t, id, Attempt(attempt, Ordinal(e) + 1, Verify, Running, fence, e.payload, None));
    } else {
      GuardedOk(g, t, id, attempt, fence);
    }
  }

  /** Settling the running attempt alone leaves an unfinished action quiet. */
  lemma {:induction false} SettleUnknown(g: World, t: map<Id, Execution>, id: Id)
    requires TableOk(g.namespace, g.session, g.recipient, t) && id in t
    requires !Terminal(t[id].status) && !Quiet(t[id].rows)
    ensures var a := t[id].rows[|t[id].rows| - 1].(status := Unknown);
      BatchOk(g, t, Batch(id, None, [a]), Proceed(id)) && BatchOk(g, t, Batch(id, None, [a]), AfterVerify(id))
  {
    hide TableOk, BatchOk, RowsOk, WriteAttempts;
    var e := t[id];
    TableRow(g, t, id);
    var k := |e.rows| - 1;
    var a := e.rows[k].(status := Unknown);
    SettleRow(e.rows, a);
    BatchMakes(g, t, Batch(id, None, [a]), Proceed(id), e.(rows := e.rows[k := a]));
    BatchMakes(g, t, Batch(id, None, [a]), AfterVerify(id), e.(rows := e.rows[k := a]));
  }

  /** Settling the running attempt together with the action. */
  lemma {:induction false} SettleBoth(g: World, t: map<Id, Execution>, id: Id, a: Attempt, put: Execution)
    requires TableOk(g.namespace, g.session, g.recipient, t) && id in t
    requires !Terminal(t[id].status) && !Quiet(t[id].rows) && t[id].status != Pending
    requires a.status != Running && AttemptGrows(t[id].rows[|t[id].rows| - 1], a)
    requires put == t[id].(status := put.status, result := put.result)
    requires put.status != Pending && (Terminal(put.status) <==> put.result.Some?)
    requires put.frozen.tool == Fixture && put.result.Some? ==>
      put.status == Succeeded && Holds(g.recipient, put.key, put.result.value)
    requires ResultRecorded(put.(rows := [a]))
    ensures BatchOk(g, t, Batch(id, Some(put), [a]), Stop)
  {
    hide TableOk, BatchOk, RowsOk, WriteAttempts, Holds;
    var e := t[id];
    TableRow(g, t, id);
    var k := |e.rows| - 1;
    SettleRow(e.rows, a);
    BatchMakes(g, t, Batch(id, Some(put), [a]), Stop, put.(rows := e.rows[k := a]));
  }

  lemma {:induction false} BegunOk(g: World, t: map<Id, Execution>, id: Id, attempt: Id, fence: nat)
    requires TableOk(g.namespace, g.session, g.recipient, t) && id in t
    requires FindAttempt(t[id].rows, attempt).None?
    ensures PcOk(g, t, Begun(id, t[id], attempt, fence))
  {
    hide TableOk, BatchOk, RowsOk, WriteAttempts, Decided, FindAttempt;
    var e := t[id];
    TableRow(g, t, id);
    OrphansOfRows(e.rows);
    if Terminal(e.status) {
    } else if Quiet(e.rows) {
      DecidedOk(g, t, id, attempt, fence);
    } else {
      SettleUnknown(g, t, id);
    }
  }

  lemma {:induction false} SettledOk(g: World, t: map<Id, Execution>, id: Id, number: nat, output: Option<Text>)
    requires TableOk(g.namespace, g.session, g.recipient, t) && NextOk(t, Call(id, number))
    requires t[id].frozen.tool == Fixture && output.Some? ==> output.value.Canonical? && Holds(g.recipient, t[id].key, output.value)
    ensures PcOk(g, t, Settled(id, t[id], number, output))
  {
    hide TableOk, BatchOk, RowsOk, WriteAttempts, Holds;
    var e := t[id];
    TableRow(g, t, id);
    var a := e.rows[number - 1];
    match output
    case Some(text) =>
      var (status, outcome) := StatusOf(text);
      SettleBoth(g, t, id, a.(status := outcome, evidence := Some(text)), e.(status := status, result := Some(text)));
    case None =>
      SettleBoth(g, t, id, a.(status := Unknown), e.(status := Uncertain));
  }

  lemma {:induction false} VerifiedOk(g: World, t: map<Id, Execution>, id: Id, number: nat, row: Option<Row>)
    requires TableOk(g.namespace, g.session, g.recipient, t) && NextOk(t, ReadReceipt(id, number))
    requires row.Some? ==> row.value in g.recipient && row.value.key == t[id].key
    ensures PcOk(g, t, Verified(id, t[id], number, row))
  {
    hide TableOk, BatchOk, RowsOk, WriteAttempts;
    var e := t[id];
    TableRow(g, t, id);
    var a := e.rows[number - 1];
    if row.Some? && row.value.payload == e.payload {
      var text := Canonical(row.value.effect);
      assert Holds(g.recipient, e.key, text);
      hide Holds;
      SettleBoth(g, t, id, a.(status := Success, evidence := Some(text)),
                 e.(status := Succeeded, result := Some(text)));
    } else {
      SettleUnknown(g, t, id);
    }
  }

  lemma {:induction false} IntendedOk(g: World, t: map<Id, Execution>, id: Id, frozen: Frozen)
    requires TableOk(g.namespace, g.session, g.recipient, t) && id !in t
    ensures BatchOk(g, t, Batch(id, Some(Intent(id, frozen, g.namespace, g.session)), []), Proceed(id))
  {
    SelfGrows(t, id);
  }
}
