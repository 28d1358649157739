/** Safety of every run of the dispatch protocol: one effect per action, a sound attempt ledger, safe recovery. */
module ActionTheorems {
  import opened Options
  import opened Actions
  import opened ActionWorld
  import opened ActionInvariants

  /** Every row belongs to a recorded action, carries its frozen payload, and no key has two rows. */
  ghost predicate RecipientOk(g: World) {
    (forall i :: 0 <= i < |g.recipient| ==>
      var r := g.recipient[i];
      r.key == Key(g.namespace, g.session, r.key.execution) && r.key.execution in g.table &&
      r.payload == g.table[r.key.execution].payload && r.effect == EffectOf(r.key, r.payload)) &&
    (forall i, j :: 0 <= i < j < |g.recipient| ==> g.recipient[i].key != g.recipient[j].key)
  }

  /** Every external call was made for its own committed dispatch attempt. */
  ghost predicate SentOk(t: map<Id, Execution>, sent: seq<Sent>) {
    (forall i :: 0 <= i < |sent| ==>
      sent[i].id in t && 1 <= sent[i].number <= |t[sent[i].id].rows| &&
      t[sent[i].id].rows[sent[i].number - 1].kind == Dispatch) &&
    (forall i, j :: 0 <= i < j < |sent| ==> sent[i] != sent[j])
  }

  predicate Calling(w: Worker) {
    w.pc.At? && w.pc.next.Call?
  }

  function CallOf(w: Worker): Sent
    requires Calling(w)
  {
    Sent(w.pc.next.id, w.pc.next.number)
  }

  /** No two workers are about to make the same call, and none is about to repeat one already made. */
  ghost predicate CallersOk(g: World) {
    (forall w :: w in g.workers && Calling(g.workers[w]) ==> CallOf(g.workers[w]) !in g.sent) &&
    (forall v, w :: v in g.workers && w in g.workers && v != w && Calling(g.workers[v]) && Calling(g.workers[w]) ==>
      CallOf(g.workers[v]) != CallOf(g.workers[w]))
  }

  ghost predicate WorkerOk(g: World, w: Worker) {
    w.revision <= g.revision && TableOk(g.namespace, g.session, g.recipient, w.view) &&
    TableGrows(w.view, g.table) && (w.revision == g.revision ==> w.view == g.table) && PcOk(g, w.view, w.pc)
  }

  ghost predicate WorkersOk(g: World) {
    forall w :: w in g.workers ==> WorkerOk(g, g.workers[w])
  }

  ghost predicate WorldOk(g: World) {
    TableOk(g.namespace, g.session, g.recipient, g.table) && RecipientOk(g) && SentOk(g.table, g.sent) &&
    WorkersOk(g) && CallersOk(g)
  }

  ghost predicate Grows(g: World, h: World) {
    g.namespace == h.namespace && g.session == h.session && g.revision <= h.revision &&
    TableGrows(g.table, h.table) && g.recipient <= h.recipient && g.sent <= h.sent
  }

  // ------------------------------------------------------------ stability

  lemma {:induction false} HoldsStable(r: seq<Row>, r': seq<Row>, key: Key, text: Text)
    requires r <= r' && Holds(r, key, text)
    ensures Holds(r', key, text)
  {
    var i :| 0 <= i < |r| && r[i].key == key && text == Canonical(r[i].effect);
    assert r'[i] == r[i];
  }

  lemma {:induction false} TableStable(g: World, h: World, t: map<Id, Execution>)
    requires Grows(g, h) && TableOk(g.namespace, g.session, g.recipient, t)
    ensures TableOk(h.namespace, h.session, h.recipient, t)
  {
    hide RowsOk, Holds, TableGrows;
    forall id | id in t ensures ExecutionOk(h.namespace, h.session, h.recipient, id, t[id]) {
      var e := t[id];
      assert ExecutionOk(g.namespace, g.session, g.recipient, id, e);
      if e.frozen.tool == Fixture && e.result.Some? { HoldsStable(g.recipient, h.recipient, e.key, e.result.value); }
    }
  }

  lemma {:induction false} PcStable(g: World, h: World, t: map<Id, Execution>, pc: Pc)
    requires Grows(g, h) && PcOk(g, t, pc)
    ensures PcOk(h, t, pc)
  {
    hide TableOk, TableGrows, NextOk, WriteBatch;
    if pc.Committing? { TableStable(g, h, WriteBatch(t, pc.batch).value); }
  }

  /** A worker that did nothing is still well formed, however the world moved on. */
  lemma {:induction false} WorkerStable(g: World, h: World, w: Worker)
    requires Grows(g, h) && WorkerOk(g, w)
    requires w.revision == h.revision ==> w.view == h.table
    ensures WorkerOk(h, w)
  {
    hide TableOk, PcOk, TableGrows;
    TableStable(g, h, w.view);
    PcStable(g, h, w.view, w.pc);
    TableGrowsTransitive(w.view, g.table, h.table);
  }

  lemma {:induction false} SelfGrowsAll(t: map<Id, Execution>)
    ensures TableGrows(t, t)
  {
  }

  lemma {:induction false} GrowsReflexive(g: World)
    ensures Grows(g, g)
  {
  }

  lemma {:induction false} GrowsTransitive(g: World, h: World, k: World)
    requires Grows(g, h) && Grows(h, k)
    ensures Grows(g, k)
  {
    hide TableGrows;
    TableGrowsTransitive(g.table, h.table, k.table);
  }

  lemma {:induction false} SentStable(t: map<Id, Execution>, u: map<Id, Execution>, sent: seq<Sent>)
    requires SentOk(t, sent) && TableGrows(t, u)
    ensures SentOk(u, sent)
  {
    forall i | 0 <= i < |sent|
      ensures sent[i].id in u && 1 <= sent[i].number <= |u[sent[i].id].rows| &&
              u[sent[i].id].rows[sent[i].number - 1].kind == Dispatch
    {
      assert ExecutionGrows(t[sent[i].id], u[sent[i].id]);
      assert AttemptGrows(t[sent[i].id].rows[sent[i].number - 1], u[sent[i].id].rows[sent[i].number - 1]);
    }
  }

  lemma {:induction false} RecipientStable(g: World, h: World)
    requires RecipientOk(g) && h.recipient == g.recipient && h.namespace == g.namespace && h.session == g.session
    requires TableGrows(g.table, h.table)
    ensures RecipientOk(h)
  {
    forall i | 0 <= i < |h.recipient|
      ensures h.recipient[i].key.execution in h.table &&
              h.recipient[i].payload == h.table[h.recipient[i].key.execution].payload
    {
      var id := g.recipient[i].key.execution;
      assert ExecutionGrows(g.table[id], h.table[id]);
    }
  }

  // ------------------------------------------------------------ steps that only change one worker

  /** Replacing (or adding) one worker that is not about to call keeps every invariant. */
  lemma {:induction false} OneWorker(g: World, h: World, id: Id, w: Worker)
    requires WorldOk(g) && h == g.(workers := g.workers[id := w])
    requires !Calling(w)
    requires WorkerOk(g, w)
    ensures WorldOk(h) && Grows(g, h)
  {
    hide TableOk, PcOk, TableGrows, SentOk, RecipientOk;
    SelfGrowsAll(g.table);
    RecipientStable(g, h);
    forall v | v in h.workers ensures WorkerOk(h, h.workers[v]) {
      if v != id { assert WorkerOk(g, g.workers[v]); }
      WorkerStable(g, h, h.workers[v]);
    }
  }

  lemma {:induction false} CrashStep(g: World, id: Id)
    requires WorldOk(g)
    ensures WorldOk(g.(workers := g.workers - {id})) && Grows(g, g.(workers := g.workers - {id}))
  {
    hide TableOk, PcOk, TableGrows, SentOk, RecipientOk;
    var h := g.(workers := g.workers - {id});
    SelfGrowsAll(g.table);
    RecipientStable(g, h);
    forall v | v in h.workers ensures WorkerOk(h, h.workers[v]) {
      WorkerStable(g, h, g.workers[v]);
    }
  }

  /** The dispatch logic between two checkpoints. */
  lemma {:induction false} LogicStep(g: World, e: Event)
    requires WorldOk(g) && Enabled(g, e) && (e.Join? || e.Intend? || e.Begin? || e.Continue? || e.Read?)
    ensures WorldOk(Apply(g, e)) && Grows(g, Apply(g, e))
  {
    hide TableOk, TableGrows, SentOk, RecipientOk, CallersOk, BatchOk, WorldOk, FindAttempt,
      Begun, Decided, Guarded, Verified, ExecutionOk;
    var h := Apply(g, e);
    assert TableOk(g.namespace, g.session, g.recipient, g.table) && WorkersOk(g) by { Parts(g); }
    SelfGrowsAll(g.table);
    match e
    case Join(w, fence) =>
      OneWorker(g, h, w, h.workers[w]);
    case Intend(w, id, frozen) =>
      ViewSmaller(g, g.workers[w], id);
      IntendedOk(g, g.workers[w].view, id, frozen);
      OneWorker(g, h, w, h.workers[w]);
    case Begin(w, id, attempt) =>
      BegunOk(g, g.workers[w].view, id, attempt, g.workers[w].fence);
      assert !Calling(h.workers[w]) by { BegunNotCalling(id, g.workers[w].view[id], attempt, g.workers[w].fence); }
      OneWorker(g, h, w, h.workers[w]);
    case Continue(w, attempt) =>
      var id, view := g.workers[w].pc.next.id, g.workers[w].view;
      DecidedOk(g, view, id, attempt, g.workers[w].fence);
      GuardedOk(g, view, id, attempt, g.workers[w].fence);
      BegunNotCalling(id, view[id], attempt, g.workers[w].fence);
      OneWorker(g, h, w, h.workers[w]);
    case Read(w, ok) =>
      var next, view := g.workers[w].pc.next, g.workers[w].view;
      var found := FindRow(g.recipient, view[next.id].key);
      var row := if ok && found.Some? then Some(g.recipient[found.value]) else None;
      VerifiedOk(g, view, next.id, next.number, row);
      assert !Calling(h.workers[w]) by { VerifiedNotCalling(next.id, view[next.id], next.number, row); }
      OneWorker(g, h, w, h.workers[w]);
  }

  lemma {:induction false} Parts(g: World)
    requires WorldOk(g)
    ensures TableOk(g.namespace, g.session, g.recipient, g.table) && RecipientOk(g) && SentOk(g.table, g.sent)
    ensures WorkersOk(g) && CallersOk(g)
  {
  }

  lemma {:induction false} ViewSmaller(g: World, w: Worker, id: Id)
    requires WorkerOk(g, w) && id !in g.table
    ensures id !in w.view
  {
  }

  lemma {:induction false} BegunNotCalling(id: Id, e: Execution, attempt: Id, fence: nat)
    ensures var pc := Begun(id, e, attempt, fence); !(pc.At? && pc.next.Call?)
    ensures var pc := Decided(id, e, attempt, fence); !(pc.At? && pc.next.Call?)
    ensures var pc := Guarded(id, e, attempt, fence); !(pc.At? && pc.next.Call?)
  {
  }

  lemma {:induction false} VerifiedNotCalling(id: Id, e: Execution, number: nat, row: Option<Row>)
    requires 1 <= number <= |e.rows|
    ensures Verified(id, e, number, row).Committing?
  {
  }

  // ------------------------------------------------------------ commits

  lemma {:induction false} OtherCommitStep(g: World, w: Id)
    requires WorldOk(g) && Enabled(g, OtherCommit(w))
    ensures WorldOk(Apply(g, OtherCommit(w))) && Grows(g, Apply(g, OtherCommit(w)))
  {
    hide TableOk, PcOk, TableGrows, SentOk, RecipientOk;
    var h := Apply(g, OtherCommit(w));
    SelfGrowsAll(g.table);
    RecipientStable(g, h);
    forall v | v in h.workers ensures WorkerOk(h, h.workers[v]) {
      var was := g.workers[v];
      assert WorkerOk(g, was);
      PcStable(g, h, was.view, was.pc);
      TableStable(g, h, was.view);
    }
  }

  lemma {:induction false} GiveUpOk(g: World, w: Worker)
    requires WorkerOk(g, w) && w.pc.Committing?
    ensures WorkerOk(g, w.(pc := Committing(w.pc.batch, Stop)))
  {
    hide TableOk, TableGrows, WriteBatch, NextOk;
    StopOk(WriteBatch(w.view, w.pc.batch).value);
  }

  lemma {:induction false} StopOk(t: map<Id, Execution>)
    ensures NextOk(t, Stop)
  {
  }

  /** The number of a newly recorded dispatch attempt is beyond every call made or about to be made. */
  lemma {:induction false} NewCallIsNew(g: World, id: Id, number: nat)
    requires SentOk(g.table, g.sent) && WorkersOk(g)
    requires id in g.table && number == |g.table[id].rows| + 1
    ensures Sent(id, number) !in g.sent
    ensures forall v :: v in g.workers && Calling(g.workers[v]) ==> CallOf(g.workers[v]) != Sent(id, number)
  {
    hide TableOk;
    forall v | v in g.workers && Calling(g.workers[v]) ensures CallOf(g.workers[v]) != Sent(id, number) {
      var w := g.workers[v];
      assert WorkerOk(g, w) && NextOk(w.view, w.pc.next);
      if w.pc.next.id == id { assert ExecutionGrows(w.view[id], g.table[id]); }
    }
  }

  lemma {:induction false} LandStep(g: World, id: Id, landing: Landing)
    requires WorldOk(g) && Enabled(g, Commit(id, landing))
    ensures WorldOk(Land(g, id, landing)) && Grows(g, Land(g, id, landing))
  {
    hide TableOk, TableGrows, SentOk, RecipientOk, WriteBatch, NextOk, CallersOk, WorkerOk;
    var w := g.workers[id];
    var h := Land(g, id, landing);
    assert WorkerOk(g, w);
    GiveUpOk(g, w);
    if landing == Missed || w.revision != g.revision {
      OneWorker(g, h, id, h.workers[id]);
    } else {
      LevelView(g, w);
      var u := WriteBatch(g.table, w.pc.batch).value;
      RecipientStable(g, h);
      SentStable(g.table, u, g.sent);
      LandedWorkers(g, id, landing, u);
      LandedCallers(g, id, landing, u);
    }
  }

  lemma {:induction false} LevelView(g: World, w: Worker)
    requires WorkerOk(g, w) && w.revision == g.revision && w.pc.Committing?
    ensures w.view == g.table && BatchOk(g, g.table, w.pc.batch, w.pc.next)
  {
  }

  lemma {:induction false} LandedWorkers(g: World, id: Id, landing: Landing, u: map<Id, Execution>)
    requires WorldOk(g) && Enabled(g, Commit(id, landing)) && landing != Missed
    requires g.workers[id].revision == g.revision && WriteBatch(g.table, g.workers[id].pc.batch) == Some(u)
    ensures WorkersOk(Land(g, id, landing))
  {
    hide TableOk, TableGrows, SentOk, RecipientOk, WriteBatch, NextOk, CallersOk;
    var w, h := g.workers[id], Land(g, id, landing);
    assert WorkerOk(g, w);
    GiveUpOk(g, w);
    SelfGrowsAll(u);
    forall v | v in h.workers ensures WorkerOk(h, h.workers[v]) {
      if v != id || landing == LandedUnknown {
        var was := if v == id then h.workers[id] else g.workers[v];
        assert WorkerOk(g, was);
        WorkerStable(g, h, was);
      } else {
        StopOk(u);
      }
    }
  }

  lemma {:induction false} LandedCallers(g: World, id: Id, landing: Landing, u: map<Id, Execution>)
    requires WorldOk(g) && Enabled(g, Commit(id, landing)) && landing != Missed
    requires g.workers[id].revision == g.revision && WriteBatch(g.table, g.workers[id].pc.batch) == Some(u)
    ensures CallersOk(Land(g, id, landing))
  {
    hide TableOk, TableGrows, RecipientOk, WriteBatch, NextOk, SentOk;
    var w, h := g.workers[id], Land(g, id, landing);
    assert WorkerOk(g, w);
    if Calling(h.workers[id]) { NewCallIsNew(g, w.pc.next.id, w.pc.next.number); }
  }

  // ------------------------------------------------------------ the external call

  lemma {:induction false} DeliverOk(g: World, id: Id)
    requires RecipientOk(g) && id in g.table && g.table[id].key == Key(g.namespace, g.session, id)
    ensures var (r, answer) := Deliver(g.recipient, g.table[id].key, g.table[id].payload);
      RecipientOk(g.(recipient := r)) && g.recipient <= r &&
      answer.Some? && answer.value == Canonical(EffectOf(g.table[id].key, g.table[id].payload)) &&
      Holds(r, g.table[id].key, answer.value)
  {
    var (r, answer) := Deliver(g.recipient, g.table[id].key, g.table[id].payload);
    assert r[if FindRow(g.recipient, g.table[id].key).Some? then FindRow(g.recipient, g.table[id].key).value else |g.recipient|].key
      == g.table[id].key;
  }

  lemma {:induction false} ExternalStep(g: World, id: Id, link: Link, text: Id, error: bool)
    requires WorldOk(g) && Enabled(g, External(id, link, text, error))
    ensures WorldOk(Apply(g, External(id, link, text, error))) && Grows(g, Apply(g, External(id, link, text, error)))
  {
    hide TableOk, TableGrows, PcOk, RecipientOk, SentOk, CallersOk, NextOk, Settled, CallOut, WorkerOk;
    var h := Apply(g, External(id, link, text, error));
    var w := g.workers[id];
    assert WorkerOk(g, w);
    SelfGrowsAll(g.table);
    CallOutOk(g, w, link, text, error);
    RecipientStable(g.(recipient := h.recipient), h);
    SettledNotCalling(w.pc.next.id, w.view[w.pc.next.id], w.pc.next.number,
                      CallOut(g.recipient, w.view[w.pc.next.id], link, text, error).1);
    NotYetCalled(g, id);
    TableStable(g, h, g.table);
    SentExtends(g, w);
    SentCallers(g, h, id);
    forall v | v in h.workers ensures WorkerOk(h, h.workers[v]) {
      if v != id {
        assert WorkerOk(g, g.workers[v]);
        LevelStays(g, h, g.workers[v]);
      } else {
        SettledWorker(g, h, w, link, text, error);
      }
    }
  }

  lemma {:induction false} SettledNotCalling(id: Id, e: Execution, number: nat, output: Option<Text>)
    requires 1 <= number <= |e.rows|
    ensures Settled(id, e, number, output).Committing?
  {
  }

  lemma {:induction false} NotYetCalled(g: World, id: Id)
    requires CallersOk(g) && id in g.workers && Calling(g.workers[id])
    ensures CallOf(g.workers[id]) !in g.sent
  {
  }

  lemma {:induction false} LevelStays(g: World, h: World, w: Worker)
    requires Grows(g, h) && WorkerOk(g, w) && h.revision == g.revision && h.table == g.table
    ensures WorkerOk(h, w)
  {
    hide TableOk, TableGrows, PcOk;
    WorkerStable(g, h, w);
  }

  /** A caller's view of its action agrees with the table on everything the call uses. */
  lemma {:induction false} CallerView(g: World, w: Worker)
    requires WorkerOk(g, w) && Calling(w)
    requires TableOk(g.namespace, g.session, g.recipient, g.table)
    ensures var id, n := w.pc.next.id, w.pc.next.number;
      id in w.view && id in g.table && w.view[id].key == g.table[id].key == Key(g.namespace, g.session, id) &&
      w.view[id].payload == g.table[id].payload && w.view[id].frozen == g.table[id].frozen &&
      1 <= n <= |g.table[id].rows| && g.table[id].rows[n - 1].kind == Dispatch
  {
    var id, n := w.pc.next.id, w.pc.next.number;
    assert ExecutionGrows(w.view[id], g.table[id]);
    assert AttemptGrows(w.view[id].rows[n - 1], g.table[id].rows[n - 1]);
    assert ExecutionOk(g.namespace, g.session, g.recipient, id, g.table[id]);
  }

  lemma {:induction false} CallOutOk(g: World, w: Worker, link: Link, text: Id, error: bool)
    requires WorldOk(g) && WorkerOk(g, w) && Calling(w) && w.pc.next.id in w.view
    ensures var e := w.view[w.pc.next.id]; var (r, output) := CallOut(g.recipient, e, link, text, error);
      RecipientOk(g.(recipient := r)) && g.recipient <= r &&
      (e.frozen.tool == Fixture && output.Some? ==> output.value.Canonical? && Holds(r, e.key, output.value))
  {
    hide TableOk, TableGrows, PcOk, RecipientOk, SentOk, CallersOk, Deliver, Holds;
    CallerView(g, w);
    DeliverOk(g, w.pc.next.id);
  }

  lemma {:induction false} SettledWorker(g: World, h: World, w: Worker, link: Link, text: Id, error: bool)
    requires WorldOk(g) && WorkerOk(g, w) && Calling(w) && Recorded(w) && Grows(g, h)
    requires h.table == g.table && h.revision == g.revision
    requires var (r, output) := CallOut(g.recipient, w.view[w.pc.next.id], link, text, error);
      h.recipient == r && (w.view[w.pc.next.id].frozen.tool == Fixture && output.Some? ==>
        output.value.Canonical? && Holds(r, w.view[w.pc.next.id].key, output.value))
    ensures var output := CallOut(g.recipient, w.view[w.pc.next.id], link, text, error).1;
      WorkerOk(h, w.(pc := Settled(w.pc.next.id, w.view[w.pc.next.id], w.pc.next.number, output)))
  {
    hide TableOk, TableGrows, RecipientOk, SentOk, CallersOk, CallOut, Holds, Settled, BatchOk, NextOk;
    TableStable(g, h, w.view);
    SettledOk(h, w.view, w.pc.next.id, w.pc.next.number, CallOut(g.recipient, w.view[w.pc.next.id], link, text, error).1);
  }

  lemma {:induction false} SentExtends(g: World, w: Worker)
    requires WorldOk(g) && Calling(w) && WorkerOk(g, w) && CallOf(w) !in g.sent
    ensures SentOk(g.table, g.sent + [CallOf(w)])
  {
    hide TableOk, RecipientOk, WorkersOk, PcOk, TableGrows;
    CallerView(g, w);
  }

  lemma {:induction false} SentCallers(g: World, h: World, id: Id)
    requires CallersOk(g) && id in g.workers && Calling(g.workers[id]) && h.workers.Keys == g.workers.Keys
    requires h.sent == g.sent + [CallOf(g.workers[id])] && !Calling(h.workers[id])
    requires forall v :: v in g.workers && v != id ==> h.workers[v] == g.workers[v]
    ensures CallersOk(h)
  {
  }

  // ------------------------------------------------------------ every run

  lemma {:induction false} StepKeeps(g: World, e: Event)
    requires WorldOk(g)
    ensures WorldOk(Step(g, e)) && Grows(g, Step(g, e))
  {
    hide WorldOk, Grows;
    GrowsReflexive(g);
    if Enabled(g, e) {
      match e
      case OtherCommit(w) => OtherCommitStep(g, w);
      case Commit(w, landing) => LandStep(g, w, landing);
      case External(w, link, text, error) => ExternalStep(g, w, link, text, error);
      case Crash(w) => CrashStep(g, w);
      case _ => LogicStep(g, e);
    }
  }

  lemma {:induction false} RunKeeps(g: World, trace: seq<Event>)
    requires WorldOk(g)
    ensures WorldOk(After(g, trace)) && Grows(g, After(g, trace))
    decreases |trace|
  {
    hide WorldOk, Grows, Step;
    GrowsReflexive(g);
    if trace != [] {
      StepKeeps(g, trace[0]);
      RunKeeps(Step(g, trace[0]), trace[1..]);
      GrowsTransitive(g, Step(g, trace[0]), After(g, trace));
    }
  }

  ghost predicate Reachable(g: World) {
    exists namespace, session, trace :: g == After(Initial(namespace, session), trace)
  }

  lemma {:induction false} ReachableOk(g: World)
    requires Reachable(g)
    ensures WorldOk(g)
  {
    var namespace, session, trace :| g == After(Initial(namespace, session), trace);
    RunKeeps(Initial(namespace, session), trace);
  }

  // ------------------------------------------------------------ theorems

  /** At most one external effect per action: no two recipient rows share a key, and a row carries
      the frozen payload of the action its key names and the effect those determine. */
  lemma {:induction false} AtMostOneEffect(g: World, i: nat, j: nat)
    requires Reachable(g) && i < |g.recipient| && j < |g.recipient|
    ensures g.recipient[i].key == g.recipient[j].key ==> i == j
    ensures var r := g.recipient[i]; var id := r.key.execution;
      id in g.table && r.key == g.table[id].key && r.payload == PayloadOf(g.table[id].frozen) &&
      r.effect == Effect(r.key, g.table[id].frozen.args)
  {
    hide ExecutionGrows, PcOk;
    ReachableOk(g);
    assert ExecutionOk(g.namespace, g.session, g.recipient, g.recipient[i].key.execution, g.table[g.recipient[i].key.execution]);
  }

  /** A settled fixture action has succeeded, and stores the canonical form of the one row the recipient holds for it. */
  lemma {:induction false} SettledIsTheRecipientsResult(g: World, id: Id)
    requires Reachable(g) && id in g.table && g.table[id].frozen.tool == Fixture && g.table[id].result.Some?
    ensures g.table[id].status == Succeeded
    ensures exists row | row in g.recipient ::
      row.key == g.table[id].key && row.payload == PayloadOf(g.table[id].frozen) &&
      g.table[id].result == Some(Canonical(row.effect))
  {
    hide RowsOk, PcOk, TableGrows;
    ReachableOk(g);
    var e := g.table[id];
    assert ExecutionOk(g.namespace, g.session, g.recipient, id, e);
    var i :| 0 <= i < |g.recipient| && g.recipient[i].key == e.key && e.result.value == Canonical(g.recipient[i].effect);
    AtMostOneEffect(g, i, i);
  }

  /** The attempt ledger: numbers are exactly 1..k, dispatch attempts are counted by `attempts` and bounded, only the
      newest attempt can be running, and an action has a result exactly when it is terminal, with nothing running; the
      result is the evidence of the newest attempt. */
  lemma {:induction false} AttemptLedger(g: World, id: Id)
    requires Reachable(g) && id in g.table
    ensures var e := g.table[id];
      (forall i :: 0 <= i < |e.rows| ==> e.rows[i].number == i + 1 && e.rows[i].payload == PayloadOf(e.frozen)) &&
      e.attempts == Dispatches(e.rows) <= e.frozen.maxAttempts &&
      (forall i :: 0 <= i < |e.rows| - 1 ==> e.rows[i].status != Running) &&
      (Terminal(e.status) <==> e.result.Some?) && (Terminal(e.status) ==> Quiet(e.rows)) && ResultRecorded(e)
  {
    hide PcOk, TableGrows, Holds;
    ReachableOk(g);
    assert ExecutionOk(g.namespace, g.session, g.recipient, id, g.table[id]);
  }

  /** Whatever happens later, settled attempts, terminal results and recipient rows never change. */
  lemma {:induction false} SettledForever(g: World, trace: seq<Event>, id: Id)
    requires Reachable(g) && id in g.table
    ensures var h := After(g, trace);
      id in h.table && ExecutionGrows(g.table[id], h.table[id]) && g.recipient <= h.recipient
  {
    ReachableOk(g);
    RunKeeps(g, trace);
  }

  /** How many external calls were made for an action. */
  function Calls(sent: seq<Sent>, id: Id): nat {
    if sent == [] then 0 else Calls(sent[..|sent| - 1], id) + if sent[|sent| - 1].id == id then 1 else 0
  }

  function CallNumbers(sent: seq<Sent>, id: Id): set<nat> {
    if sent == [] then {}
    else CallNumbers(sent[..|sent| - 1], id) + if sent[|sent| - 1].id == id then {sent[|sent| - 1].number} else {}
  }

  function DispatchNumbers(rows: seq<Attempt>): set<nat> {
    if rows == [] then {}
    else DispatchNumbers(rows[..|rows| - 1]) + if rows[|rows| - 1].kind == Dispatch then {|rows|} else {}
  }

  lemma {:induction false} CallNumberIff(sent: seq<Sent>, id: Id, n: nat)
    ensures n in CallNumbers(sent, id) <==> Sent(id, n) in sent
  {
    if sent != [] {
      CallNumberIff(sent[..|sent| - 1], id, n);
      assert sent == sent[..|sent| - 1] + [sent[|sent| - 1]];
    }
  }

  lemma {:induction false} DispatchNumberIff(rows: seq<Attempt>, n: nat)
    ensures n in DispatchNumbers(rows) <==> 1 <= n <= |rows| && rows[n - 1].kind == Dispatch
  {
    if rows != [] { DispatchNumberIff(rows[..|rows| - 1], n); }
  }

  lemma {:induction false} CountCalls(sent: seq<Sent>, id: Id)
    requires forall i, j :: 0 <= i < j < |sent| ==> sent[i] != sent[j]
    ensures Calls(sent, id) == |CallNumbers(sent, id)|
  {
    if sent != [] {
      var front, last := sent[..|sent| - 1], sent[|sent| - 1];
      forall i, j | 0 <= i < j < |front| ensures front[i] != front[j] {
        assert sent[i] != sent[j];
      }
      CountCalls(front, id);
      CallNumberIff(front, id, last.number);
    }
  }

  lemma {:induction false} CountDispatches(rows: seq<Attempt>)
    ensures Dispatches(rows) == |DispatchNumbers(rows)|
  {
    if rows != [] {
      CountDispatches(rows[..|rows| - 1]);
      DispatchNumberIff(rows[..|rows| - 1], |rows|);
    }
  }

  lemma {:induction false} SubsetSize<T>(a: set<T>, b: set<T>)
    requires a <= b
    ensures |a| <= |b|
  {
    assert b == a + (b - a);
  }

  /** However many crashes, takeovers and retries occur, the external calls ever made for an action, answered or not,
      never exceed its frozen bound; an action to be reconciled is called at most once in its whole life, and one that
      relies on a recipient without a deduplicating table is never called. */
  lemma {:induction false} CallsWithinBound(g: World, id: Id)
    requires Reachable(g) && id in g.table
    ensures Calls(g.sent, id) <= g.table[id].attempts <= g.table[id].frozen.maxAttempts
    ensures g.table[id].frozen.mode == Reconcile ==> Calls(g.sent, id) <= 1
    ensures g.table[id].frozen.mode == Idempotent && g.table[id].frozen.tool != Fixture ==> Calls(g.sent, id) == 0
  {
    hide PcOk, TableGrows, RowsOk, Holds, RecipientOk, CallersOk, WorkersOk, Calls, CallNumbers, Dispatches, ResultRecorded,
         DispatchNumbers, Reachable;
    ReachableOk(g);
    var e := g.table[id];
    assert ExecutionOk(g.namespace, g.session, g.recipient, id, e);
    CountCalls(g.sent, id);
    CountDispatches(e.rows);
    forall n | n in CallNumbers(g.sent, id) ensures n in DispatchNumbers(e.rows) {
      CallNumberIff(g.sent, id, n);
      DispatchNumberIff(e.rows, n);
    }
    SubsetSize(CallNumbers(g.sent, id), DispatchNumbers(e.rows));
  }

  /** A worker level with the session is never refused by the action checks, and the recipient never
      sees one key with two payloads: those errors cannot occur. */
  lemma {:induction false} NeverRefused(g: World, w: Id)
    requires Reachable(g) && w in g.workers
    ensures g.workers[w].revision == g.revision && g.workers[w].pc.Committing? ==>
      WriteBatch(g.table, g.workers[w].pc.batch).Some?
    ensures Calling(g.workers[w]) ==>
      Recorded(g.workers[w]) &&
      var e := g.workers[w].view[g.workers[w].pc.next.id];
      Deliver(g.recipient, e.key, e.payload).1 == Some(Canonical(EffectOf(e.key, e.payload)))
  {
    hide TableGrows, RowsOk, Holds, Deliver, RecipientOk, SentOk, CallersOk;
    ReachableOk(g);
    assert WorkerOk(g, g.workers[w]);
    if Calling(g.workers[w]) {
      CallerView(g, g.workers[w]);
      DeliverOk(g, g.workers[w].pc.next.id);
    }
  }

  ghost predicate RowsGrow(rows: seq<Attempt>, rows': seq<Attempt>) {
    |rows| <= |rows'| && forall i :: 0 <= i < |rows| ==> AttemptGrows(rows[i], rows'[i])
  }

  predicate NumbersApart(rows: seq<Attempt>) {
    forall i, j :: 0 <= i < j < |rows| ==> rows[i].number != rows[j].number
  }

  lemma {:induction false} AttemptsGrow(rows: seq<Attempt>, pending: seq<Attempt>)
    requires WriteAttempts(rows, pending).Some?
    ensures RowsGrow(rows, WriteAttempts(rows, pending).value)
    ensures NumbersApart(rows) ==> NumbersApart(WriteAttempts(rows, pending).value)
    decreases |pending|
  {
    if pending != [] {
      var rows' := WriteAttempt(rows, pending[0]).value;
      assert RowsGrow(rows, rows');
      AttemptsGrow(rows', pending[1..]);
    }
  }

  /** Whatever a batch asks for, the checks never let it change what is frozen, settled or terminal, lower a counter or
      give one number twice. */
  lemma {:induction false} AnyBatchGrows(t: map<Id, Execution>, b: Batch)
    requires WriteBatch(t, b).Some? && forall id :: id in t && t[id].result.Some? ==> Terminal(t[id].status)
    ensures TableGrows(t, WriteBatch(t, b).value)
    ensures forall id :: id in t && id != b.id ==> WriteBatch(t, b).value[id] == t[id]
    ensures b.id in t && NumbersApart(t[b.id].rows) ==> NumbersApart(WriteBatch(t, b).value[b.id].rows)
    ensures b.put.Some? ==>
      var e := WriteBatch(t, b).value[b.id];
      e.attempts <= e.frozen.maxAttempts && e.(rows := b.put.value.rows) == b.put.value
  {
    hide WriteAttempts;
    SelfGrowsAll(t);
    if b.id in t && (b.put.Some? || b.attempts != []) {
      AttemptsGrow(t[b.id].rows, b.attempts);
    }
  }
}
