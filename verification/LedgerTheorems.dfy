/** Safety of every run: commit chain, fencing, exactly-once commands, permanent acknowledged records. */
module LedgerTheorems {
  import opened Options
  import opened Ledger
  import opened LedgerWorld
  import opened LedgerInvariants

  // ------------------------------------------------------------ one step

  lemma {:induction false} CommandStep(d: Db, w: Worker)
    requires DbOk(d) && WorkerOk(d, w)
    ensures DbOk(ExtendClaim(d, w.claim)) && Grows(d, ExtendClaim(d, w.claim))
    ensures DbOk(AbandonClaim(d, w.claim)) && Grows(d, AbandonClaim(d, w.claim))
  {
    hide SessionOk, EffectsOk, FencesOrdered, ReceiptsOk, JournalRowsOk, Grows;
    var key := w.claim.key;
    GrowsReflexive(d);
    assert CommandOk(d.commands[key]);
    if ExtendClaim(d, w.claim) != d {
      TouchCommand(d, ExtendClaim(d, w.claim), key, ExtendClaim(d, w.claim).commands[key]);
    }
    if AbandonClaim(d, w.claim) != d {
      TouchCommand(d, AbandonClaim(d, w.claim), key, AbandonClaim(d, w.claim).commands[key]);
    }
  }

  lemma {:induction false} ReplyStep(d: Db, w: Worker, lostLease: bool)
    requires DbOk(d) && WorkerOk(d, w) && w.phase.Replied?
    ensures DbOk(SettleReply(d, w.claim, w.phase.status, lostLease))
    ensures Grows(d, SettleReply(d, w.claim, w.phase.status, lostLease))
  {
    hide SessionOk, EffectsOk, FencesOrdered, ReceiptsOk, JournalRowsOk, Grows;
    var key := w.claim.key;
    var d' := SettleReply(d, w.claim, w.phase.status, lostLease);
    GrowsReflexive(d);
    assert CommandOk(d.commands[key]);
    if d' != d { TouchCommand(d, d', key, d'.commands[key]); }
  }

  lemma {:induction false} FinishStep(d: Db, w: Worker, status: int)
    requires DbOk(d) && WorkerOk(d, w) && w.kind == Admin && 200 <= status <= 599
    ensures DbOk(FinishTx(d, w.claim, status)) && Grows(d, FinishTx(d, w.claim, status))
  {
    hide SessionOk, EffectsOk, FencesOrdered, ReceiptsOk, JournalRowsOk, Grows;
    var key := w.claim.key;
    var d' := FinishTx(d, w.claim, status);
    GrowsReflexive(d);
    assert CommandOk(d.commands[key]);
    if d' != d { TouchCommand(d, d', key, d'.commands[key]); }
  }

  lemma {:induction false} AdmissionStep(d: Db, key: Id, request: Request, minted: Id, owner: Id)
    requires DbOk(d)
    ensures DbOk(InsertCommand(d, key, request, minted)) && Grows(d, InsertCommand(d, key, request, minted))
    ensures DbOk(ClaimCommand(d, key, request, owner).0) && Grows(d, ClaimCommand(d, key, request, owner).0)
    ensures DbOk(InsertAdmin(d, key, request, minted, owner)) && Grows(d, InsertAdmin(d, key, request, minted, owner))
  {
    hide SessionOk, EffectsOk, FencesOrdered, ReceiptsOk, JournalRowsOk, Grows;
    GrowsReflexive(d);
    if key in d.commands {
      assert CommandOk(d.commands[key]);
      var d' := ClaimCommand(d, key, request, owner).0;
      if d' != d { TouchCommand(d, d', key, d'.commands[key]); }
    } else {
      var inserted := InsertCommand(d, key, request, minted);
      if inserted != d { NewCommand(d, inserted, key, inserted.commands[key]); }
      var admin := InsertAdmin(d, key, request, minted, owner);
      if admin != d { NewCommand(d, admin, key, admin.commands[key]); }
    }
  }

  lemma {:induction false} LeaseStep(d: Db, session: Id, owner: Id, h: Held)
    requires DbOk(d)
    ensures DbOk(AcquireLease(d, session, owner).0) && Grows(d, AcquireLease(d, session, owner).0)
    ensures DbOk(RenewLease(d, session, h)) && Grows(d, RenewLease(d, session, h))
    ensures DbOk(ReleaseLease(d, session, h)) && Grows(d, ReleaseLease(d, session, h))
  {
    hide DbOk, Grows;
    GrowsReflexive(d);
    if session in d.sessions {
      var a := AcquireLease(d, session, owner).0;
      if a != d { TouchLease(d, a, session, a.sessions[session]); }
      var r := RenewLease(d, session, h);
      if r != d { TouchLease(d, r, session, r.sessions[session]); }
      var f := ReleaseLease(d, session, h);
      if f != d { TouchLease(d, f, session, f.sessions[session]); }
    }
  }

  /** Every event keeps the database invariants, and the database only grows. */
  lemma {:induction false} DbStep(g: World, e: Event)
    requires WorldOk(g) && Enabled(g, e)
    ensures DbOk(Apply(g, e).db) && Grows(g.db, Apply(g, e).db)
  {
    hide DbOk, Grows, CommitTx, CancelTx, InsertCommand, ClaimCommand, WorkerOk;
    GrowsReflexive(g.db);
    match e
    case Tick(dt) => ClockKeeps(g.db, g.db.now + dt);
    case Insert(key, request, minted) => AdmissionStep(g.db, key, request, minted, 0);
    case StartAdmin(id, key, body, session, owner) =>
      AdmissionStep(g.db, key, Request(Admin, Some(session), body), session, owner);
    case TakeCommand(id, key, request, owner) => AdmissionStep(g.db, key, request, 0, owner);
    case Heartbeat(id) => CommandStep(g.db, g.workers[id]);
    case Abandon(id) => CommandStep(g.db, g.workers[id]);
    case Acquire(id, owner) => LeaseStep(g.db, g.workers[id].session, owner, Held(0, 0));
    case Renew(id) => LeaseStep(g.db, g.workers[id].session, 0, g.workers[id].held.value);
    case Release(id) => LeaseStep(g.db, g.workers[id].session, 0, g.workers[id].held.value);
    case Attempt(id, net, lag) => CommitKeeps(g.db, g.workers[id], lag);
    case CancelRun(id, run, net, lag) => CancelKeeps(g.db, g.workers[id], run, lag);
    case FinishOnly(id, status) => FinishStep(g.db, g.workers[id], status);
    case Settle(id, lostLease) => ReplyStep(g.db, g.workers[id], lostLease);
    case _ =>
  }

  /** The worker that acted, or was started, is well formed afterwards. */
  lemma {:induction false} ActorStep(g: World, e: Event, id: Id)
    requires WorldOk(g) && Enabled(g, e)
    requires id in Apply(g, e).workers
    requires id !in g.workers || Apply(g, e).workers[id] != g.workers[id]
    ensures WorkerOk(Apply(g, e).db, Apply(g, e).workers[id])
  {
    hide DbOk, Grows, CommitTx, CancelTx, ClaimCommand, InsertAdmin, AcquireLease, WorkerOk, InStep, Answered, Unanswered;
    var g' := Apply(g, e);
    DbStep(g, e);
    match e
    case StartAdmin(_, key, body, session, owner) => StartedOk(g, e);
    case TakeCommand(_, key, request, owner) => StartedOk(g, e);
    case Load(_) => LoadedOk(g.db, g.workers[id]);
    case Acquire(_, owner) =>
      WorkerStable(g.db, g'.db, g.workers[id]);
      HeldOk(g'.db, g.workers[id], g'.workers[id].held);
    case Attempt(_, net, lag) =>
      WorkerStable(g.db, g'.db, g.workers[id]);
      UnansweredOk(g'.db, g.workers[id]);
      AnsweredOk(g.db, g.workers[id], lag);
    case CancelRun(_, run, net, lag) =>
      WorkerStable(g.db, g'.db, g.workers[id]);
      CancelKeeps(g.db, g.workers[id], run, lag);
      RepliedOk(g'.db, g.workers[id], g'.workers[id].phase.status);
    case FinishOnly(_, status) =>
      WorkerStable(g.db, g'.db, g.workers[id]);
      RepliedOk(g'.db, g.workers[id], status);
    case Reject(_, status) => RepliedOk(g'.db, g.workers[id], status);
    case Stage(_, entry, isMessage, payload) => StagedOk(g.db, g.workers[id], entry, isMessage, payload);
    case BeginSave(_, commit, kind, run) => BegunOk(g.db, g.workers[id], commit, kind, run);
    case _ =>
  }

  lemma {:induction false} StartedOk(g: World, e: Event)
    requires WorldOk(g) && Enabled(g, e) && (e.TakeCommand? || e.StartAdmin?) && DbOk(Apply(g, e).db)
    ensures WorkerOk(Apply(g, e).db, Apply(g, e).workers[e.id])
  {
    hide DbOk, InStep;
    FreshInStep(Apply(g, e).db, Apply(g, e).workers[e.id]);
  }

  lemma {:induction false} HeldOk(d: Db, w: Worker, held: Option<Held>)
    requires WorkerOk(d, w)
    ensures WorkerOk(d, w.(held := held))
  {
  }

  lemma {:induction false} UnansweredOk(d: Db, w: Worker)
    requires WorkerOk(d, w) && w.phase.Saving?
    ensures WorkerOk(d, Unanswered(w))
  {
  }

  lemma {:induction false} RepliedOk(d: Db, w: Worker, status: int)
    requires WorkerOk(d, w) && 200 <= status <= 599
    requires status >= 400 || !OneShot(w.kind) || Positive(d.commands[w.claim.key].response)
    ensures WorkerOk(d, w.(phase := Replied(status)))
  {
  }

  lemma {:induction false} BegunOk(d: Db, w: Worker, commit: Id, kind: EventKind, run: Option<RunMark>)
    requires WorkerOk(d, w) && EventFits(w.kind, kind)
    ensures WorkerOk(d, w.(phase := Saving(commit, kind, run, 0)))
  {
  }

  lemma {:induction false} FreshInStep(d: Db, w: Worker)
    requires DbOk(d) && w.revision == 0 && w.base == 1
    ensures InStep(d, w)
  {
    if w.session in d.sessions { assert SessionOk(d.sessions[w.session]); }
  }

  lemma {:induction false} LoadedOk(d: Db, w: Worker)
    requires DbOk(d) && WorkerOk(d, w) && w.phase.Fresh? && w.session in d.sessions
    ensures var s := d.sessions[w.session];
      WorkerOk(d, w.(revision := s.revision, base := s.next, phase := Working))
  {
    assert SessionOk(d.sessions[w.session]);
  }

  lemma {:induction false} StagedOk(d: Db, w: Worker, entry: Id, isMessage: bool, payload: Id)
    requires WorkerOk(d, w) && w.phase == Working
    requires !Stored(w.outbox, entry) && !Stored(Log(d, w.session), entry)
    ensures WorkerOk(d, w.(outbox := w.outbox + [Entry(entry, isMessage, payload, NextSequence(w))]))
  {
  }

  // ------------------------------------------------------------ every run

  lemma {:induction false} InitialOk(now: int)
    ensures WorldOk(Initial(now))
  {
  }

  lemma {:induction false} StepKeeps(g: World, e: Event)
    requires WorldOk(g)
    ensures WorldOk(Step(g, e)) && Grows(g.db, Step(g, e).db)
  {
    hide DbOk, Grows, Apply, Enabled, WorkerOk;
    GrowsReflexive(g.db);
    if Enabled(g, e) {
      DbStep(g, e);
      var g' := Apply(g, e);
      forall id | id in g'.workers ensures WorkerOk(g'.db, g'.workers[id]) {
        if id in g.workers && g'.workers[id] == g.workers[id] {
          WorkerStable(g.db, g'.db, g.workers[id]);
        } else {
          ActorStep(g, e, id);
        }
      }
    }
  }

  /** Every run keeps every invariant, and from start to end the database only grows. */
  lemma {:induction false} RunKeeps(g: World, trace: seq<Event>)
    requires WorldOk(g)
    ensures WorldOk(After(g, trace)) && Grows(g.db, After(g, trace).db)
    decreases |trace|
  {
    hide WorldOk, Grows, Step;
    GrowsReflexive(g.db);
    if trace != [] {
      StepKeeps(g, trace[0]);
      RunKeeps(Step(g, trace[0]), trace[1..]);
      GrowsTransitive(g.db, Step(g, trace[0]).db, After(g, trace).db);
    }
  }

  ghost predicate Reachable(g: World) {
    exists now, trace :: g == After(Initial(now), trace)
  }

  lemma {:induction false} ReachableOk(g: World)
    requires Reachable(g)
    ensures WorldOk(g)
  {
    var now, trace :| g == After(Initial(now), trace);
    InitialOk(now);
    RunKeeps(Initial(now), trace);
  }

  // ------------------------------------------------------------ theorems

  /** Commit chain: in every reachable state the receipts of a session are exactly (0,1),(1,2),...,(n-1,n) with distinct
      commit ids, snapshot, context and anchor agree with the newest one, and the transcript, numbered 1..m without
      gaps and holding no record twice, is the concatenation of what those commits archived. */
  lemma {:induction false} CommitChain(g: World, id: Id)
    requires Reachable(g) && id in g.db.sessions
    ensures var s := g.db.sessions[id];
      s.revision == s.contextRevision == |s.receipts| >= 1 &&
      (forall n :: 0 <= n < s.revision ==> s.receipts[n].expected == n && s.receipts[n].committed == n + 1) &&
      (forall i, j :: 0 <= i < j < s.revision ==> s.receipts[i].commit != s.receipts[j].commit) &&
      s.last == Anchor(s.receipts[s.revision - 1].commit, s.receipts[s.revision - 1].fingerprint) &&
      s.transcript == Archived(s.receipts) && s.next == |s.transcript| + 1 &&
      (forall i :: 0 <= i < |s.transcript| ==> s.transcript[i].sequence == i + 1) &&
      (forall i, j :: 0 <= i < j < |s.transcript| ==> s.transcript[i].id != s.transcript[j].id)
  {
    hide ArchiveOk, Archived;
    ReachableOk(g);
    assert SessionOk(g.db.sessions[id]);
    ArchiveIsTranscript(g.db.sessions[id]);
  }

  lemma {:induction false} ArchiveIsTranscript(s: Session)
    requires ArchiveOk(s)
    ensures s.transcript == Archived(s.receipts)
  {
  }

  /** Exactly once: a create, message or cancel command commits its effect at most once,
      and has committed it if and only if its stored response is a 2xx. */
  lemma {:induction false} ExactlyOnce(g: World, key: Id)
    requires Reachable(g) && key in g.db.commands && OneShot(g.db.commands[key].request.kind)
    ensures Effects(g.db.journal, key) <= 1
    ensures Effects(g.db.journal, key) == 1 <==> Positive(g.db.commands[key].response)
  {
    ReachableOk(g);
  }

  /** Write once: whatever happens after a command was answered, of any kind, its row never changes. */
  lemma {:induction false} AnsweredForever(g: World, trace: seq<Event>, key: Id)
    requires Reachable(g) && key in g.db.commands && g.db.commands[key].response.Some?
    ensures key in After(g, trace).db.commands && After(g, trace).db.commands[key] == g.db.commands[key]
  {
    ReachableOk(g);
    RunKeeps(g, trace);
  }

  /** The claim is the one its started row records, and is live at `t`. */
  predicate ClaimLives(d: Db, c: Claim, t: int) {
    c.key in d.commands &&
    var row := d.commands[c.key];
    row.status == Started && row.fence == c.fence && row.lease.Some? && row.lease.value.owner == c.owner &&
    row.lease.value.expires > t
  }

  /** A server error is never stored as the answer of a client's command, so it is never replayed. */
  lemma {:induction false} NoServerErrorIsStored(g: World, key: Id)
    requires Reachable(g) && key in g.db.commands && g.db.commands[key].request.kind != Admin
    ensures g.db.commands[key].response.Some? ==> 200 <= g.db.commands[key].response.value.status < 500
  {
    ReachableOk(g);
    assert CommandOk(g.db.commands[key]);
  }

  /** Any other reply of the worker that still holds the claim is stored, and the row is final. */
  lemma {:induction false} ReplyIsStored(g: World, id: Id, lostLease: bool)
    requires Reachable(g) && id in g.workers && g.workers[id].phase.Replied? && g.workers[id].kind != Admin
    requires ClaimLives(g.db, g.workers[id].claim, g.db.now)
    ensures var key, status := g.workers[id].claim.key, g.workers[id].phase.status;
      var row, row' := g.db.commands[key], Step(g, Settle(id, lostLease)).db.commands[key];
      if status < 500 && !lostLease
      then AnsweredBy(row, row'.(status := Succeeded), Response(status, Detail)) &&
           (row'.status == Failed <==> status >= 400) && row'.status in {Succeeded, Failed}
      else row' == row.(status := Uncertain, lease := None)
  {
  }

  /** Replay: whatever happened since a command was answered, a request under its key changes no row; it is given the
      stored response when it is the same request, and refused when it is not. */
  lemma {:induction false} ReplayForever(g: World, trace: seq<Event>, key: Id, request: Request, minted: Id, owner: Id)
    requires Reachable(g) && key in g.db.commands && g.db.commands[key].response.Some?
    ensures var d := After(g, trace).db; var first := g.db.commands[key];
      InsertCommand(d, key, request, minted) == d &&
      ClaimCommand(d, key, request, owner) ==
        (d, if request == first.request then Replayed(first.response.value) else KeyReused)
  {
    AnsweredForever(g, trace, key);
  }

  /** Fencing: once a session's fence has reached f, no later commit carries a smaller one. */
  lemma {:induction false} NoStaleCommit(g: World, trace: seq<Event>, i: nat)
    requires Reachable(g)
    requires |g.db.journal| <= i < |After(g, trace).db.journal|
    requires Owned(After(g, trace).db.journal[i]) && After(g, trace).db.journal[i].session in g.db.sessions
    ensures After(g, trace).db.journal[i].held.value.fence >=
            g.db.sessions[After(g, trace).db.journal[i].session].fence
  {
    ReachableOk(g);
    RunKeeps(g, trace);
    assert NewFenced(g.db, After(g, trace).db.journal[i]);
  }

  /** Immutable prefix: receipts, transcript, journal and events already committed are never changed. */
  lemma {:induction false} CommittedIsImmutable(g: World, trace: seq<Event>, id: Id)
    requires Reachable(g) && id in g.db.sessions
    ensures var d := After(g, trace).db;
      id in d.sessions && g.db.sessions[id].receipts <= d.sessions[id].receipts &&
      g.db.sessions[id].transcript <= d.sessions[id].transcript && g.db.journal <= d.journal
  {
    ReachableOk(g);
    RunKeeps(g, trace);
    assert SessionGrows(g.db.sessions[id], After(g, trace).db.sessions[id]);
  }

  /** A commit id that once got a receipt never writes again, however much later and whatever is proposed under it. */
  lemma {:induction false} RetryNeverWrites(g: World, trace: seq<Event>, i: nat, p: Proposal, lag: nat)
    requires Reachable(g) && p.session in g.db.sessions && i < |g.db.sessions[p.session].receipts|
    requires g.db.sessions[p.session].receipts[i].commit == p.commit
    ensures var d := After(g, trace).db;
      CommitTx(d, p, lag).0 == d.(now := d.now + lag) && !CommitTx(d, p, lag).1.Done?
  {
    hide Reachable, After;
    CommittedIsImmutable(g, trace, p.session);
    var d := After(g, trace).db;
    assert d.sessions[p.session].receipts[i] == g.db.sessions[p.session].receipts[i];
    assert FindReceipt(d.sessions[p.session].receipts, p.commit).Some?;
  }

  /** The worker's lease is the one the session row records, live at `t`; without one, the row records none. */
  predicate LeaseAgrees(d: Db, w: Worker, t: int) {
    if w.session !in d.sessions then w.held.None?
    else
      var s := d.sessions[w.session];
      if w.held.None? then s.lease.None?
      else
        s.lease.Some? && s.lease.value.owner == w.held.value.owner && s.fence == w.held.value.fence &&
        s.lease.value.expires > t
  }

  /** When a commit lands: exactly when its id is new, its command claim and execution lease are live at the end of
      the transaction, and no other commit moved the revision. The gap and identity checks never refuse. */
  lemma {:induction false} CommitLandsIff(g: World, id: Id, lag: nat)
    requires Reachable(g) && id in g.workers && g.workers[id].phase.Saving?
    ensures var w := g.workers[id]; var t := g.db.now + lag;
      CommitTx(g.db, ProposalOf(w), lag).1.Done? <==>
        (w.session in g.db.sessions ==>
          (forall r :: r in g.db.sessions[w.session].receipts ==> r.commit != w.phase.commit) &&
          w.revision == g.db.sessions[w.session].revision) &&
        ClaimLives(g.db, w.claim, t) && LeaseAgrees(g.db, w, t)
  {
    hide CommandOk, EffectsOk, FencesOrdered, ReceiptsOk, JournalRowsOk, ArchiveOk, Sealed, OutboxOk;
    ReachableOk(g);
    var d, w := g.db, g.workers[id];
    var p := ProposalOf(w);
    if w.session in d.sessions {
      assert SessionOk(d.sessions[w.session]);
      MaxOfNumbered(d.sessions[w.session].transcript);
    }
    if RowRefusal(d, p).None? { CommitWrites(d, w); }
  }

  /** Records a handler was told are saved stand in the transcript at the numbers it staged them with, for ever after. */
  lemma {:induction false} AcknowledgedIsPermanent(g: World, id: Id, lag: nat, trace: seq<Event>)
    requires Reachable(g) && id in g.workers && g.workers[id].phase.Saving?
    requires !CommitTx(g.db, ProposalOf(g.workers[id]), lag).1.Refused?
    ensures var w := g.workers[id]; var d := After(Step(g, Attempt(id, Delivered, lag)), trace).db;
      w.session in d.sessions && 1 <= w.base <= NextSequence(w) <= |d.sessions[w.session].transcript| + 1 &&
      d.sessions[w.session].transcript[w.base - 1..NextSequence(w) - 1] == w.outbox
  {
    hide WorldOk, CommitTx, Grows, Apply;
    ReachableOk(g);
    var w, g' := g.workers[id], Step(g, Attempt(id, Delivered, lag));
    StepKeeps(g, Attempt(id, Delivered, lag));
    RunKeeps(g', trace);
    AcknowledgedIsArchived(g, id, lag);
    GrowsKeepsSlice(g'.db, After(g', trace).db, w.session, w.base - 1, NextSequence(w) - 1);
  }

  /** A handler that was told its save is committed either goes on level with the session, with nothing staged, or
      replies: with the status of the event that ended its work, or, if others committed since, not with success. */
  lemma {:induction false} AcknowledgedIsLevel(g: World, id: Id, lag: nat)
    requires Reachable(g) && id in g.workers && g.workers[id].phase.Saving?
    requires !CommitTx(g.db, ProposalOf(g.workers[id]), lag).1.Refused?
    ensures var w := g.workers[id]; var h := Step(g, Attempt(id, Delivered, lag)); var w' := h.workers[id];
      match w'.phase
      case Working =>
        w'.outbox == [] && w.session in h.db.sessions && w'.revision == h.db.sessions[w.session].revision &&
        w'.base == |h.db.sessions[w.session].transcript| + 1
      case Replied(status) =>
        status == (match w.phase.event case SessionCreated => 201 case Finished(blocked) => (if blocked then 202 else 200)
                                       case _ => 200) ||
        (status == 500 && w.revision + 1 < h.db.sessions[w.session].revision)
      case _ => false
  {
    hide DbOk, WorkerOk, CommitTx, Grows, Reachable, RowSettled, OthersSettled, RunMarked, ReceiptKept;
    ReachableOk(g);
    var w := g.workers[id];
    SavingFits(g.db, w);
    CommitAnswers(g.db, w, lag);
    StepKeeps(g, Attempt(id, Delivered, lag));
    LevelTranscript(Step(g, Attempt(id, Delivered, lag)).db, w.session);
  }

  lemma {:induction false} SavingFits(d: Db, w: Worker)
    requires WorkerOk(d, w) && w.phase.Saving?
    ensures EventFits(w.kind, w.phase.event)
  {
  }

  lemma {:induction false} LevelTranscript(d: Db, session: Id)
    requires DbOk(d) && session in d.sessions
    ensures d.sessions[session].next == |d.sessions[session].transcript| + 1
  {
    assert SessionOk(d.sessions[session]);
  }

  lemma {:induction false} AcknowledgedIsArchived(g: World, id: Id, lag: nat)
    requires WorldOk(g) && id in g.workers && g.workers[id].phase.Saving?
    requires !CommitTx(g.db, ProposalOf(g.workers[id]), lag).1.Refused?
    ensures var w := g.workers[id]; var d := Step(g, Attempt(id, Delivered, lag)).db;
      w.session in d.sessions && 1 <= w.base <= NextSequence(w) <= |d.sessions[w.session].transcript| + 1 &&
      d.sessions[w.session].transcript[w.base - 1..NextSequence(w) - 1] == w.outbox
  {
    hide SessionsOk, CommandsOk, EffectsOk, FencesOrdered, ReceiptsOk, JournalRowsOk, WorkerOk, CommitTx, Answered;
    var w := g.workers[id];
    assert Step(g, Attempt(id, Delivered, lag)).db == CommitTx(g.db, ProposalOf(w), lag).0;
    CommitAnswers(g.db, w, lag);
    if CommitTx(g.db, ProposalOf(w), lag).1.Done? {
      SliceOfPrefix(Log(g.db, w.session), w.outbox, Log(g.db, w.session) + w.outbox);
    } else {
      FoundIsArchived(g.db, w, lag);
    }
  }

  lemma {:induction false} SliceOfPrefix<T>(a: seq<T>, b: seq<T>, t: seq<T>)
    requires a + b <= t
    ensures |a| + |b| <= |t| && t[|a|..|a| + |b|] == b
  {
    assert t[|a|..|a| + |b|] == t[..|a| + |b|][|a|..];
  }

  lemma {:induction false} GrowsKeepsSlice(d: Db, d': Db, id: Id, lo: int, hi: int)
    requires Grows(d, d') && id in d.sessions && 0 <= lo <= hi <= |d.sessions[id].transcript|
    ensures id in d'.sessions && hi <= |d'.sessions[id].transcript|
    ensures d'.sessions[id].transcript[lo..hi] == d.sessions[id].transcript[lo..hi]
  {
    var t, t' := d.sessions[id].transcript, d'.sessions[id].transcript;
    assert SessionGrows(d.sessions[id], d'.sessions[id]);
    assert t'[..|t|] == t;
    assert t'[lo..hi] == t'[..|t|][lo..hi];
  }

  lemma {:induction false} ArchivedSplit(receipts: seq<Receipt>, i: nat)
    requires i < |receipts|
    ensures Archived(receipts[..i]) + receipts[i].fingerprint.outbox <= Archived(receipts)
    decreases |receipts|
  {
    var front := receipts[..|receipts| - 1];
    if i < |front| {
      ArchivedSplit(front, i);
      assert front[..i] == receipts[..i];
    }
  }

  lemma {:induction false} ReceiptArchived(s: Session, i: nat)
    requires ArchiveOk(s) && i < |s.receipts|
    ensures var f := s.receipts[i].fingerprint;
      1 <= f.base && f.base - 1 + |f.outbox| <= |s.transcript| &&
      s.transcript[f.base - 1..f.base - 1 + |f.outbox|] == f.outbox
  {
    ArchivedSplit(s.receipts, i);
    SliceOfPrefix(Archived(s.receipts[..i]), s.receipts[i].fingerprint.outbox, s.transcript);
  }

  /** What a retry finds under its own commit id is its own outbox, archived at its own numbers. */
  lemma {:induction false} FoundIsArchived(d: Db, w: Worker, lag: nat)
    requires SessionsOk(d) && w.phase.Saving?
    requires CommitTx(d, ProposalOf(w), lag).1.Found?
    ensures w.session in d.sessions && 1 <= w.base && NextSequence(w) <= |d.sessions[w.session].transcript| + 1
    ensures d.sessions[w.session].transcript[w.base - 1..NextSequence(w) - 1] == w.outbox
  {
    hide ArchiveOk, Numbered, Sealed, RowRefusal, Holds, StillOwned, WriteEntries;
    var s := d.sessions[w.session];
    var i := FindReceipt(s.receipts, w.phase.commit).value;
    assert SessionOk(s);
    ReceiptArchived(s, i);
  }
}
