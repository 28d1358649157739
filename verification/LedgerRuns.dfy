/** Request handlers and operators interleaving over one database, with lost acknowledgements and crashes. */
module LedgerWorld {
  import opened Options
  import opened Ledger

  datatype Phase =
    | Fresh                                        // claimed, session not loaded yet
    | Working
    | Saving(commit: Id, event: EventKind, run: Option<RunMark>, tries: nat)
    | Replied(status: int)

  /** A handler's in-memory state: its claim, its copy of the session counters and its outbox. */
  datatype Worker = Worker(claim: Claim, kind: CommandKind, session: Id, held: Option<Held>,
                           revision: nat, base: nat, outbox: seq<Entry>, phase: Phase)

  datatype World = World(db: Db, workers: map<Id, Worker>)

  /** What became of one transaction: answered, committed without an answer, or never received. */
  datatype Net = Delivered | AckLost | NotDelivered

  const MAX_RETRIES := 2

  datatype Event =
    | Tick(dt: nat)
    | Insert(key: Id, request: Request, minted: Id)
    | StartAdmin(id: Id, key: Id, body: Id, session: Id, owner: Id)
    | TakeCommand(id: Id, key: Id, request: Request, owner: Id)
    | Load(id: Id)
    | Heartbeat(id: Id)
    | Acquire(id: Id, owner: Id)
    | Renew(id: Id)
    | Release(id: Id)
    | Stage(id: Id, entry: Id, isMessage: bool, payload: Id)
    | BeginSave(id: Id, commit: Id, kind: EventKind, run: Option<RunMark>)
    | Attempt(id: Id, net: Net, lag: nat)
    | CancelRun(id: Id, target: Id, net: Net, lag: nat)
    | Reject(id: Id, status: int)
    | FinishOnly(id: Id, status: int)
    | Settle(id: Id, lostLease: bool)
    | Abandon(id: Id)
    | Crash(id: Id)

  function Initial(now: int): World {
    World(Db(now, map[], map[], map[], []), map[])
  }

  function NextSequence(w: Worker): nat {
    w.base + |w.outbox|
  }

  function ProposalOf(w: Worker): Proposal
    requires w.phase.Saving?
  {
    Proposal(w.claim, w.session, w.held, w.revision, w.base, w.outbox, w.phase.commit, w.phase.event, w.phase.run)
  }

  predicate Stored(log: seq<Entry>, id: Id) {
    exists i :: 0 <= i < |log| && log[i].id == id
  }

  /** When an event can happen. */
  predicate Enabled(g: World, e: Event) {
    match e
    case Tick(_) => true
    case Insert(_, request, _) => request.kind != Admin && (request.kind == Create) == request.route.None?
    case StartAdmin(id, key, _, session, _) =>
      id !in g.workers && key !in g.db.commands && session in g.db.sessions
    case TakeCommand(id, key, request, owner) =>
      id !in g.workers && ClaimCommand(g.db, key, request, owner).1.Claimed?
    case Load(id) => id in g.workers && g.workers[id].phase == Fresh && g.workers[id].session in g.db.sessions
    case Heartbeat(id) => id in g.workers
    case Acquire(id, owner) =>
      id in g.workers && !OneShot(g.workers[id].kind) && g.workers[id].held.None? &&
      (g.workers[id].phase == Working || g.workers[id].phase == Fresh) &&
      AcquireLease(g.db, g.workers[id].session, owner).1.Some?
    case Renew(id) => id in g.workers && g.workers[id].held.Some?
    case Release(id) => id in g.workers && g.workers[id].held.Some?
    case Stage(id, entry, _, _) =>
      id in g.workers && g.workers[id].phase == Working &&
      !Stored(g.workers[id].outbox, entry) && !Stored(Log(g.db, g.workers[id].session), entry)
    case BeginSave(id, _, kind, _) =>
      id in g.workers && g.workers[id].phase == Working && EventFits(g.workers[id].kind, kind)
    case Attempt(id, _, _) => id in g.workers && g.workers[id].phase.Saving?
    case CancelRun(id, _, _, _) =>
      id in g.workers && g.workers[id].kind == Cancel && g.workers[id].phase == Working
    case Reject(id, status) =>
      id in g.workers && (g.workers[id].phase == Fresh || g.workers[id].phase == Working) && 400 <= status <= 599
    case FinishOnly(id, status) =>
      id in g.workers && g.workers[id].kind == Admin && 200 <= status <= 599 &&
      (g.workers[id].phase == Fresh || g.workers[id].phase == Working)
    case Settle(id, _) => id in g.workers && g.workers[id].kind != Admin && g.workers[id].phase.Replied?
    case Abandon(id) => id in g.workers
    case Crash(id) => id in g.workers
  }

  function ReplyStatus(event: EventKind): int {
    match event
    case SessionCreated => 201
    case Finished(true) => 202
    case _ => 200
  }

  /** Whether the handler has nothing more to do once this event is committed. */
  predicate Last(event: EventKind) {
    Settles(event) || event.Finished?
  }

  function RefusalStatus(why: Refusal): int {
    match why
    case RevisionConflict | Fenced | CommandLeaseLost => 409
    case _ => 500
  }

  /** The handler saw a transport error: retry with the same proposal, then give up. */
  function Unanswered(w: Worker): Worker
    requires w.phase.Saving?
  {
    if w.phase.tries < MAX_RETRIES then w.(phase := w.phase.(tries := w.phase.tries + 1))
    else w.(phase := Replied(500))
  }

  function Advance(w: Worker, revision: nat, base: nat): Worker
    requires w.phase.Saving?
  {
    w.(revision := revision, base := base, outbox := [],
       phase := if Last(w.phase.event) then Replied(ReplyStatus(w.phase.event)) else Working)
  }

  /** The handler saw the transaction's outcome. */
  function Answered(w: Worker, outcome: Outcome): Worker
    requires w.phase.Saving?
  {
    match outcome
    case Done(revision, next) => Advance(w, revision, next)
    case Found(revision, reload) =>
      if reload && !OneShot(w.kind) then w.(phase := Replied(500))
      else Advance(w, revision, NextSequence(w))
    case Refused(why) =>
      w.(phase := if w.kind == Run then Working else Replied(RefusalStatus(why)))
  }

  function Apply(g: World, e: Event): World
    requires Enabled(g, e)
  {
    match e
    case Tick(dt) => g.(db := g.db.(now := g.db.now + dt))
    case Insert(key, request, minted) => g.(db := InsertCommand(g.db, key, request, minted))
    case StartAdmin(id, key, body, session, owner) =>
      World(InsertAdmin(g.db, key, Request(Admin, Some(session), body), session, owner),
            g.workers[id := Worker(Claim(key, owner, 1), Admin, session, None, 0, 1, [], Fresh)])
    case TakeCommand(id, key, request, owner) =>
      var (d, claimed) := ClaimCommand(g.db, key, request, owner);
      World(d, g.workers[id := Worker(claimed.claim, request.kind, g.db.commands[key].target, None, 0, 1, [],
                                      if request.kind == Create then Working else Fresh)])
    case Load(id) =>
      var w := g.workers[id];
      var s := g.db.sessions[w.session];
      g.(workers := g.workers[id := w.(revision := s.revision, base := s.next, phase := Working)])
    case Heartbeat(id) => g.(db := ExtendClaim(g.db, g.workers[id].claim))
    case Acquire(id, owner) =>
      var (d, held) := AcquireLease(g.db, g.workers[id].session, owner);
      World(d, g.workers[id := g.workers[id].(held := held)])
    case Renew(id) => g.(db := RenewLease(g.db, g.workers[id].session, g.workers[id].held.value))
    case Release(id) => g.(db := ReleaseLease(g.db, g.workers[id].session, g.workers[id].held.value))
    case Stage(id, entry, isMessage, payload) =>
      var w := g.workers[id];
      g.(workers := g.workers[id := w.(outbox := w.outbox + [Entry(entry, isMessage, payload, NextSequence(w))])])
    case BeginSave(id, commit, kind, run) =>
      g.(workers := g.workers[id := g.workers[id].(phase := Saving(commit, kind, run, 0))])
    case Attempt(id, net, lag) =>
      var w := g.workers[id];
      if net == NotDelivered then g.(workers := g.workers[id := Unanswered(w)])
      else
        var (d, outcome) := CommitTx(g.db, ProposalOf(w), lag);
        World(d, g.workers[id := if net == AckLost then Unanswered(w) else Answered(w, outcome)])
    case CancelRun(id, run, net, lag) =>
      var w := g.workers[id];
      if net == NotDelivered then g.(workers := g.workers[id := w.(phase := Replied(500))])
      else
        var (d, done) := CancelTx(g.db, w.claim, w.session, run, lag);
        World(d, g.workers[id := w.(phase := Replied(if done && net == Delivered then 200 else 500))])
    case Reject(id, status) => g.(workers := g.workers[id := g.workers[id].(phase := Replied(status))])
    case FinishOnly(id, status) =>
      World(FinishTx(g.db, g.workers[id].claim, status),
            g.workers[id := g.workers[id].(phase := Replied(status))])
    case Settle(id, lostLease) =>
      World(SettleReply(g.db, g.workers[id].claim, g.workers[id].phase.status, lostLease), g.workers - {id})
    case Abandon(id) => World(AbandonClaim(g.db, g.workers[id].claim), g.workers - {id})
    case Crash(id) => g.(workers := g.workers - {id})
  }

  /** An event that cannot happen changes nothing. */
  function Step(g: World, e: Event): World {
    if Enabled(g, e) then Apply(g, e) else g
  }

  function After(g: World, trace: seq<Event>): World
    decreases |trace|
  {
    if trace == [] then g else After(Step(g, trace[0]), trace[1..])
  }
}
