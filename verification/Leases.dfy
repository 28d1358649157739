/** Who may act on a command or a session: the life of a row, step by step, under claims and leases that run out. */
module LeaseTheorems {
  import opened Options
  import opened Ledger
  import opened LedgerWorld
  import opened LedgerInvariants
  import opened LedgerTheorems

  // ------------------------------------------------------------ the life of a command row

  /** A row begins pending and unclaimed, or, for an operator, started under a claim of five minutes. */
  predicate RowBegins(c: Command, t: int) {
    c.response.None? &&
    ((c.status == Pending && c.lease.None? && c.fence == 0) ||
     (c.status == Started && c.lease.Some? && c.lease.value.expires == t + 300 && c.fence == 1 && c.request.kind == Admin))
  }

  /** An unanswered row that nobody holds any more is claimed under the next fence for half a minute. */
  predicate RowClaimed(c: Command, c': Command, t: int) {
    c.response.None? && (c.status == Pending || c.status == Started) &&
    (c.lease.Some? ==> c.lease.value.expires <= t) &&
    c'.lease.Some? && c'.lease.value.expires == t + 30 &&
    c' == c.(status := Started, lease := c'.lease, fence := c.fence + 1)
  }

  /** A live claim is extended by its owner. */
  predicate RowExtended(c: Command, c': Command, t: int) {
    c.status == Started && c.lease.Some? && c.lease.value.expires > t &&
    c' == c.(lease := Some(Lease(c.lease.value.owner, t + 30)))
  }

  /** A started row whose claim is still live at the end of the step is answered, once. */
  predicate RowAnswered(c: Command, c': Command, t': int) {
    c.status == Started && c.response.None? && c.lease.Some? && c.lease.value.expires > t' &&
    c'.response.Some? &&
    c' == c.(status := if c'.response.value.status >= 400 then Failed else Succeeded,
             response := c'.response, lease := None)
  }

  /** An unanswered row is left for an operator. */
  predicate RowGivenUp(c: Command, c': Command) {
    c.response.None? && (c.status == Pending || c.status == Started) &&
    (c' == c.(status := Uncertain, lease := None) || c' == c.(status := Blocked, lease := None))
  }

  predicate RowMoves(c: Command, c': Command, t: int, t': int) {
    c' == c || RowClaimed(c, c', t) || RowExtended(c, c', t) || RowAnswered(c, c', t') || RowGivenUp(c, c')
  }

  /** The event is a step of a worker holding this claim. */
  predicate ActsFor(g: World, e: Event, c: Claim) {
    match e
    case Tick(_) => false
    case Insert(_, _, _) => false
    case StartAdmin(_, _, _, _, _) => false
    case TakeCommand(_, _, _, _) => false
    case _ => e.id in g.workers && g.workers[e.id].claim == c
  }

  /** Whatever moves a row of a live claim is a step of the worker that holds the claim. */
  predicate HolderMoves(g: World, e: Event, key: Id, c: Command, c': Command, t': int) {
    c' != c && c.lease.Some? && c.lease.value.expires > t' ==> ActsFor(g, e, Claim(key, c.lease.value.owner, c.fence))
  }

  /** What one transaction of a worker with claim `mine` may do to a row. */
  predicate TxMoves(mine: Claim, key: Id, c: Command, c': Command, t: int, t': int) {
    RowMoves(c, c', t, t') &&
    (c' != c && c.lease.Some? && c.lease.value.expires > t' ==> mine == Claim(key, c.lease.value.owner, c.fence))
  }

  lemma {:induction false} CommitMoves(d: Db, p: Proposal, lag: nat, key: Id)
    requires CommandsOk(d) && key in d.commands
    ensures var d' := CommitTx(d, p, lag).0;
      key in d'.commands && TxMoves(p.claim, key, d.commands[key], d'.commands[key], d.now, d'.now)
  {
    hide SealedSession, WriteEntries, RowRefusal, StillOwned;
    assert CommandOk(d.commands[key]);
  }

  lemma {:induction false} CancelMoves(d: Db, mine: Claim, session: Id, run: Id, lag: nat, key: Id)
    requires CommandsOk(d) && key in d.commands
    ensures var d' := CancelTx(d, mine, session, run, lag).0;
      key in d'.commands && TxMoves(mine, key, d.commands[key], d'.commands[key], d.now, d'.now)
  {
    assert CommandOk(d.commands[key]);
  }

  lemma {:induction false} ReplyMoves(d: Db, mine: Claim, status: int, lost: bool, key: Id)
    requires CommandsOk(d) && key in d.commands
    ensures TxMoves(mine, key, d.commands[key], SettleReply(d, mine, status, lost).commands[key], d.now, d.now)
    ensures TxMoves(mine, key, d.commands[key], FinishTx(d, mine, status).commands[key], d.now, d.now)
    ensures TxMoves(mine, key, d.commands[key], AbandonClaim(d, mine).commands[key], d.now, d.now)
    ensures TxMoves(mine, key, d.commands[key], ExtendClaim(d, mine).commands[key], d.now, d.now)
  {
    assert CommandOk(d.commands[key]);
  }

  lemma {:induction false} AdmissionMoves(d: Db, other: Id, request: Request, minted: Id, owner: Id, key: Id)
    requires CommandsOk(d)
    ensures var a, b, c := InsertCommand(d, other, request, minted), ClaimCommand(d, other, request, owner).0,
                           InsertAdmin(d, other, request, minted, owner);
      a.now == b.now == c.now == d.now &&
      (key in d.commands ==> key in a.commands && key in b.commands && key in c.commands) &&
      (key in d.commands ==> a.commands[key] == c.commands[key] == d.commands[key]) &&
      (key in d.commands ==> b.commands[key] == d.commands[key] || RowClaimed(d.commands[key], b.commands[key], d.now)) &&
      (key !in d.commands ==>
        key !in b.commands && (key in a.commands ==> RowBegins(a.commands[key], d.now)) &&
        (key in c.commands && request.kind == Admin ==> RowBegins(c.commands[key], d.now)))
  {
    if key in d.commands { assert CommandOk(d.commands[key]); }
  }

  /** In every step of every run a command row begins, or stays as it is, or moves in one of four ways; and while its
      claim is live only the worker that holds the claim can move it. */
  lemma {:induction false} CommandLifecycle(g: World, e: Event, key: Id)
    requires Reachable(g) && key in Step(g, e).db.commands
    ensures var d, d' := g.db, Step(g, e).db;
      if key in d.commands
      then RowMoves(d.commands[key], d'.commands[key], d.now, d'.now) &&
           HolderMoves(g, e, key, d.commands[key], d'.commands[key], d'.now)
      else RowBegins(d'.commands[key], d.now)
  {
    hide CommitTx, CancelTx, SettleReply, FinishTx, AbandonClaim, ExtendClaim, InsertCommand, ClaimCommand, InsertAdmin,
         SessionsOk, EffectsOk, ReceiptsOk, JournalRowsOk, FencesOrdered, WorkerOk, Reachable, CommandOk,
         RowBegins, RowExtended, RowAnswered, RowGivenUp;
    ReachableOk(g);
    if Enabled(g, e) && key in g.db.commands { StepMoves(g, e, key); }
    if Enabled(g, e) && key !in g.db.commands { StepBegins(g, e, key); }
  }

  lemma {:induction false} StepMoves(g: World, e: Event, key: Id)
    requires CommandsOk(g.db) && Enabled(g, e) && key in g.db.commands
    ensures var d, d' := g.db, Apply(g, e).db;
      key in d'.commands && RowMoves(d.commands[key], d'.commands[key], d.now, d'.now) &&
      HolderMoves(g, e, key, d.commands[key], d'.commands[key], d'.now)
  {
    hide CommitTx, CancelTx, SettleReply, FinishTx, AbandonClaim, ExtendClaim, InsertCommand, ClaimCommand, InsertAdmin,
         CommandsOk, RowExtended, RowAnswered, RowGivenUp, Answered, Unanswered;
    var d := g.db;
    if !e.Tick? && !e.Insert? && e.id in g.workers { SameRows(d, e, g.workers[e.id]); }
    match e
    case Insert(other, request, minted) => AdmissionMoves(d, other, request, minted, 0, key);
    case StartAdmin(_, other, body, session, owner) =>
      AdmissionMoves(d, other, Request(Admin, Some(session), body), session, owner, key);
    case TakeCommand(_, other, request, owner) => AdmissionMoves(d, other, request, 0, owner, key);
    case Heartbeat(id) => ReplyMoves(d, g.workers[id].claim, 0, false, key);
    case Abandon(id) => ReplyMoves(d, g.workers[id].claim, 0, false, key);
    case FinishOnly(id, status) => ReplyMoves(d, g.workers[id].claim, status, false, key);
    case Settle(id, lost) => ReplyMoves(d, g.workers[id].claim, g.workers[id].phase.status, lost, key);
    case Attempt(id, _, lag) => CommitMoves(d, ProposalOf(g.workers[id]), lag, key);
    case CancelRun(id, run, _, lag) => CancelMoves(d, g.workers[id].claim, g.workers[id].session, run, lag, key);
    case _ =>
  }

  /** Replies, saves and cancellations add no row, and only saves and cancellations take time. */
  lemma {:induction false} SameRows(d: Db, e: Event, w: Worker)
    ensures forall status, lost ::
      SettleReply(d, w.claim, status, lost).now == d.now && SettleReply(d, w.claim, status, lost).commands.Keys == d.commands.Keys
    ensures forall status ::
      FinishTx(d, w.claim, status).now == d.now && FinishTx(d, w.claim, status).commands.Keys == d.commands.Keys
    ensures AbandonClaim(d, w.claim).now == ExtendClaim(d, w.claim).now == d.now
    ensures AbandonClaim(d, w.claim).commands.Keys == ExtendClaim(d, w.claim).commands.Keys == d.commands.Keys
    ensures forall session, run, lag :: CancelTx(d, w.claim, session, run, lag).0.commands.Keys == d.commands.Keys
    ensures w.phase.Saving? ==> forall lag :: CommitTx(d, ProposalOf(w), lag).0.commands.Keys == d.commands.Keys
  {
    hide SealedSession, WriteEntries, RowRefusal, StillOwned, SettledCommand;
  }

  lemma {:induction false} StepBegins(g: World, e: Event, key: Id)
    requires CommandsOk(g.db) && Enabled(g, e) && key !in g.db.commands && key in Apply(g, e).db.commands
    ensures RowBegins(Apply(g, e).db.commands[key], g.db.now)
  {
    hide CommandsOk, RowBegins, ClaimCommand, InsertCommand, InsertAdmin, CommitTx, CancelTx, SettleReply, FinishTx,
         AbandonClaim, ExtendClaim, Answered, Unanswered;
    var d := g.db;
    if !e.Tick? && !e.Insert? && e.id in g.workers { SameRows(d, e, g.workers[e.id]); }
    match e
    case Insert(other, request, minted) => AdmissionMoves(d, other, request, minted, 0, key);
    case StartAdmin(_, other, body, session, owner) =>
      AdmissionMoves(d, other, Request(Admin, Some(session), body), session, owner, key);
    case TakeCommand(_, other, request, owner) => AdmissionMoves(d, other, request, 0, owner, key);
    case _ =>
  }

  /** The worker that holds the claim takes no step; it crashed, or is merely slow. */
  predicate Still(g: World, trace: seq<Event>, c: Claim)
    decreases |trace|
  {
    trace == [] || (!ActsFor(g, trace[0], c) && Still(Step(g, trace[0]), trace[1..], c))
  }

  lemma {:induction false} StepReachable(g: World, e: Event)
    requires Reachable(g)
    ensures Reachable(Step(g, e)) && g.db.now <= Step(g, e).db.now && g.db.commands.Keys <= Step(g, e).db.commands.Keys
  {
    hide Step, WorldOk, DbOk;
    var now, trace :| g == After(Initial(now), trace);
    AfterMore(Initial(now), trace, e);
    ReachableOk(g);
    StepKeeps(g, e);
  }

  lemma {:induction false} AfterMore(g: World, trace: seq<Event>, e: Event)
    ensures After(g, trace + [e]) == Step(After(g, trace), e)
    decreases |trace|
  {
    hide Step;
    if trace != [] {
      assert (trace + [e])[1..] == trace[1..] + [e];
      AfterMore(Step(g, trace[0]), trace[1..], e);
    }
  }

  lemma {:induction false} LaterThan(g: World, trace: seq<Event>)
    requires Reachable(g)
    ensures g.db.now <= After(g, trace).db.now
  {
    hide WorldOk, DbOk, Reachable;
    ReachableOk(g);
    RunKeeps(g, trace);
  }

  /** Until a claim's lease runs out, nothing that anybody else does, in any order, touches the row. */
  lemma {:induction false} LiveClaimIsUntouched(g: World, trace: seq<Event>, key: Id)
    requires Reachable(g) && key in g.db.commands && g.db.commands[key].lease.Some?
    requires var row := g.db.commands[key];
      Still(g, trace, Claim(key, row.lease.value.owner, row.fence)) && After(g, trace).db.now < row.lease.value.expires
    ensures key in After(g, trace).db.commands && After(g, trace).db.commands[key] == g.db.commands[key]
    decreases |trace|
  {
    hide Step, Reachable, RowMoves, RowBegins;
    if trace != [] {
      var g' := Step(g, trace[0]);
      StepReachable(g, trace[0]);
      LaterThan(g', trace[1..]);
      CommandLifecycle(g, trace[0], key);
      LiveClaimIsUntouched(g', trace[1..], key);
    }
  }

  // ------------------------------------------------------------ the execution lease of a session

  predicate LeaseGranted(s: Session, s': Session, t: int) {
    (s.lease.Some? ==> s.lease.value.expires <= t) &&
    s'.lease.Some? && s'.lease.value.expires == t + 30 && s'.fence == s.fence + 1
  }

  predicate LeaseRenewed(s: Session, s': Session, t: int) {
    s.lease.Some? && s.lease.value.expires > t && s'.lease == Some(Lease(s.lease.value.owner, t + 30)) && s'.fence == s.fence
  }

  predicate LeaseReleased(s: Session, s': Session) {
    s.lease.Some? && s'.lease.None? && s'.fence == s.fence
  }

  /** The event is a step of a worker holding this lease of this session. */
  predicate ActsUnder(g: World, e: Event, session: Id, h: Held) {
    (e.Renew? || e.Release?) && e.id in g.workers && g.workers[e.id].session == session && g.workers[e.id].held == Some(h)
  }

  /** In every step of every run a session's lease stays, is granted over none or over one that ran out, is renewed
      while live, or is released; and while it is live only the worker that holds it can change it. */
  lemma {:induction false} LeaseLifecycle(g: World, e: Event, id: Id)
    requires Reachable(g) && id in g.db.sessions
    ensures id in Step(g, e).db.sessions
    ensures var s, s' := g.db.sessions[id], Step(g, e).db.sessions[id];
      ((s'.lease == s.lease && s'.fence == s.fence) || LeaseGranted(s, s', g.db.now) || LeaseRenewed(s, s', g.db.now) ||
       LeaseReleased(s, s')) &&
      (s'.lease != s.lease && s.lease.Some? && s.lease.value.expires > g.db.now ==>
        ActsUnder(g, e, id, Held(s.lease.value.owner, s.fence)))
  {
    hide CancelTx, SettleReply, FinishTx, AbandonClaim, ExtendClaim, InsertCommand, ClaimCommand, InsertAdmin, CommitTx,
         Answered, Unanswered, Reachable;
    if Enabled(g, e) {
      SameLeases(g.db, e, id);
      if e.Attempt? { CommitKeepsLease(g.db, ProposalOf(g.workers[e.id]), e.lag, id); }
      if !e.Tick? && !e.Insert? && e.id in g.workers { SameSessions(g.db, g.workers[e.id]); }
    }
  }

  lemma {:induction false} CommitKeepsLease(d: Db, p: Proposal, lag: nat, id: Id)
    requires id in d.sessions
    ensures var d' := CommitTx(d, p, lag).0;
      id in d'.sessions && d'.sessions[id].lease == d.sessions[id].lease && d'.sessions[id].fence == d.sessions[id].fence
  {
    hide WriteEntries, RowRefusal, StillOwned, SettledCommand, ReleaseOrigin;
  }

  lemma {:induction false} SameLeases(d: Db, e: Event, id: Id)
    ensures forall key, request, minted :: InsertCommand(d, key, request, minted).sessions == d.sessions
    ensures forall key, request, owner :: ClaimCommand(d, key, request, owner).0.sessions == d.sessions
    ensures forall key, request, session, owner :: InsertAdmin(d, key, request, session, owner).sessions == d.sessions
  {
  }

  lemma {:induction false} SameSessions(d: Db, w: Worker)
    ensures forall status, lost :: SettleReply(d, w.claim, status, lost).sessions == d.sessions
    ensures forall status :: FinishTx(d, w.claim, status).sessions == d.sessions
    ensures AbandonClaim(d, w.claim).sessions == ExtendClaim(d, w.claim).sessions == d.sessions
    ensures forall session, run, lag :: CancelTx(d, w.claim, session, run, lag).0.sessions == d.sessions
  {
  }

  // ------------------------------------------------------------ at most one holder

  ghost predicate ClaimsApart(workers: map<Id, Worker>) {
    forall v, w | v in workers && w in workers && v != w && workers[v].claim.key == workers[w].claim.key ::
      workers[v].claim.fence != workers[w].claim.fence
  }

  ghost predicate HeldsApart(workers: map<Id, Worker>) {
    forall v, w | v in workers && w in workers && v != w && BothHold(workers[v], workers[w]) ::
      workers[v].held.value.fence != workers[w].held.value.fence
  }

  predicate BothHold(v: Worker, w: Worker) {
    v.session == w.session && v.held.Some? && w.held.Some?
  }

  /** The fence a worker holds is not ahead of its session's. */
  predicate Behind(sessions: map<Id, Session>, w: Worker) {
    w.held.Some? ==> w.session in sessions && w.held.value.fence <= sessions[w.session].fence
  }

  /** No two workers won a command or a session under the same fence. */
  ghost predicate FencesApart(g: World) {
    ClaimsApart(g.workers) && HeldsApart(g.workers) && forall v :: v in g.workers ==> Behind(g.db.sessions, g.workers[v])
  }

  /** A worker keeps its claim; a new claim, like a new lease, comes under a fence higher than any before. */
  predicate Succeeds(g: World, g': World, id: Id)
    requires id in g'.workers
  {
    var w' := g'.workers[id];
    if id in g.workers then
      var w := g.workers[id];
      w'.claim == w.claim && w'.session == w.session && (w'.held == w.held || FirstHeld(g.db, g'.db, w'))
    else w'.held.None? && (w'.claim.key in g.db.commands ==> w'.claim.fence > g.db.commands[w'.claim.key].fence)
  }

  predicate FirstHeld(d: Db, d': Db, w: Worker) {
    w.held.Some? && w.session in d.sessions && w.session in d'.sessions &&
    w.held.value.fence == d'.sessions[w.session].fence == d.sessions[w.session].fence + 1
  }

  lemma {:induction false} WorkersSucceed(g: World, e: Event, id: Id)
    requires id in Step(g, e).workers
    ensures Succeeds(g, Step(g, e), id)
  {
    hide CancelTx, SettleReply, FinishTx, AbandonClaim, ExtendClaim, InsertCommand, CommitTx;
  }

  lemma {:induction false} OthersUnchanged(g: World, e: Event, id: Id, other: Id)
    requires id in Step(g, e).workers && other in Step(g, e).workers && other != id
    requires id !in g.workers || Step(g, e).workers[id] != g.workers[id]
    ensures other in g.workers && Step(g, e).workers[other] == g.workers[other]
  {
    hide CancelTx, SettleReply, FinishTx, AbandonClaim, ExtendClaim, InsertCommand, CommitTx, Answered, Unanswered;
  }

  /** Of two workers at most one moves in a step. */
  predicate OneMoves(g: World, g': World, v: Id, w: Id)
    requires v in g'.workers && w in g'.workers
  {
    (v in g.workers && g'.workers[v] == g.workers[v]) || (w in g.workers && g'.workers[w] == g.workers[w])
  }

  lemma {:induction false} ClaimsStayApart(g: World, g': World)
    requires ClaimsApart(g.workers) && forall id :: id in g'.workers ==> Succeeds(g, g', id)
    requires forall id :: id in g.workers ==> ClaimKnown(g.db, g.workers[id])
    requires forall v, w | v in g'.workers && w in g'.workers && v != w :: OneMoves(g, g', v, w)
    ensures ClaimsApart(g'.workers)
  {
    hide FirstHeld;
  }

  predicate ClaimKnown(d: Db, w: Worker) {
    w.claim.key in d.commands && w.claim.fence <= d.commands[w.claim.key].fence
  }

  lemma {:induction false} HeldsStayApart(g: World, g': World)
    requires HeldsApart(g.workers) && forall id :: id in g'.workers ==> Succeeds(g, g', id)
    requires forall v :: v in g.workers ==> Behind(g.db.sessions, g.workers[v])
    requires forall v, w | v in g'.workers && w in g'.workers && v != w :: OneMoves(g, g', v, w)
    ensures HeldsApart(g'.workers)
  {
  }

  lemma {:induction false} StepKeepsApart(g: World, e: Event)
    requires WorldOk(g) && FencesApart(g)
    ensures FencesApart(Step(g, e))
  {
    hide Step, DbOk, OutboxOk, InStep, ClaimsApart, HeldsApart;
    var g' := Step(g, e);
    StepKeeps(g, e);
    forall id | id in g.workers ensures ClaimKnown(g.db, g.workers[id]) {
      assert WorkerOk(g.db, g.workers[id]);
    }
    forall id | id in g'.workers ensures Succeeds(g, g', id) { WorkersSucceed(g, e, id); }
    forall v, w | v in g'.workers && w in g'.workers && v != w ensures OneMoves(g, g', v, w) {
      if v !in g.workers || g'.workers[v] != g.workers[v] { OthersUnchanged(g, e, v, w); }
    }
    assert forall v, w | v in g'.workers && w in g'.workers && v != w :: OneMoves(g, g', v, w);
    ClaimsStayApart(g, g');
    HeldsStayApart(g, g');
    forall v | v in g'.workers ensures Behind(g'.db.sessions, g'.workers[v]) {
      if v in g.workers && g.workers[v].held.Some? {
        assert SessionGrows(g.db.sessions[g.workers[v].session], g'.db.sessions[g.workers[v].session]);
      }
    }
  }

  lemma {:induction false} RunKeepsApart(g: World, trace: seq<Event>)
    requires WorldOk(g) && FencesApart(g)
    ensures FencesApart(After(g, trace))
    decreases |trace|
  {
    hide WorldOk, FencesApart, Step;
    if trace != [] {
      StepKeeps(g, trace[0]);
      StepKeepsApart(g, trace[0]);
      RunKeepsApart(Step(g, trace[0]), trace[1..]);
    }
  }

  /** In every reachable state a command's row names the claim of at most one worker, and so does a session's lease,
      however often workers were replaced. */
  lemma {:induction false} OneHolder(g: World, v: Id, w: Id)
    requires Reachable(g) && v in g.workers && w in g.workers && v != w
    ensures var a, b := g.workers[v].claim, g.workers[w].claim;
      a.key == b.key && a.key in g.db.commands ==>
        !(g.db.commands[a.key].fence == a.fence && g.db.commands[a.key].fence == b.fence)
    ensures var a, b := g.workers[v], g.workers[w];
      a.session == b.session && a.session in g.db.sessions && a.held.Some? && b.held.Some? ==>
        !(g.db.sessions[a.session].fence == a.held.value.fence && g.db.sessions[a.session].fence == b.held.value.fence)
  {
    hide WorldOk;
    var now, trace :| g == After(Initial(now), trace);
    InitialOk(now);
    RunKeepsApart(Initial(now), trace);
  }
}
