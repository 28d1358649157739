module Options {
  datatype Option<+T> = None | Some(value: T)

  /** A part as large as the whole is the whole. */
  lemma {:induction false} FullSubset<T>(a: set<T>, b: set<T>)
    requires a <= b && |a| == |b|
    ensures a == b
  {
    assert |b - a| == |b| - |a|;
  }
}

/** The rows of the shared database and the transactions that change them.
    Every function below is one atomic transaction; `lag` is how far the
    database clock moves between its first and its last lease check. */
module Ledger {
  import opened Options

  type Id = nat

  const LEASE_SECONDS := 30
  const ADMIN_LEASE_SECONDS := 300

  datatype CommandKind = Create | Append | Cancel | Run | Admin

  /** The fingerprinted part of a request: its kind, the session in its route, its body. */
  datatype Request = Request(kind: CommandKind, route: Option<Id>, body: Id)

  datatype Status = Pending | Started | Succeeded | Failed | Uncertain | Blocked
  datatype Lease = Lease(owner: Id, expires: int)
  datatype Body = Snapshot(session: Id, revision: nat) | CancelReport(run: Id, hit: bool) | Detail
  datatype Response = Response(status: int, body: Body)

  /** A row of `agent_commands`; its key stands for the idempotency key and the command id. */
  datatype Command = Command(request: Request, target: Id, status: Status,
                             response: Option<Response>, lease: Option<Lease>, fence: nat)

  /** What a request handler remembers of the claim it won. */
  datatype Claim = Claim(key: Id, owner: Id, fence: nat)
  /** What a worker remembers of the execution lease it acquired. */
  datatype Held = Held(owner: Id, fence: nat)

  datatype EventKind =
    | SessionCreated | UserAppended | Checkpoint | Resumed
    | Interrupted(origin: Option<Id>) | Finished(blocked: bool)
    | TelemetryArchived | Reconciled(origin: Option<Id>)

  datatype Entry = Entry(id: Id, isMessage: bool, payload: Id, sequence: nat)
  datatype RunMark = RunMark(run: Id, running: bool)

  /** One call of `save_inner`: the worker's clone of the session and the event. */
  datatype Proposal = Proposal(claim: Claim, session: Id, held: Option<Held>, revision: nat, base: nat,
                               outbox: seq<Entry>, commit: Id, event: EventKind, run: Option<RunMark>)
  /** The digest is taken to be injective, so it is the digested content itself. */
  datatype Fingerprint = Fingerprint(command: Id, session: Id, revision: nat, base: nat,
                                     outbox: seq<Entry>, event: EventKind, run: Option<RunMark>)
  datatype Receipt = Receipt(commit: Id, command: Id, fingerprint: Fingerprint, expected: nat, committed: nat)
  datatype Anchor = Anchor(commit: Id, fingerprint: Fingerprint)

  datatype Session = Session(revision: nat, contextRevision: nat, last: Anchor, next: nat,
                             lease: Option<Lease>, fence: nat,
                             receipts: seq<Receipt>, transcript: seq<Entry>)

  /** Committed effects in commit order; the `Saved` ones are the rows of `agent_session_events`. */
  datatype Committed =
    | Saved(session: Id, revision: nat, commit: Id, command: Id, event: EventKind, held: Option<Held>)
    | Cancelled(session: Id, command: Id, run: Id, hit: bool)

  datatype RunRow = RunRow(session: Id, running: bool, cancelRequested: bool)

  datatype Db = Db(now: int, commands: map<Id, Command>, sessions: map<Id, Session>,
                   runs: map<Id, RunRow>, journal: seq<Committed>)

  function FingerprintOf(p: Proposal): Fingerprint {
    Fingerprint(p.claim.key, p.session, p.revision, p.base, p.outbox, p.event, p.run)
  }

  predicate OneShot(kind: CommandKind) {
    kind == Create || kind == Append || kind == Cancel
  }

  /** Which events the handler of a command may commit. */
  predicate EventFits(kind: CommandKind, event: EventKind) {
    match event
    case SessionCreated => kind == Create
    case UserAppended => kind == Append
    case Checkpoint | Resumed | Interrupted(_) | Finished(_) => kind == Run
    case TelemetryArchived | Reconciled(_) => kind == Admin
  }

  /** Events whose commit also stores the command's response. */
  predicate Settles(event: EventKind) {
    match event
    case SessionCreated | UserAppended | TelemetryArchived | Reconciled(_) => true
    case Finished(blocked) => !blocked
    case _ => false
  }

  predicate Free(lease: Option<Lease>, t: int) {
    lease.None? || lease.value.expires <= t
  }

  /** `commands::guard`: the claim still owns the started command and its lease is live at `t`. */
  predicate Holds(d: Db, c: Claim, t: int) {
    c.key in d.commands &&
    var row := d.commands[c.key];
    row.status == Started && row.fence == c.fence &&
    row.lease.Some? && row.lease.value.owner == c.owner && row.lease.value.expires > t
  }

  // ------------------------------------------------------------ admission

  /** Insert the command row unless the key exists or the routed session does not. */
  function InsertCommand(d: Db, key: Id, request: Request, minted: Id): Db {
    if key in d.commands then d
    else if request.route.Some? && request.route.value !in d.sessions then d
    else
      var target := if request.route.Some? then request.route.value else minted;
      d.(commands := d.commands[key := Command(request, target, Pending, None, None, 0)])
  }

  datatype Admission =
    | NotFound | KeyReused | Replayed(response: Response) | InProgress(status: Status) | Claimed(claim: Claim)

  /** Read the row for a key, replay its response, or try to claim it under a higher fence. */
  function ClaimCommand(d: Db, key: Id, request: Request, owner: Id): (Db, Admission) {
    if key !in d.commands then (d, NotFound)
    else
      var row := d.commands[key];
      if row.request != request then (d, KeyReused)
      else if row.response.Some? then (d, Replayed(row.response.value))
      else if (row.status == Pending || row.status == Started) && Free(row.lease, d.now) then
        var lease := Lease(owner, d.now + LEASE_SECONDS);
        (d.(commands := d.commands[key := row.(status := Started, lease := Some(lease), fence := row.fence + 1)]),
         Claimed(Claim(key, owner, row.fence + 1)))
      else (d, InProgress(row.status))
  }

  /** `commands::administrative`: an operator's command starts claimed, with fence 1. */
  function InsertAdmin(d: Db, key: Id, request: Request, session: Id, owner: Id): Db {
    if key in d.commands || session !in d.sessions then d
    else
      var lease := Lease(owner, d.now + ADMIN_LEASE_SECONDS);
      d.(commands := d.commands[key := Command(request, session, Started, None, Some(lease), 1)])
  }

  function ExtendClaim(d: Db, c: Claim): Db {
    if !Holds(d, c, d.now) then d
    else
      var row := d.commands[c.key];
      d.(commands := d.commands[c.key := row.(lease := Some(Lease(c.owner, d.now + LEASE_SECONDS)))])
  }

  function Terminal(row: Command, response: Response): Command {
    row.(status := if response.status >= 400 then Failed else Succeeded,
         response := Some(response), lease := None)
  }

  /** The update after the handler returned: store its reply, or leave the outcome uncertain. */
  function SettleReply(d: Db, c: Claim, status: int, lostLease: bool): Db {
    if !Holds(d, c, d.now) then d
    else
      var row := d.commands[c.key];
      var row' := if status >= 500 || lostLease then row.(status := Uncertain, lease := None)
                  else Terminal(row, Response(status, Detail));
      d.(commands := d.commands[c.key := row'])
  }

  /** A streaming worker that cannot learn a commit's outcome gives its command up. */
  function AbandonClaim(d: Db, c: Claim): Db {
    if c.key !in d.commands then d
    else
      var row := d.commands[c.key];
      if row.status == Started && row.fence == c.fence && row.lease.Some? && row.lease.value.owner == c.owner then
        d.(commands := d.commands[c.key := row.(status := Uncertain, lease := None)])
      else d
  }

  // ------------------------------------------------------------ execution leases

  function AcquireLease(d: Db, session: Id, owner: Id): (Db, Option<Held>) {
    if session !in d.sessions then (d, None)
    else
      var s := d.sessions[session];
      if !Free(s.lease, d.now) then (d, None)
      else
        var lease := Lease(owner, d.now + LEASE_SECONDS);
        (d.(sessions := d.sessions[session := s.(lease := Some(lease), fence := s.fence + 1)]),
         Some(Held(owner, s.fence + 1)))
  }

  predicate OwnsLease(s: Session, h: Held) {
    s.lease.Some? && s.lease.value.owner == h.owner && s.fence == h.fence
  }

  function RenewLease(d: Db, session: Id, h: Held): Db {
    if session !in d.sessions then d
    else
      var s := d.sessions[session];
      if OwnsLease(s, h) && s.lease.value.expires > d.now then
        d.(sessions := d.sessions[session := s.(lease := Some(Lease(h.owner, d.now + LEASE_SECONDS)))])
      else d
  }

  function ReleaseLease(d: Db, session: Id, h: Held): Db {
    if session !in d.sessions then d
    else
      var s := d.sessions[session];
      if OwnsLease(s, h) then d.(sessions := d.sessions[session := s.(lease := None)]) else d
  }

  // ------------------------------------------------------------ transcript rows

  function FindEntry(log: seq<Entry>, id: Id): (r: Option<nat>)
    ensures r.None? ==> forall i :: 0 <= i < |log| ==> log[i].id != id
    ensures r.Some? ==> r.value < |log| && log[r.value].id == id
  {
    if log == [] then None
    else if log[|log| - 1].id == id then Some(|log| - 1)
    else FindEntry(log[..|log| - 1], id)
  }

  function MaxSequence(log: seq<Entry>): nat {
    if log == [] then 0
    else
      var rest := MaxSequence(log[..|log| - 1]);
      if log[|log| - 1].sequence > rest then log[|log| - 1].sequence else rest
  }

  /** An entry already stored under its id must agree with the stored row. */
  predicate SameRecord(stored: Entry, e: Entry) {
    stored.isMessage == e.isMessage && stored.payload == e.payload &&
    (stored.sequence == e.sequence || e.isMessage)
  }

  /** Append staged entries with consecutive numbers; stored identities are skipped, or refused if changed. */
  function WriteEntries(log: seq<Entry>, staged: seq<Entry>): Option<seq<Entry>>
    decreases |staged|
  {
    if staged == [] then Some(log)
    else
      match FindEntry(log, staged[0].id)
      case Some(i) => if SameRecord(log[i], staged[0]) then WriteEntries(log, staged[1..]) else None
      case None => WriteEntries(log + [staged[0].(sequence := |log| + 1)], staged[1..])
  }

  // ------------------------------------------------------------ save_inner

  function FindReceipt(receipts: seq<Receipt>, commit: Id): (r: Option<nat>)
    ensures r.None? ==> forall i :: 0 <= i < |receipts| ==> receipts[i].commit != commit
    ensures r.Some? ==> r.value < |receipts| && receipts[r.value].commit == commit
  {
    if receipts == [] then None
    else if receipts[|receipts| - 1].commit == commit then Some(|receipts| - 1)
    else FindReceipt(receipts[..|receipts| - 1], commit)
  }

  datatype Refusal =
    | IdentityReused | CommandLeaseLost | RevisionConflict | Fenced | SequenceGap | TranscriptConflict

  datatype Outcome =
    | Done(revision: nat, next: nat)
    | Found(revision: nat, reload: bool)
    | Refused(why: Refusal)

  /** The checks a commit makes against the stored session row before it writes anything. */
  function RowRefusal(d: Db, p: Proposal): Option<Refusal> {
    if p.session !in d.sessions then
      if p.revision != 0 then Some(RevisionConflict) else None
    else
      var s := d.sessions[p.session];
      var owner := if s.lease.Some? then Some(s.lease.value.owner) else None;
      var expected := if p.held.Some? then Some(p.held.value.owner) else None;
      if s.revision != p.revision then Some(RevisionConflict)
      else if owner != expected then Some(Fenced)
      else if owner.Some? && (p.held.value.fence != s.fence || s.lease.value.expires <= d.now) then Some(Fenced)
      else if MaxSequence(s.transcript) != |s.transcript| || s.next != |s.transcript| + 1 then Some(SequenceGap)
      else None
  }

  function Log(d: Db, session: Id): seq<Entry> {
    if session in d.sessions then d.sessions[session].transcript else []
  }

  /** The execution lease is checked again just before the snapshot is replaced. */
  predicate StillOwned(d: Db, p: Proposal, t: int) {
    p.held.Some? ==>
      p.session in d.sessions && OwnsLease(d.sessions[p.session], p.held.value) &&
      d.sessions[p.session].lease.value.expires > t
  }

  function ResponseTo(p: Proposal, revision: nat): Response {
    Response(if p.event == SessionCreated then 201 else 200, Snapshot(p.session, revision))
  }

  function SealedSession(d: Db, p: Proposal, log: seq<Entry>): Session {
    var fp := FingerprintOf(p);
    if p.session in d.sessions then
      var s := d.sessions[p.session];
      var receipt := Receipt(p.commit, p.claim.key, fp, s.revision, s.revision + 1);
      s.(revision := s.revision + 1, contextRevision := s.revision + 1, last := Anchor(p.commit, fp),
         next := |log| + 1, receipts := s.receipts + [receipt], transcript := log)
    else
      Session(1, 1, Anchor(p.commit, fp), |log| + 1, None, 0,
              [Receipt(p.commit, p.claim.key, fp, 0, 1)], log)
  }

  /** An interrupted or reconciled run leaves the command that started it uncertain, once its lease is over. */
  function ReleaseOrigin(commands: map<Id, Command>, p: Proposal, t: int): map<Id, Command> {
    var origin := match p.event case Interrupted(o) => o case Reconciled(o) => o case _ => None;
    if origin.None? || origin.value == p.claim.key || origin.value !in commands then commands
    else
      var row := commands[origin.value];
      if (row.status == Pending || row.status == Started) && Free(row.lease, t) then
        commands[origin.value := row.(status := Uncertain, lease := None)]
      else commands
  }

  function SettledCommand(row: Command, p: Proposal, revision: nat): Command {
    if p.event == Finished(true) then row.(status := Blocked, lease := None)
    else if Settles(p.event) then Terminal(row, ResponseTo(p, revision))
    else row
  }

  /** Everything a successful commit writes, at once. */
  function Sealed(d: Db, p: Proposal, log: seq<Entry>, t: int): Db
    requires p.claim.key in d.commands
  {
    var s := SealedSession(d, p, log);
    var released := ReleaseOrigin(d.commands, p, t);
    var runs := if p.run.None? then d.runs else
      var mark := p.run.value;
      d.runs[mark.run := RunRow(p.session, mark.running, mark.run in d.runs && d.runs[mark.run].cancelRequested)];
    Db(t,
       released[p.claim.key := SettledCommand(d.commands[p.claim.key], p, s.revision)],
       d.sessions[p.session := s],
       runs,
       d.journal + [Saved(p.session, s.revision, p.commit, p.claim.key, p.event, p.held)])
  }

  /** `save_inner`, from the receipt lookup to the commit. A refusal rolls everything back. */
  function CommitTx(d: Db, p: Proposal, lag: nat): (Db, Outcome) {
    var late := d.(now := d.now + lag);
    var found := if p.session in d.sessions then FindReceipt(d.sessions[p.session].receipts, p.commit) else None;
    if found.Some? then
      var s := d.sessions[p.session];
      if s.receipts[found.value].fingerprint != FingerprintOf(p) then (late, Refused(IdentityReused))
      else
        var committed := s.receipts[found.value].committed;
        (late, Found(committed, committed != s.revision))
    else if !Holds(d, p.claim, d.now) then (late, Refused(CommandLeaseLost))
    else if RowRefusal(d, p).Some? then (late, Refused(RowRefusal(d, p).value))
    else
      match WriteEntries(Log(d, p.session), p.outbox)
      case None => (late, Refused(TranscriptConflict))
      case Some(log) =>
        if !StillOwned(d, p, late.now) then (late, Refused(Fenced))
        else if !Holds(d, p.claim, late.now) then (late, Refused(CommandLeaseLost))
        else
          var d' := Sealed(d, p, log, late.now);
          (d', Done(d'.sessions[p.session].revision, d'.sessions[p.session].next))
  }

  /** `cancel_session`: flag the run if it is running, and settle the command in the same transaction. */
  function CancelTx(d: Db, c: Claim, session: Id, run: Id, lag: nat): (Db, bool) {
    var late := d.(now := d.now + lag);
    if session !in d.sessions || !Holds(d, c, d.now) || !Holds(d, c, late.now) then (late, false)
    else
      var hit := run in d.runs && d.runs[run].session == session && d.runs[run].running;
      var runs := if hit then d.runs[run := d.runs[run].(cancelRequested := true)] else d.runs;
      (late.(commands := d.commands[c.key := Terminal(d.commands[c.key], Response(200, CancelReport(run, hit)))],
             runs := runs,
             journal := d.journal + [Cancelled(session, c.key, run, hit)]),
       true)
  }

  /** `commands::finish` called on its own, for an operator command that has nothing left to do. */
  function FinishTx(d: Db, c: Claim, status: int): Db {
    if !Holds(d, c, d.now) then d
    else d.(commands := d.commands[c.key := Terminal(d.commands[c.key], Response(status, Detail))])
  }
}
