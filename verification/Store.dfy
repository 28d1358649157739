/** The database as an object whose transactions update it in place, and the retrying `save` above it. */
module Store {
  import opened Options
  import opened Ledger
  import opened LedgerWorld
  import opened LedgerInvariants

  class Store {
    var now: int
    var commands: map<Id, Command>
    var sessions: map<Id, Session>
    var runs: map<Id, RunRow>
    var journal: seq<Committed>

    constructor (start: int)
      ensures State() == Initial(start).db
    {
      now, commands, sessions, runs, journal := start, map[], map[], map[], [];
    }

    function State(): Db
      reads this
    {
      Db(now, commands, sessions, runs, journal)
    }

    /** `admit`: insert the row if its key is new, then replay, refuse or claim. */
    method Admit(key: Id, request: Request, minted: Id, owner: Id) returns (admission: Admission)
      modifies this
      ensures (State(), admission) ==
              ClaimCommand(InsertCommand(old(State()), key, request, minted), key, request, owner)
      ensures State() == old(State()).(commands := commands)
      // a key seen before: another request, an answer, a live claim, or an outcome left to an operator change nothing
      ensures key in old(commands) && !admission.Claimed? ==> commands == old(commands)
      ensures key in old(commands) ==> var row := old(commands)[key];
        (admission == KeyReused <==> row.request != request) &&
        (row.request == request && row.response.Some? ==> admission == Replayed(row.response.value)) &&
        (row.request == request && row.response.None? && row.lease.Some? && row.lease.value.expires > now ==>
          admission == InProgress(row.status)) &&
        (admission.Claimed? <==>
          row.request == request && row.response.None? && (row.status == Pending || row.status == Started) &&
          (row.lease.Some? ==> row.lease.value.expires <= now)) &&
        (admission.Claimed? ==>
          admission.claim == Claim(key, owner, row.fence + 1) &&
          commands == old(commands)[key :=
            row.(status := Started, lease := Some(Lease(owner, now + 30)), fence := row.fence + 1)])
      // a new key: its row starts out claimed, unless the session it is routed to does not exist
      ensures key !in old(commands) && request.route.Some? && request.route.value !in sessions ==>
        admission == NotFound && commands == old(commands)
      ensures key !in old(commands) && (request.route.Some? ==> request.route.value in sessions) ==>
        var target := if request.route.Some? then request.route.value else minted;
        admission == Claimed(Claim(key, owner, 1)) &&
        commands == old(commands)[key := Command(request, target, Started, None, Some(Lease(owner, now + 30)), 1)]
    {
      if key !in commands {
        if request.route.Some? && request.route.value !in sessions { return NotFound; }
        var target := if request.route.Some? then request.route.value else minted;
        commands := commands[key := Command(request, target, Pending, None, None, 0)];
      }
      var row := commands[key];
      if row.request != request { return KeyReused; }
      if row.response.Some? { return Replayed(row.response.value); }
      if (row.status == Pending || row.status == Started) && Free(row.lease, now) {
        var fence := row.fence + 1;
        commands := commands[key := row.(status := Started, lease := Some(Lease(owner, now + LEASE_SECONDS)), fence := fence)];
        return Claimed(Claim(key, owner, fence));
      }
      return InProgress(row.status);
    }

    method Acquire(session: Id, owner: Id) returns (held: Option<Held>)
      modifies this`sessions
      ensures (State(), held) == AcquireLease(old(State()), session, owner)
      ensures held.Some? <==>
        session in old(sessions) &&
        (old(sessions)[session].lease.Some? ==> old(sessions)[session].lease.value.expires <= now)
      ensures held.None? ==> sessions == old(sessions)
      ensures held.Some? ==>
        var fence := old(sessions)[session].fence + 1;
        held == Some(Held(owner, fence)) &&
        sessions == old(sessions)[session :=
          old(sessions)[session].(lease := Some(Lease(owner, now + 30)), fence := fence)]
    {
      held := None;
      if session in sessions && Free(sessions[session].lease, now) {
        var fence := sessions[session].fence + 1;
        sessions := sessions[session := sessions[session].(lease := Some(Lease(owner, now + LEASE_SECONDS)), fence := fence)];
        held := Some(Held(owner, fence));
      }
    }

    /** Renewal fails once the lease has expired, changed owner or been fenced off. */
    method Renew(session: Id, held: Held) returns (ok: bool)
      modifies this`sessions
      ensures State() == RenewLease(old(State()), session, held)
      ensures ok <==>
        session in old(sessions) &&
        var row := old(sessions)[session];
        row.lease.Some? && row.lease.value.owner == held.owner && row.fence == held.fence && row.lease.value.expires > now
      ensures sessions == if !ok then old(sessions)
        else old(sessions)[session := old(sessions)[session].(lease := Some(Lease(held.owner, now + 30)))]
    {
      ok := session in sessions && OwnsLease(sessions[session], held) && sessions[session].lease.value.expires > now;
      if ok {
        sessions := sessions[session := sessions[session].(lease := Some(Lease(held.owner, now + LEASE_SECONDS)))];
      }
    }

    method Release(session: Id, held: Held)
      modifies this`sessions
      ensures State() == ReleaseLease(old(State()), session, held)
      ensures sessions ==
        if session in old(sessions) && old(sessions)[session].lease.Some? &&
           old(sessions)[session].lease.value.owner == held.owner && old(sessions)[session].fence == held.fence
        then old(sessions)[session := old(sessions)[session].(lease := None)] else old(sessions)
    {
      if session in sessions && OwnsLease(sessions[session], held) {
        sessions := sessions[session := sessions[session].(lease := None)];
      }
    }

    /** The transcript loop of a commit: skip stored identities, refuse changed ones, number new ones. */
    method WriteTranscript(log: seq<Entry>, staged: seq<Entry>) returns (written: Option<seq<Entry>>)
      ensures written == WriteEntries(log, staged)
    {
      var rows, next := log, |log| + 1;
      var i := 0;
      while i < |staged|
        invariant 0 <= i <= |staged| && next == |rows| + 1
        invariant WriteEntries(rows, staged[i..]) == WriteEntries(log, staged)
      {
        assert staged[i..][1..] == staged[i + 1..];
        var found := FindEntry(rows, staged[i].id);
        if found.None? {
          rows := rows + [staged[i].(sequence := next)];
          next := next + 1;
        } else if !SameRecord(rows[found.value], staged[i]) {
          return None;
        }
        i := i + 1;
      }
      return Some(rows);
    }

    /** `save_inner`: one transaction; a refusal leaves every row as it was. */
    method Commit(p: Proposal, lag: nat) returns (outcome: Outcome)
      modifies this
      ensures (State(), outcome) == CommitTx(old(State()), p, lag)
    {
      ghost var before := State();
      var began := now;
      now := now + lag;
      if p.session in sessions {
        var found := FindReceipt(sessions[p.session].receipts, p.commit);
        if found.Some? {
          var receipt := sessions[p.session].receipts[found.value];
          if receipt.fingerprint != FingerprintOf(p) { return Refused(IdentityReused); }
          return Found(receipt.committed, receipt.committed != sessions[p.session].revision);
        }
      }
      var start := State().(now := began);
      if !Holds(start, p.claim, began) { return Refused(CommandLeaseLost); }
      var refusal := RowRefusal(start, p);
      if refusal.Some? { return Refused(refusal.value); }
      var written := WriteTranscript(Log(start, p.session), p.outbox);
      if written.None? { return Refused(TranscriptConflict); }
      if !StillOwned(start, p, now) { return Refused(Fenced); }
      if !Holds(start, p.claim, now) { return Refused(CommandLeaseLost); }
      var row := SealedSession(start, p, written.value);
      sessions := sessions[p.session := row];
      var command := SettledCommand(commands[p.claim.key], p, row.revision);
      commands := ReleaseOrigin(commands, p, now)[p.claim.key := command];
      if p.run.Some? {
        var run := p.run.value.run;
        runs := runs[run := RunRow(p.session, p.run.value.running, run in runs && runs[run].cancelRequested)];
      }
      journal := journal + [Saved(p.session, row.revision, p.commit, p.claim.key, p.event, p.held)];
      return Done(row.revision, row.next);
    }

    /** `cancel_session`. */
    method CancelRun(c: Claim, session: Id, run: Id, lag: nat) returns (done: bool)
      modifies this
      ensures (State(), done) == CancelTx(old(State()), c, session, run, lag)
      ensures done <==>
        session in old(sessions) && c.key in old(commands) &&
        var row := old(commands)[c.key];
        row.status == Started && row.fence == c.fence && row.lease.Some? && row.lease.value.owner == c.owner &&
        row.lease.value.expires > now
      ensures !done ==> State() == old(State()).(now := now)
      // a running run of this session is flagged, nothing else is, and the answer says which it was
      ensures done ==>
        var hit := run in old(runs) && old(runs)[run].session == session && old(runs)[run].running;
        sessions == old(sessions) && runs.Keys == old(runs).Keys &&
        (forall r :: r in runs ==>
          runs[r] == old(runs)[r].(cancelRequested := old(runs)[r].cancelRequested || (hit && r == run))) &&
        commands == old(commands)[c.key := old(commands)[c.key].(status := Succeeded, lease := None,
                                  response := Some(Response(200, CancelReport(run, hit))))]
    {
      var start := State();
      now := now + lag;
      if session !in sessions || !Holds(start, c, start.now) || !Holds(start, c, now) { return false; }
      var hit := run in runs && runs[run].session == session && runs[run].running;
      if hit { runs := runs[run := runs[run].(cancelRequested := true)]; }
      commands := commands[c.key := Terminal(commands[c.key], Response(200, CancelReport(run, hit)))];
      journal := journal + [Cancelled(session, c.key, run, hit)];
      return true;
    }

    /** `save`: one proposal, retried under the same commit id while the transport fails, at most three attempts.
        `net` and `lags` are what the network and the clock do to each attempt. */
    method Save(p: Proposal, net: seq<Net>, lags: seq<nat>) returns (result: Option<Outcome>)
      requires |net| == |lags| == 3
      modifies this
      ensures (State(), result) == SaveFrom(old(State()), p, net, lags)
    {
      result := None;
      var i := 0;
      while i <= MAX_RETRIES && result.None?
        invariant 0 <= i <= MAX_RETRIES + 1
        invariant result.None? ==> SaveFrom(State(), p, net[i..], lags[i..]) == SaveFrom(old(State()), p, net, lags)
        invariant result.Some? ==> SaveFrom(old(State()), p, net, lags) == (State(), result)
      {
        assert net[i..][1..] == net[i + 1..] && lags[i..][1..] == lags[i + 1..];
        if net[i] != NotDelivered {
          var outcome := Commit(p, lags[i]);
          if net[i] == Delivered { result := Some(outcome); }
        }
        i := i + 1;
      }
    }
  }

  /** What the retry loop does to the database; `None` is the unresolved outcome. */
  function SaveFrom(d: Db, p: Proposal, net: seq<Net>, lags: seq<nat>): (Db, Option<Outcome>)
    requires |net| == |lags|
    decreases |net|
  {
    if net == [] then (d, None)
    else if net[0] == NotDelivered then SaveFrom(d, p, net[1..], lags[1..])
    else
      var (d', outcome) := CommitTx(d, p, lags[0]);
      if net[0] == Delivered then (d', Some(outcome)) else SaveFrom(d', p, net[1..], lags[1..])
  }

  function Revision(d: Db, session: Id): nat {
    if session in d.sessions then d.sessions[session].revision else 0
  }

  ghost predicate Committed(d: Db, p: Proposal) {
    p.session in d.sessions &&
    exists i :: 0 <= i < |d.sessions[p.session].receipts| &&
      d.sessions[p.session].receipts[i].commit == p.commit &&
      d.sessions[p.session].receipts[i].fingerprint == FingerprintOf(p)
  }

  lemma {:induction false} CommitAddsReceipt(d: Db, p: Proposal, lag: nat)
    ensures var (d', outcome) := CommitTx(d, p, lag);
      if outcome.Done? then Committed(d', p) && Revision(d', p.session) == Revision(d, p.session) + 1
      else d' == d.(now := d'.now) && (outcome.Found? ==> Committed(d, p))
  {
    var (d', outcome) := CommitTx(d, p, lag);
    if outcome.Done? {
      var receipts := d'.sessions[p.session].receipts;
      assert receipts[|receipts| - 1].commit == p.commit;
    }
  }

  /** Nothing is written to a session whose transcript has a gap or whose counter is off, however it came about. */
  lemma {:induction false} BrokenIsRefused(d: Db, p: Proposal, lag: nat)
    requires p.session in d.sessions && CommitTx(d, p, lag).1.Done?
    ensures var s := d.sessions[p.session];
      s.next == |s.transcript| + 1 && (forall e :: e in s.transcript ==> e.sequence <= |s.transcript|) &&
      (s.transcript != [] ==> exists e :: e in s.transcript && e.sequence == |s.transcript|)
  {
    hide MaxSequence;
    GreatestSequence(d.sessions[p.session].transcript);
  }

  lemma {:induction false} GreatestSequence(log: seq<Entry>)
    ensures forall e :: e in log ==> e.sequence <= MaxSequence(log)
    ensures log != [] && MaxSequence(log) > 0 ==> exists e :: e in log && e.sequence == MaxSequence(log)
  {
    if log != [] {
      var front, last := log[..|log| - 1], log[|log| - 1];
      GreatestSequence(front);
      assert log == front + [last];
      if last.sequence > MaxSequence(front) {
        assert last in log;
      } else if MaxSequence(log) > 0 {
        assert front != [];
        var e :| e in front && e.sequence == MaxSequence(front);
        assert e in log;
      }
    }
  }

  /** However many acknowledgements are lost, one `save` advances the revision at most once, reports success only for a
      committed proposal, and reports a refusal or an unresolved outcome without having changed more than that. */
  lemma {:induction false} SaveAtMostOnce(d: Db, p: Proposal, net: seq<Net>, lags: seq<nat>)
    requires |net| == |lags|
    ensures var (d', result) := SaveFrom(d, p, net, lags);
      (d' == d.(now := d'.now) || (Revision(d', p.session) == Revision(d, p.session) + 1 && Committed(d', p))) &&
      (result.Some? && !result.value.Refused? ==> Committed(d', p)) &&
      (Committed(d, p) ==> d' == d.(now := d'.now))
    decreases |net|
  {
    if net != [] {
      if net[0] == NotDelivered {
        SaveAtMostOnce(d, p, net[1..], lags[1..]);
      } else {
        CommitAddsReceipt(d, p, lags[0]);
        if net[0] == AckLost { SaveAtMostOnce(CommitTx(d, p, lags[0]).0, p, net[1..], lags[1..]); }
      }
    }
  }
}
