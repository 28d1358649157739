/** What every step keeps, and what therefore holds in every run. */
module LedgerInvariants {
  import opened Options
  import opened Ledger
  import opened LedgerWorld

  // ------------------------------------------------------------ rows

  ghost predicate Numbered(log: seq<Entry>) {
    (forall i :: 0 <= i < |log| ==> log[i].sequence == i + 1) &&
    (forall i, j :: 0 <= i < j < |log| ==> log[i].id != log[j].id)
  }

  /** The outboxes of the given commits, one after the other. */
  function Archived(receipts: seq<Receipt>): seq<Entry> {
    if receipts == [] then []
    else Archived(receipts[..|receipts| - 1]) + receipts[|receipts| - 1].fingerprint.outbox
  }

  /** The transcript is exactly what the receipts archived, each outbox at the numbers it was staged with. */
  ghost predicate ArchiveOk(s: Session) {
    s.transcript == Archived(s.receipts) &&
    forall i :: 0 <= i < |s.receipts| ==>
      s.receipts[i].fingerprint.base == |Archived(s.receipts[..i])| + 1 && s.receipts[i].fingerprint.revision == i
  }

  /** The commit chain of one session: receipts (0,1),(1,2),...,(n-1,n), anchors on the newest, gap-free transcript. */
  ghost predicate SessionOk(s: Session) {
    s.revision >= 1 && |s.receipts| == s.revision && s.contextRevision == s.revision &&
    (forall i :: 0 <= i < |s.receipts| ==> s.receipts[i].expected == i && s.receipts[i].committed == i + 1) &&
    (forall i, j :: 0 <= i < j < |s.receipts| ==> s.receipts[i].commit != s.receipts[j].commit) &&
    s.last == Anchor(s.receipts[s.revision - 1].commit, s.receipts[s.revision - 1].fingerprint) &&
    Numbered(s.transcript) && s.next == |s.transcript| + 1 && ArchiveOk(s)
  }

  predicate Positive(response: Option<Response>) {
    response.Some? && 200 <= response.value.status < 300
  }

  ghost predicate CommandOk(c: Command) {
    (c.status == Succeeded || c.status == Failed <==> c.response.Some?) &&
    (c.response.Some? ==> 200 <= c.response.value.status <= 599) &&
    (c.response.Some? ==> (c.status == Failed <==> c.response.value.status >= 400)) &&
    (c.lease.Some? ==> c.status == Started) &&
    (c.response.Some? && c.request.kind != Admin ==> c.response.value.status < 500) &&
    (OneShot(c.request.kind) && c.status == Succeeded ==> Positive(c.response))
  }

  predicate IsEffect(e: Committed, key: Id) {
    e.command == key && (e.Cancelled? || e.event == SessionCreated || e.event == UserAppended)
  }

  /** How many times a command's effect was committed. */
  function Effects(journal: seq<Committed>, key: Id): nat {
    if journal == [] then 0
    else Effects(journal[..|journal| - 1], key) + if IsEffect(journal[|journal| - 1], key) then 1 else 0
  }

  ghost predicate ReceiptOk(d: Db, session: Id, r: Receipt) {
    r.command == r.fingerprint.command && r.fingerprint.session == session &&
    r.command in d.commands &&
    EventFits(d.commands[r.command].request.kind, r.fingerprint.event) &&
    (Settles(r.fingerprint.event) ==> Positive(d.commands[r.command].response))
  }

  ghost predicate JournalOk(d: Db, e: Committed) {
    e.command in d.commands &&
    (e.Saved? ==>
      e.session in d.sessions && 1 <= e.revision <= d.sessions[e.session].revision &&
      |d.sessions[e.session].receipts| == d.sessions[e.session].revision &&
      d.sessions[e.session].receipts[e.revision - 1].commit == e.commit &&
      d.sessions[e.session].receipts[e.revision - 1].command == e.command &&
      (e.held.Some? ==> e.held.value.fence <= d.sessions[e.session].fence))
  }

  predicate Owned(e: Committed) {
    e.Saved? && e.held.Some?
  }

  /** Among the owned commits of one session, fences never go down. */
  ghost predicate FencesOrdered(journal: seq<Committed>) {
    forall i, j | 0 <= i < j < |journal| && Owned(journal[i]) && Owned(journal[j]) &&
      journal[i].session == journal[j].session :: journal[i].held.value.fence <= journal[j].held.value.fence
  }

  /** The effect of a create, message or cancel command is committed exactly when its response is positive. */
  ghost predicate EffectsOk(d: Db) {
    (forall k :: k !in d.commands ==> Effects(d.journal, k) == 0) &&
    (forall k :: k in d.commands ==>
      Effects(d.journal, k) ==
        if OneShot(d.commands[k].request.kind) && Positive(d.commands[k].response) then 1 else 0)
  }

  ghost predicate SessionsOk(d: Db) {
    forall id :: id in d.sessions ==> SessionOk(d.sessions[id])
  }

  ghost predicate CommandsOk(d: Db) {
    forall k :: k in d.commands ==> CommandOk(d.commands[k])
  }

  ghost predicate ReceiptsOk(d: Db) {
    forall id, i :: id in d.sessions && 0 <= i < |d.sessions[id].receipts| ==>
      ReceiptOk(d, id, d.sessions[id].receipts[i])
  }

  ghost predicate JournalRowsOk(d: Db) {
    forall i :: 0 <= i < |d.journal| ==> JournalOk(d, d.journal[i])
  }

  ghost predicate DbOk(d: Db) {
    SessionsOk(d) && CommandsOk(d) && ReceiptsOk(d) && JournalRowsOk(d) && FencesOrdered(d.journal) && EffectsOk(d)
  }

  // ------------------------------------------------------------ workers

  /** Staged entries carry the numbers the database would give them next. */
  ghost predicate OutboxOk(w: Worker) {
    (forall i :: 0 <= i < |w.outbox| ==> w.outbox[i].sequence == w.base + i) &&
    (forall i, j :: 0 <= i < j < |w.outbox| ==> w.outbox[i].id != w.outbox[j].id)
  }

  ghost predicate Disjoint(log: seq<Entry>, outbox: seq<Entry>) {
    forall i, j :: 0 <= i < |log| && 0 <= j < |outbox| ==> log[i].id != outbox[j].id
  }

  /** A worker is behind the session, or level with it; when level, its numbering is the database's. */
  ghost predicate InStep(d: Db, w: Worker) {
    if w.session in d.sessions then
      var s := d.sessions[w.session];
      w.revision <= s.revision &&
      (w.revision == s.revision ==> w.base == |s.transcript| + 1 && Disjoint(s.transcript, w.outbox))
    else w.revision == 0 && w.base == 1
  }

  ghost predicate WorkerOk(d: Db, w: Worker) {
    w.claim.key in d.commands &&
    d.commands[w.claim.key].request.kind == w.kind &&
    w.claim.fence <= d.commands[w.claim.key].fence &&
    (w.phase.Fresh? ==> w.outbox == []) &&
    (w.phase.Saving? ==> EventFits(w.kind, w.phase.event)) &&
    (w.phase.Replied? ==> 200 <= w.phase.status <= 599) &&
    (w.phase.Replied? && OneShot(w.kind) && w.phase.status < 400 ==> Positive(d.commands[w.claim.key].response)) &&
    OutboxOk(w) && InStep(d, w)
  }

  ghost predicate WorldOk(g: World) {
    DbOk(g.db) && forall id :: id in g.workers ==> WorkerOk(g.db, g.workers[id])
  }

  // ------------------------------------------------------------ growth

  /** A command keeps its request, its fence never goes down, and once answered it never changes. */
  ghost predicate CommandGrows(c: Command, c': Command) {
    c.request == c'.request && c.target == c'.target && c.fence <= c'.fence && (c.response.Some? ==> c' == c)
  }

  /** Receipts and transcript only grow, and the transcript only with the revision. */
  ghost predicate SessionGrows(s: Session, s': Session) {
    s.revision <= s'.revision && s.fence <= s'.fence &&
    s.receipts <= s'.receipts && s.transcript <= s'.transcript &&
    (s.revision == s'.revision ==> s.transcript == s'.transcript)
  }

  ghost predicate NewFenced(d: Db, e: Committed) {
    Owned(e) && e.session in d.sessions ==> e.held.value.fence >= d.sessions[e.session].fence
  }

  /** Everything that is immutable, write-once or monotone, between two states of the database. */
  ghost predicate Grows(d: Db, d': Db) {
    d.now <= d'.now &&
    (forall k :: k in d.commands ==> k in d'.commands && CommandGrows(d.commands[k], d'.commands[k])) &&
    (forall id :: id in d.sessions ==> id in d'.sessions && SessionGrows(d.sessions[id], d'.sessions[id])) &&
    d.journal <= d'.journal &&
    (forall i :: |d.journal| <= i < |d'.journal| ==> NewFenced(d, d'.journal[i]))
  }

  lemma {:induction false} GrowsReflexive(d: Db)
    ensures Grows(d, d)
  {
  }

  lemma {:induction false} GrowsTransitive(d: Db, e: Db, f: Db)
    requires Grows(d, e) && Grows(e, f)
    ensures Grows(d, f)
  {
    forall i | |d.journal| <= i < |f.journal| ensures NewFenced(d, f.journal[i]) {
      if i < |e.journal| {
        assert f.journal[i] == e.journal[i];
      } else {
        assert NewFenced(e, f.journal[i]);
      }
    }
  }

  lemma {:induction false} WorkerStable(d: Db, d': Db, w: Worker)
    requires Grows(d, d') && DbOk(d') && WorkerOk(d, w)
    ensures WorkerOk(d', w)
  {
    assert CommandGrows(d.commands[w.claim.key], d'.commands[w.claim.key]);
    if w.session in d.sessions {
      assert SessionGrows(d.sessions[w.session], d'.sessions[w.session]);
    } else if w.session in d'.sessions {
      assert SessionOk(d'.sessions[w.session]);
    }
  }

  lemma {:induction false} ReceiptStable(d: Db, d': Db, session: Id, r: Receipt)
    requires r.command in d.commands && r.command in d'.commands
    requires CommandGrows(d.commands[r.command], d'.commands[r.command])
    requires ReceiptOk(d, session, r)
    ensures ReceiptOk(d', session, r)
  {
  }

  lemma {:induction false} EffectsAppend(journal: seq<Committed>, e: Committed, key: Id)
    ensures Effects(journal + [e], key) == Effects(journal, key) + if IsEffect(e, key) then 1 else 0
  {
    assert (journal + [e])[..|journal|] == journal;
  }

  // ------------------------------------------------------------ transactions outside a commit

  /** Receipts and journal rows stay well founded while commands and sessions grow without a commit. */
  lemma {:induction false} ReferencesStable(d: Db, d': Db)
    requires ReceiptsOk(d) && JournalRowsOk(d)
    requires Grows(d, d') && d'.journal == d.journal && d'.sessions.Keys == d.sessions.Keys
    requires forall id :: id in d.sessions ==>
      d'.sessions[id].receipts == d.sessions[id].receipts && d'.sessions[id].revision == d.sessions[id].revision
    ensures ReceiptsOk(d') && JournalRowsOk(d')
  {
    forall id, i | id in d'.sessions && 0 <= i < |d'.sessions[id].receipts|
      ensures ReceiptOk(d', id, d'.sessions[id].receipts[i])
    {
      var r := d.sessions[id].receipts[i];
      assert ReceiptOk(d, id, r);
      ReceiptStable(d, d', id, r);
    }
    forall i | 0 <= i < |d'.journal| ensures JournalOk(d', d'.journal[i]) {
      assert JournalOk(d, d.journal[i]);
    }
  }

  /** Replacing an unanswered command row by a later version of itself. */
  lemma {:induction false} TouchCommand(d: Db, d': Db, key: Id, row: Command)
    requires DbOk(d) && key in d.commands
    requires d' == d.(commands := d.commands[key := row])
    requires CommandOk(row) && CommandGrows(d.commands[key], row)
    requires OneShot(row.request.kind) && Positive(row.response) ==> Positive(d.commands[key].response)
    ensures DbOk(d') && Grows(d, d')
  {
    hide SessionOk, FencesOrdered, Effects;
    ReferencesStable(d, d');
  }

  lemma {:induction false} NewCommand(d: Db, d': Db, key: Id, row: Command)
    requires DbOk(d) && key !in d.commands
    requires d' == d.(commands := d.commands[key := row])
    requires CommandOk(row) && row.response.None?
    ensures DbOk(d') && Grows(d, d')
  {
    hide SessionOk, FencesOrdered, Effects;
    ReferencesStable(d, d');
  }

  lemma {:induction false} LeaseKeepsSession(s: Session, s': Session)
    requires SessionOk(s) && s'.fence >= s.fence
    requires s' == s.(lease := s'.lease, fence := s'.fence)
    ensures SessionOk(s') && SessionGrows(s, s')
  {
  }

  lemma {:induction false} LeaseGrows(d: Db, d': Db, id: Id, s: Session)
    requires SessionsOk(d) && id in d.sessions
    requires s.fence >= d.sessions[id].fence && s == d.sessions[id].(lease := s.lease, fence := s.fence)
    requires d' == d.(sessions := d.sessions[id := s])
    ensures SessionsOk(d') && Grows(d, d')
  {
    hide SessionOk;
    LeaseKeepsSession(d.sessions[id], s);
    forall k | k in d'.sessions ensures SessionOk(d'.sessions[k]) {
      assert SessionOk(d.sessions[k]);
    }
  }

  /** Replacing a session's lease. */
  lemma {:induction false} TouchLease(d: Db, d': Db, id: Id, s: Session)
    requires DbOk(d) && id in d.sessions
    requires s.fence >= d.sessions[id].fence && s == d.sessions[id].(lease := s.lease, fence := s.fence)
    requires d' == d.(sessions := d.sessions[id := s])
    ensures DbOk(d') && Grows(d, d')
  {
    hide SessionOk, CommandOk, FencesOrdered, Effects;
    LeaseGrows(d, d', id, s);
    ReferencesStable(d, d');
  }

  lemma {:induction false} ClockKeeps(d: Db, t: int)
    requires DbOk(d) && t >= d.now
    ensures DbOk(d.(now := t)) && Grows(d, d.(now := t))
  {
    hide SessionOk, CommandOk, ReceiptOk, JournalOk, FencesOrdered, Effects;
    ClockGrows(d, t);
    ReferencesStable(d, d.(now := t));
  }

  lemma {:induction false} ClockGrows(d: Db, t: int)
    requires t >= d.now
    ensures Grows(d, d.(now := t))
  {
  }

  // ------------------------------------------------------------ the commit

  lemma {:induction false} MaxOfNumbered(log: seq<Entry>)
    requires Numbered(log)
    ensures MaxSequence(log) == |log|
  {
    if log != [] {
      var rest := log[..|log| - 1];
      assert Numbered(rest) by {
        forall i, j | 0 <= i < j < |rest| ensures rest[i].id != rest[j].id {
          assert log[i].id != log[j].id;
        }
      }
      MaxOfNumbered(rest);
    }
  }

  predicate DistinctIds(entries: seq<Entry>) {
    forall i, j :: 0 <= i < j < |entries| ==> entries[i].id != entries[j].id
  }

  /** The two are records under one identity and differ, for a message in more than its number. */
  predicate Clash(stored: Entry, e: Entry) {
    stored.id == e.id &&
    (stored.isMessage != e.isMessage || stored.payload != e.payload || (!e.isMessage && stored.sequence != e.sequence))
  }

  predicate ClashesIn(log: seq<Entry>, e: Entry) {
    exists j :: 0 <= j < |log| && Clash(log[j], e)
  }

  predicate Known(log: seq<Entry>, e: Entry) {
    exists j :: 0 <= j < |log| && log[j].id == e.id
  }

  predicate FromStaged(staged: seq<Entry>, row: Entry) {
    exists i :: 0 <= i < |staged| && row == staged[i].(sequence := row.sequence)
  }

  /** A staged list is refused exactly if some entry differs from the record stored under its identity. Otherwise stored
      records stay, each entry is stored, and the new rows are entries of the list, numbered on. */
  lemma {:induction false} WrittenRows(log: seq<Entry>, staged: seq<Entry>)
    requires DistinctIds(log) && DistinctIds(staged)
    ensures WriteEntries(log, staged).None? <==> exists i :: 0 <= i < |staged| && ClashesIn(log, staged[i])
    ensures WriteEntries(log, staged).Some? ==>
      var rows := WriteEntries(log, staged).value;
      log <= rows && (forall i :: 0 <= i < |staged| ==> Known(rows, staged[i])) &&
      (forall k :: |log| <= k < |rows| ==> rows[k].sequence == k + 1 && FromStaged(staged, rows[k]))
    decreases |staged|
  {
    hide ClashesIn;
    if staged != [] {
      var e, rest := staged[0], staged[1..];
      var at := FindEntry(log, e.id);
      var log' := if at.Some? then log else log + [e.(sequence := |log| + 1)];
      FirstClashes(log, e);
      WrittenRows(log', rest);
      forall i | 0 <= i < |rest| ensures ClashesIn(log', rest[i]) <==> ClashesIn(log, rest[i]) {
        LaterClashes(log, e.(sequence := |log| + 1), rest[i]);
      }
      assert forall i :: 0 < i < |staged| ==> staged[i] == rest[i - 1];
      if WriteEntries(log, staged).Some? { WrittenStep(log, staged, log', WriteEntries(log, staged).value); }
    }
  }

  lemma {:induction false} FirstClashes(log: seq<Entry>, e: Entry)
    requires DistinctIds(log)
    ensures var at := FindEntry(log, e.id); ClashesIn(log, e) <==> at.Some? && !SameRecord(log[at.value], e)
  {
    hide FindEntry;
  }

  lemma {:induction false} LaterClashes(log: seq<Entry>, new': Entry, e: Entry)
    requires new'.id != e.id
    ensures ClashesIn(log + [new'], e) <==> ClashesIn(log, e)
  {
    var all := log + [new'];
    assert forall j :: 0 <= j < |log| ==> all[j] == log[j];
    if ClashesIn(all, e) {
      var j :| 0 <= j < |all| && Clash(all[j], e);
      assert j < |log|;
    }
  }

  lemma {:induction false} WrittenStep(log: seq<Entry>, staged: seq<Entry>, log': seq<Entry>, rows: seq<Entry>)
    requires staged != [] && log' <= rows && Known(log', staged[0])
    requires log' == log || log' == log + [staged[0].(sequence := |log| + 1)]
    requires forall i :: 0 <= i < |staged[1..]| ==> Known(rows, staged[1..][i])
    requires forall k :: |log'| <= k < |rows| ==> rows[k].sequence == k + 1 && FromStaged(staged[1..], rows[k])
    ensures log <= rows && forall i :: 0 <= i < |staged| ==> Known(rows, staged[i])
    ensures forall k :: |log| <= k < |rows| ==> rows[k].sequence == k + 1 && FromStaged(staged, rows[k])
  {
    forall i | 0 <= i < |staged| ensures Known(rows, staged[i]) {
      if i == 0 {
        var j :| 0 <= j < |log'| && log'[j].id == staged[0].id;
        assert rows[j].id == staged[0].id;
      } else {
        assert staged[i] == staged[1..][i - 1];
      }
    }
    forall k | |log| <= k < |rows| ensures rows[k].sequence == k + 1 && FromStaged(staged, rows[k]) {
      if k < |log'| {
        assert rows[k] == staged[0].(sequence := rows[k].sequence);
      } else {
        var i :| 0 <= i < |staged[1..]| && rows[k] == staged[1..][i].(sequence := rows[k].sequence);
        assert staged[i + 1] == staged[1..][i];
      }
    }
  }

  /** New entries with the next numbers are written exactly as staged. */
  lemma {:induction false} WriteFresh(log: seq<Entry>, staged: seq<Entry>)
    requires Disjoint(log, staged)
    requires forall i :: 0 <= i < |staged| ==> staged[i].sequence == |log| + 1 + i
    requires forall i, j :: 0 <= i < j < |staged| ==> staged[i].id != staged[j].id
    ensures WriteEntries(log, staged) == Some(log + staged)
    decreases |staged|
  {
    if staged == [] {
      assert log + staged == log;
    } else {
      var e, rest := staged[0], staged[1..];
      var log' := log + [e];
      assert FindEntry(log, e.id).None?;
      assert e.(sequence := |log| + 1) == e;
      assert Disjoint(log', rest) by {
        forall i, j | 0 <= i < |log'| && 0 <= j < |rest| ensures log'[i].id != rest[j].id {
          assert rest[j] == staged[j + 1];
          if i < |log| { assert log'[i] == log[i]; } else { assert log'[i] == staged[0]; }
        }
      }
      WriteFresh(log', rest);
      assert log' + rest == log + staged;
    }
  }

  lemma {:induction false} NumberedConcat(log: seq<Entry>, staged: seq<Entry>)
    requires Numbered(log) && Disjoint(log, staged)
    requires forall i :: 0 <= i < |staged| ==> staged[i].sequence == |log| + 1 + i
    requires forall i, j :: 0 <= i < j < |staged| ==> staged[i].id != staged[j].id
    ensures Numbered(log + staged)
  {
  }

  /** A worker whose proposal passes the row checks is level with the session, so its outbox is appended verbatim. */
  lemma {:induction false} CommitWrites(d: Db, w: Worker)
    requires DbOk(d) && WorkerOk(d, w) && w.phase.Saving?
    requires RowRefusal(d, ProposalOf(w)).None?
    ensures WriteEntries(Log(d, w.session), w.outbox) == Some(Log(d, w.session) + w.outbox)
    ensures Numbered(Log(d, w.session) + w.outbox)
    ensures |Log(d, w.session)| + 1 == w.base
  {
    var log := Log(d, w.session);
    assert w.session in d.sessions ==> SessionOk(d.sessions[w.session]);
    assert Disjoint(log, w.outbox);
    WriteFresh(log, w.outbox);
    NumberedConcat(log, w.outbox);
  }

  /** What has been checked when a commit starts to write: `log` is the session's new transcript. */
  ghost predicate Ready(d: Db, p: Proposal, log: seq<Entry>, t: int) {
    DbOk(d) && t >= d.now && Holds(d, p.claim, t) && StillOwned(d, p, t) &&
    RowRefusal(d, p).None? && Numbered(log) && log == Log(d, p.session) + p.outbox && p.base == |Log(d, p.session)| + 1 &&
    EventFits(d.commands[p.claim.key].request.kind, p.event) &&
    (p.session in d.sessions ==> FindReceipt(d.sessions[p.session].receipts, p.commit).None?)
  }

  lemma {:induction false} SealedSessionOk(d: Db, p: Proposal, log: seq<Entry>, t: int)
    requires Ready(d, p, log, t)
    ensures SessionOk(SealedSession(d, p, log))
    ensures p.session in d.sessions ==>
      SessionGrows(d.sessions[p.session], SealedSession(d, p, log)) &&
      SealedSession(d, p, log).fence == d.sessions[p.session].fence &&
      SealedSession(d, p, log).receipts[..|d.sessions[p.session].receipts|] == d.sessions[p.session].receipts
  {
    hide CommandOk, FencesOrdered, Effects, EffectsOk, ReceiptsOk, JournalRowsOk, ArchiveOk;
    var s' := SealedSession(d, p, log);
    if p.session in d.sessions {
      var s := d.sessions[p.session];
      assert SessionOk(s);
      ArchiveAppend(s, s', s'.receipts[s.revision]);
    } else {
      FirstArchive(s');
    }
  }

  lemma {:induction false} FirstArchive(s: Session)
    requires |s.receipts| == 1 && s.transcript == s.receipts[0].fingerprint.outbox
    requires s.receipts[0].fingerprint.base == 1 && s.receipts[0].fingerprint.revision == 0
    ensures ArchiveOk(s)
  {
    assert s.receipts[..0] == [];
  }

  lemma {:induction false} ArchiveAppend(s: Session, s': Session, r: Receipt)
    requires ArchiveOk(s) && s'.receipts == s.receipts + [r] && s'.transcript == s.transcript + r.fingerprint.outbox
    requires r.fingerprint.base == |s.transcript| + 1 && r.fingerprint.revision == |s.receipts|
    ensures ArchiveOk(s')
  {
    assert s'.receipts[..|s.receipts|] == s.receipts;
    forall i | 0 <= i < |s'.receipts|
      ensures s'.receipts[i].fingerprint.base == |Archived(s'.receipts[..i])| + 1
    {
      assert i < |s.receipts| ==> s'.receipts[..i] == s.receipts[..i];
    }
  }

  lemma {:induction false} SealedCommands(d: Db, p: Proposal, log: seq<Entry>, t: int)
    requires Ready(d, p, log, t)
    ensures var d' := Sealed(d, p, log, t);
      d'.commands.Keys == d.commands.Keys &&
      (forall k :: k in d.commands ==>
        CommandOk(d'.commands[k]) && CommandGrows(d.commands[k], d'.commands[k]) &&
        (k != p.claim.key ==> d'.commands[k].response == d.commands[k].response)) &&
      (Settles(p.event) ==> Positive(d'.commands[p.claim.key].response)) &&
      (!Settles(p.event) ==> d'.commands[p.claim.key].response.None?)
  {
    hide SessionOk, FencesOrdered, Effects, EffectsOk, ReceiptsOk, JournalRowsOk, SessionsOk, Numbered;
    var d' := Sealed(d, p, log, t);
    assert forall k :: k in d.commands ==> CommandOk(d.commands[k]);
    forall k | k in d.commands
      ensures CommandOk(d'.commands[k]) && CommandGrows(d.commands[k], d'.commands[k])
    {
      assert CommandOk(d.commands[k]);
    }
  }

  lemma {:induction false} SealedGrows(d: Db, p: Proposal, log: seq<Entry>, t: int)
    requires Ready(d, p, log, t)
    ensures Grows(d, Sealed(d, p, log, t))
  {
    hide SessionOk, CommandOk, CommandGrows, SessionGrows, FencesOrdered, Effects, EffectsOk, ReceiptsOk, JournalRowsOk, Numbered;
    var d' := Sealed(d, p, log, t);
    SealedSessionOk(d, p, log, t);
    SealedCommands(d, p, log, t);
    forall id | id in d.sessions ensures id in d'.sessions && SessionGrows(d.sessions[id], d'.sessions[id]) {
      if id != p.session { SessionGrowsSelf(d.sessions[id]); }
    }
    forall i | |d.journal| <= i < |d'.journal| ensures NewFenced(d, d'.journal[i]) {
    }
  }

  lemma {:induction false} SessionGrowsSelf(s: Session)
    ensures SessionGrows(s, s)
  {
  }

  lemma {:induction false} SealedReceipts(d: Db, p: Proposal, log: seq<Entry>, t: int)
    requires Ready(d, p, log, t)
    ensures ReceiptsOk(Sealed(d, p, log, t))
  {
    hide SessionOk, CommandOk, FencesOrdered, Effects, EffectsOk, JournalRowsOk, Numbered;
    var d' := Sealed(d, p, log, t);
    SealedSessionOk(d, p, log, t);
    SealedCommands(d, p, log, t);
    forall id, i | id in d'.sessions && 0 <= i < |d'.sessions[id].receipts|
      ensures ReceiptOk(d', id, d'.sessions[id].receipts[i])
    {
      var r := d'.sessions[id].receipts[i];
      if id in d.sessions && i < |d.sessions[id].receipts| {
        assert r == d.sessions[id].receipts[i];
        assert ReceiptOk(d, id, r);
        ReceiptStable(d, d', id, r);
      } else {
        assert r.fingerprint == FingerprintOf(p) && r.command == p.claim.key && id == p.session;
      }
    }
  }

  lemma {:induction false} SealedShape(d: Db, p: Proposal, log: seq<Entry>, t: int)
    requires Ready(d, p, log, t)
    ensures var s := SealedSession(d, p, log);
      |s.receipts| == s.revision >= 1 && s.receipts[s.revision - 1].commit == p.commit &&
      s.receipts[s.revision - 1].command == p.claim.key && s.last == Anchor(p.commit, FingerprintOf(p))
  {
    hide CommandOk, Effects, EffectsOk, ReceiptsOk, Numbered, ArchiveOk;
    SealedSessionOk(d, p, log, t);
  }

  lemma {:induction false} SealedJournal(d: Db, p: Proposal, log: seq<Entry>, t: int)
    requires Ready(d, p, log, t)
    ensures JournalRowsOk(Sealed(d, p, log, t)) && FencesOrdered(Sealed(d, p, log, t).journal)
  {
    hide SessionOk, CommandOk, Effects, EffectsOk, ReceiptsOk, Numbered;
    var d' := Sealed(d, p, log, t);
    SealedSessionOk(d, p, log, t);
    SealedCommands(d, p, log, t);
    forall i | 0 <= i < |d'.journal| ensures JournalOk(d', d'.journal[i]) {
      if i < |d.journal| {
        assert JournalOk(d, d.journal[i]);
        assert d'.journal[i] == d.journal[i];
      } else {
        SealedShape(d, p, log, t);
      }
    }
    forall i, j | 0 <= i < j < |d'.journal| && Owned(d'.journal[i]) && Owned(d'.journal[j]) &&
                  d'.journal[i].session == d'.journal[j].session
      ensures d'.journal[i].held.value.fence <= d'.journal[j].held.value.fence
    {
      assert JournalOk(d, d.journal[i]);
    }
  }

  lemma {:induction false} SealedEffects(d: Db, p: Proposal, log: seq<Entry>, t: int)
    requires Ready(d, p, log, t)
    ensures EffectsOk(Sealed(d, p, log, t))
  {
    hide SessionOk, FencesOrdered, ReceiptsOk, JournalRowsOk, Numbered;
    var d' := Sealed(d, p, log, t);
    SealedCommands(d, p, log, t);
    assert CommandOk(d.commands[p.claim.key]);
    var e := d'.journal[|d.journal|];
    forall k ensures Effects(d'.journal, k) == Effects(d.journal, k) + if IsEffect(e, k) then 1 else 0 {
      EffectsAppend(d.journal, e, k);
    }
  }

  /** A commit that is accepted keeps every invariant. */
  lemma {:induction false} SealedKeeps(d: Db, p: Proposal, log: seq<Entry>, t: int)
    requires Ready(d, p, log, t)
    ensures DbOk(Sealed(d, p, log, t)) && Grows(d, Sealed(d, p, log, t))
  {
    hide SessionOk, CommandOk, FencesOrdered, EffectsOk, ReceiptsOk, JournalRowsOk, Numbered, Grows;
    var d' := Sealed(d, p, log, t);
    SealedSessionOk(d, p, log, t);
    SealedCommands(d, p, log, t);
    SealedGrows(d, p, log, t);
    SealedReceipts(d, p, log, t);
    SealedJournal(d, p, log, t);
    SealedEffects(d, p, log, t);
    assert SessionsOk(d') by {
      forall id | id in d'.sessions ensures SessionOk(d'.sessions[id]) {
        if id != p.session { assert SessionOk(d.sessions[id]); }
      }
    }
  }

  // ------------------------------------------------------------ save_inner as a whole

  /** A receipt found under the retained commit id proves the very same proposal was committed. */
  lemma {:induction false} FoundIsCommitted(d: Db, w: Worker, i: nat)
    requires DbOk(d) && WorkerOk(d, w) && w.phase.Saving? && w.session in d.sessions
    requires i < |d.sessions[w.session].receipts|
    requires d.sessions[w.session].receipts[i].fingerprint == FingerprintOf(ProposalOf(w))
    ensures d.sessions[w.session].receipts[i].committed == i + 1 == w.revision + 1 <= d.sessions[w.session].revision
    ensures d.sessions[w.session].receipts[i] ==
      Receipt(d.sessions[w.session].receipts[i].commit, w.claim.key, FingerprintOf(ProposalOf(w)), w.revision, w.revision + 1)
    ensures i + 1 == d.sessions[w.session].revision ==> NextSequence(w) == |d.sessions[w.session].transcript| + 1
    ensures Settles(w.phase.event) ==> Positive(d.commands[w.claim.key].response)
  {
    hide CommandOk, EffectsOk, JournalRowsOk, FencesOrdered, SessionOk, InStep, OutboxOk;
    var s := d.sessions[w.session];
    assert SessionOk(s);
    assert ReceiptOk(d, w.session, s.receipts[i]);
    FoundInChain(s, i);
  }

  /** The place of a receipt in the chain is the revision it was proposed at; the newest one ends the transcript. */
  lemma {:induction false} FoundInChain(s: Session, i: nat)
    requires SessionOk(s) && i < |s.receipts|
    ensures s.receipts[i].committed == i + 1 == s.receipts[i].fingerprint.revision + 1 <= s.revision
    ensures s.receipts[i].expected == i
    ensures i + 1 == s.revision ==>
      s.receipts[i].fingerprint.base + |s.receipts[i].fingerprint.outbox| == |s.transcript| + 1
  {
    hide Numbered;
    if i + 1 == s.revision {
      assert s.receipts[..i] == s.receipts[..|s.receipts| - 1];
    }
  }

  /** One call of save_inner, whatever the database answers. */
  lemma {:induction false} CommitKeeps(d: Db, w: Worker, lag: nat)
    requires DbOk(d) && WorkerOk(d, w) && w.phase.Saving?
    ensures var d' := CommitTx(d, ProposalOf(w), lag).0; DbOk(d') && Grows(d, d')
  {
    hide SessionOk, CommandOk, EffectsOk, JournalRowsOk, FencesOrdered, ReceiptsOk, Grows, Sealed, OutboxOk, InStep;
    var p := ProposalOf(w);
    ClockKeeps(d, d.now + lag);
    if CommitTx(d, p, lag).1.Done? {
      CommitWrites(d, w);
      SealedKeeps(d, p, Log(d, p.session) + p.outbox, d.now + lag);
    }
  }

  /** What a landed event makes of the command's row: its snapshot as the answer, a block, or nothing. */
  predicate RowSettled(row: Command, row': Command, event: EventKind, session: Id, revision: nat) {
    match event
    case SessionCreated => AnsweredBy(row, row', Response(201, Snapshot(session, revision)))
    case Checkpoint | Resumed | Interrupted(_) => row' == row
    case Finished(blocked) =>
      if blocked then row' == row.(status := Blocked, lease := None)
      else AnsweredBy(row, row', Response(200, Snapshot(session, revision)))
    case _ => AnsweredBy(row, row', Response(200, Snapshot(session, revision)))
  }

  predicate AnsweredBy(row: Command, row': Command, response: Response) {
    row' == row.(status := Succeeded, response := Some(response), lease := None)
  }

  /** Only the command a run came from can change besides: to uncertain, if it is unanswered and nobody holds it. */
  predicate OthersSettled(d: Db, d': Db, event: EventKind, own: Id) {
    forall k | k in d.commands && k != own ::
      k in d'.commands &&
      d'.commands[k] ==
        if (event == Interrupted(Some(k)) || event == Reconciled(Some(k))) &&
           (d.commands[k].status == Pending || d.commands[k].status == Started) &&
           (d.commands[k].lease.Some? ==> d.commands[k].lease.value.expires <= d'.now)
        then d.commands[k].(status := Uncertain, lease := None) else d.commands[k]
  }

  /** The proposal landed: one revision further, its outbox archived at its numbers, its command settled with it. */
  ghost predicate LandedAs(d: Db, d': Db, w: Worker, revision: nat, next: nat)
    requires w.phase.Saving?
  {
    w.session in d'.sessions && revision == d'.sessions[w.session].revision == w.revision + 1 &&
    d'.sessions[w.session].transcript == Log(d, w.session) + w.outbox && next == NextSequence(w) &&
    |Log(d, w.session)| + 1 == w.base && w.claim.key in d.commands && w.claim.key in d'.commands &&
    RowSettled(d.commands[w.claim.key], d'.commands[w.claim.key], w.phase.event, w.session, revision) &&
    OthersSettled(d, d', w.phase.event, w.claim.key) &&
    d'.journal == d.journal + [Saved(w.session, revision, w.phase.commit, w.claim.key, w.phase.event, w.held)] &&
    RunMarked(d.runs, d'.runs, w) && ReceiptKept(d'.sessions[w.session], w)
  }

  /** The run the save speaks of is recorded as it says, a cancellation asked for before stays asked for, and no other run
      is touched. */
  predicate RunMarked(runs: map<Id, RunRow>, runs': map<Id, RunRow>, w: Worker)
    requires w.phase.Saving?
  {
    if w.phase.run.None? then runs' == runs
    else
      var mark := w.phase.run.value;
      runs'.Keys == runs.Keys + {mark.run} && (forall r :: r in runs && r != mark.run ==> runs'[r] == runs[r]) &&
      runs'[mark.run].session == w.session && runs'[mark.run].running == mark.running &&
      (runs'[mark.run].cancelRequested <==> mark.run in runs && runs[mark.run].cancelRequested)
  }

  /** The session holds a receipt of exactly this proposal, at the revision it was made at. */
  predicate ReceiptKept(s: Session, w: Worker)
    requires w.phase.Saving?
  {
    Receipt(w.phase.commit, w.claim.key,
            Fingerprint(w.claim.key, w.session, w.revision, w.base, w.outbox, w.phase.event, w.phase.run),
            w.revision, w.revision + 1) in s.receipts
  }

  /** The proposal had landed before: nothing is written, and a reload is asked for exactly if others committed since. */
  ghost predicate FoundAs(d: Db, d': Db, w: Worker, revision: nat, reload: bool)
    requires w.phase.Saving?
  {
    w.session in d.sessions && d' == d.(now := d'.now) && ReceiptKept(d.sessions[w.session], w) &&
    revision == w.revision + 1 <= d.sessions[w.session].revision &&
    (reload <==> revision < d.sessions[w.session].revision) &&
    (!reload ==> NextSequence(w) == |d.sessions[w.session].transcript| + 1) &&
    (Settles(w.phase.event) ==> w.claim.key in d.commands && Positive(d.commands[w.claim.key].response))
  }

  ghost predicate Told(d: Db, lag: nat, d': Db, w: Worker, outcome: Outcome)
    requires w.phase.Saving?
  {
    match outcome
    case Done(revision, next) => LandedAs(d, d', w, revision, next)
    case Found(revision, reload) => FoundAs(d, d', w, revision, reload)
    case Refused(_) => d' == d.(now := d.now + lag)
  }

  /** What the outcome tells the worker is true of the database. */
  lemma {:induction false} CommitAnswers(d: Db, w: Worker, lag: nat)
    requires DbOk(d) && WorkerOk(d, w) && w.phase.Saving?
    ensures var (d', outcome) := CommitTx(d, ProposalOf(w), lag); Told(d, lag, d', w, outcome)
  {
    hide SessionOk, CommandOk, EffectsOk, JournalRowsOk, FencesOrdered, ReceiptsOk, Grows, OutboxOk, InStep, Numbered,
      LandedAs, FoundAs;
    var p := ProposalOf(w);
    match CommitTx(d, p, lag).1
    case Done(_, _) => LandingTold(d, w, lag);
    case Found(_, _) => FindingTold(d, w, lag);
    case Refused(_) =>
  }

  lemma {:induction false} LandingTold(d: Db, w: Worker, lag: nat)
    requires DbOk(d) && WorkerOk(d, w) && w.phase.Saving? && CommitTx(d, ProposalOf(w), lag).1.Done?
    ensures var (d', outcome) := CommitTx(d, ProposalOf(w), lag); LandedAs(d, d', w, outcome.revision, outcome.next)
  {
    hide SessionOk, CommandOk, EffectsOk, JournalRowsOk, FencesOrdered, ReceiptsOk, Grows, OutboxOk, InStep, Numbered;
    var p := ProposalOf(w);
    CommitWrites(d, w);
    SealedSettles(d, p, Log(d, p.session) + p.outbox, d.now + lag);
    SealedMarks(d, w, Log(d, p.session) + p.outbox, d.now + lag);
    assert p.session !in d.sessions ==> p.revision == 0;
  }

  lemma {:induction false} SealedMarks(d: Db, w: Worker, log: seq<Entry>, t: int)
    requires w.phase.Saving? && w.claim.key in d.commands && w.revision == if w.session in d.sessions then d.sessions[w.session].revision else 0
    ensures var d' := Sealed(d, ProposalOf(w), log, t);
      RunMarked(d.runs, d'.runs, w) && ReceiptKept(d'.sessions[w.session], w)
  {
    hide SettledCommand, ReleaseOrigin;
    var s := Sealed(d, ProposalOf(w), log, t).sessions[w.session];
    assert RunMarked(d.runs, Sealed(d, ProposalOf(w), log, t).runs, w);
    assert s.receipts[|s.receipts| - 1] ==
      Receipt(w.phase.commit, w.claim.key, FingerprintOf(ProposalOf(w)), w.revision, w.revision + 1);
  }

  lemma {:induction false} SealedSettles(d: Db, p: Proposal, log: seq<Entry>, t: int)
    requires p.claim.key in d.commands
    ensures var d' := Sealed(d, p, log, t);
      RowSettled(d.commands[p.claim.key], d'.commands[p.claim.key], p.event, p.session, d'.sessions[p.session].revision) &&
      OthersSettled(d, d', p.event, p.claim.key)
  {
  }

  lemma {:induction false} FindingTold(d: Db, w: Worker, lag: nat)
    requires DbOk(d) && WorkerOk(d, w) && w.phase.Saving? && CommitTx(d, ProposalOf(w), lag).1.Found?
    ensures var (d', outcome) := CommitTx(d, ProposalOf(w), lag); FoundAs(d, d', w, outcome.revision, outcome.reload)
  {
    hide SessionOk, CommandOk, EffectsOk, JournalRowsOk, FencesOrdered, ReceiptsOk, Grows, OutboxOk, InStep, Numbered;
    hide Sealed, WriteEntries, RowRefusal, StillOwned, Holds;
    var s := d.sessions[w.session];
    var i := FindReceipt(s.receipts, w.phase.commit).value;
    FoundIsCommitted(d, w, i);
    assert s.receipts[i] in s.receipts;
  }

  /** The worker that saw the outcome is again well formed. */
  lemma {:induction false} AnsweredOk(d: Db, w: Worker, lag: nat)
    requires DbOk(d) && WorkerOk(d, w) && w.phase.Saving?
    ensures var (d', outcome) := CommitTx(d, ProposalOf(w), lag); WorkerOk(d', Answered(w, outcome))
  {
    hide SessionOk, CommandOk, DbOk, Grows, CommitTx, Numbered;
    var (d', outcome) := CommitTx(d, ProposalOf(w), lag);
    CommitKeeps(d, w, lag);
    CommitAnswers(d, w, lag);
    WorkerStable(d, d', w);
  }

  lemma {:induction false} CancelKeeps(d: Db, w: Worker, run: Id, lag: nat)
    requires DbOk(d) && WorkerOk(d, w) && w.kind == Cancel
    ensures var (d', done) := CancelTx(d, w.claim, w.session, run, lag);
      DbOk(d') && Grows(d, d') && (done ==> Positive(d'.commands[w.claim.key].response))
  {
    hide SessionOk, FencesOrdered, ReceiptsOk, JournalRowsOk, EffectsOk;
    var (d', done) := CancelTx(d, w.claim, w.session, run, lag);
    ClockKeeps(d, d.now + lag);
    if done {
      assert CommandOk(d.commands[w.claim.key]);
      CancelReferences(d, d', w.claim.key);
      CancelEffects(d, d', w.claim.key);
    }
  }

  /** The cancelled command's effect is counted once, with its positive response. */
  lemma {:induction false} CancelEffects(d: Db, d': Db, key: Id)
    requires EffectsOk(d) && key in d.commands && OneShot(d.commands[key].request.kind)
    requires key in d'.commands && d'.commands[key].request == d.commands[key].request
    requires d.commands[key].response.None? && d'.commands == d.commands[key := d'.commands[key]]
    requires Positive(d'.commands[key].response)
    requires |d'.journal| == |d.journal| + 1 && d.journal <= d'.journal
    requires d'.journal[|d.journal|].Cancelled? && d'.journal[|d.journal|].command == key
    ensures EffectsOk(d')
  {
    hide Effects;
    assert d'.journal == d.journal + [d'.journal[|d.journal|]];
    forall k ensures Effects(d'.journal, k) == Effects(d.journal, k) + if k == key then 1 else 0 {
      EffectsAppend(d.journal, d'.journal[|d.journal|], k);
    }
  }

  lemma {:induction false} CancelReferences(d: Db, d': Db, key: Id)
    requires ReceiptsOk(d) && JournalRowsOk(d) && FencesOrdered(d.journal)
    requires d'.sessions == d.sessions && d'.commands.Keys == d.commands.Keys && key in d.commands
    requires forall k :: k in d.commands ==> CommandGrows(d.commands[k], d'.commands[k])
    requires |d'.journal| == |d.journal| + 1 && d.journal <= d'.journal
    requires d'.journal[|d.journal|].Cancelled? && d'.journal[|d.journal|].command == key
    ensures ReceiptsOk(d') && JournalRowsOk(d') && FencesOrdered(d'.journal)
  {
    forall id, i | id in d'.sessions && 0 <= i < |d'.sessions[id].receipts|
      ensures ReceiptOk(d', id, d'.sessions[id].receipts[i])
    {
      assert ReceiptOk(d, id, d.sessions[id].receipts[i]);
      ReceiptStable(d, d', id, d.sessions[id].receipts[i]);
    }
    forall i | 0 <= i < |d'.journal| ensures JournalOk(d', d'.journal[i]) {
      if i < |d.journal| { assert JournalOk(d, d.journal[i]); }
    }
  }
}
