/** The diagnostic journal: a lifetime log with bounded read caches, its table, and guarded pruning. */
module Diagnostics {
  import opened Options

  type Payload = string

  const RECENT := 32

  datatype Family = Events | Attempts | Decisions

  /** One value for each family. */
  datatype Three<T> = Three(events: T, attempts: T, decisions: T) {
    function At(f: Family): T {
      match f case Events => events case Attempts => attempts case Decisions => decisions
    }

    function With(f: Family, v: T): (r: Three<T>)
      ensures r.At(f) == v && forall g :: g != f ==> r.At(g) == At(g)
    {
      match f
      case Events => this.(events := v)
      case Attempts => this.(attempts := v)
      case Decisions => this.(decisions := v)
    }
  }

  datatype Record = Record(family: Family, ordinal: nat, payload: Payload)

  type Rows = map<nat, Payload>

  function LastOf(s: seq<Payload>, n: nat): seq<Payload> {
    if |s| > n then s[|s| - n..] else s
  }

  // ------------------------------------------------------------ numbering

  /** The payloads of one family, in order. */
  function Of(records: seq<Record>, f: Family): seq<Payload> {
    if records == [] then []
    else Of(records[..|records| - 1], f) +
         if records[|records| - 1].family == f then [records[|records| - 1].payload] else []
  }

  /** Each family's records are numbered on from `start`, without gaps. */
  predicate NumberedFrom(records: seq<Record>, start: Three<nat>) {
    records != [] ==>
      var last := records[|records| - 1];
      NumberedFrom(records[..|records| - 1], start) &&
      last.ordinal == start.At(last.family) + |Of(records, last.family)|
  }

  lemma {:induction false} OfAppend(records: seq<Record>, r: Record, f: Family)
    ensures Of(records + [r], f) == Of(records, f) + if r.family == f then [r.payload] else []
  {
    assert (records + [r])[..|records|] == records;
  }

  lemma {:induction false} NumberedAppend(records: seq<Record>, r: Record, start: Three<nat>)
    requires NumberedFrom(records, start) && r.ordinal == start.At(r.family) + |Of(records, r.family)| + 1
    ensures NumberedFrom(records + [r], start)
  {
    OfAppend(records, r, r.family);
    assert (records + [r])[..|records|] == records;
  }

  // ------------------------------------------------------------ the table

  /** Insert unless the same ordinal is already there; with another payload there it is a conflict. */
  function Insert(rows: Three<Rows>, r: Record): Option<Three<Rows>> {
    var t := rows.At(r.family);
    if r.ordinal < 1 then None
    else if r.ordinal !in t then Some(rows.With(r.family, t[r.ordinal := r.payload]))
    else if t[r.ordinal] == r.payload then Some(rows) else None
  }

  function InsertAll(rows: Three<Rows>, records: seq<Record>): Option<Three<Rows>> {
    if records == [] then Some(rows)
    else
      var front := InsertAll(rows, records[..|records| - 1]);
      if front.None? then None else Insert(front.value, records[|records| - 1])
  }

  /** The greatest ordinal stored, or zero. */
  predicate IsMax(rows: Rows, m: nat) {
    (forall k :: k in rows ==> k <= m) && (if rows == map[] then m == 0 else m in rows)
  }

  /** A pruned archive's rows and events, and the greatest ordinals and event number it covers. */
  datatype Archive = Archive(rows: Three<Rows>, marks: Three<nat>, events: Rows, eventMark: nat)

  predicate Receipted(receipts: seq<Archive>, f: Family, k: nat, p: Payload) {
    exists i :: 0 <= i < |receipts| && k in receipts[i].rows.At(f) && receipts[i].rows.At(f)[k] == p
  }

  /** Nothing ever written is lost: each row is stored or in a receipted archive, and the newest are stored. */
  predicate Kept(rows: Rows, receipts: seq<Archive>, f: Family, written: seq<Payload>) {
    (forall k :: k in rows ==> 1 <= k <= |written| && rows[k] == written[k - 1]) &&
    (forall k | 1 <= k <= |written| :: k in rows || Receipted(receipts, f, k, written[k - 1])) &&
    (forall k | 1 <= k <= |written| :: k > |written| - RECENT ==> k in rows)
  }

  ghost predicate AllKept(rows: Three<Rows>, receipts: seq<Archive>, written: Three<seq<Payload>>) {
    forall f :: Kept(rows.At(f), receipts, f, written.At(f))
  }

  /** The greatest stored ordinal of every family is its lifetime count. */
  lemma {:induction false} MaxIsCount(rows: Rows, receipts: seq<Archive>, f: Family, written: seq<Payload>, m: nat)
    requires Kept(rows, receipts, f, written)
    ensures IsMax(rows, m) <==> m == |written|
  {
    if written != [] { assert |written| in rows; }
    if rows != map[] {
      var k :| k in rows;
      assert 1 <= k <= |written|;
    }
  }

  lemma {:induction false} KeptGrows(rows: Rows, receipts: seq<Archive>, f: Family, written: seq<Payload>, p: Payload)
    requires Kept(rows, receipts, f, written)
    ensures |written| + 1 !in rows
    ensures Kept(rows[|written| + 1 := p], receipts, f, written + [p])
  {
  }

  function Joined(written: Three<seq<Payload>>, records: seq<Record>): (r: Three<seq<Payload>>)
    ensures forall f :: r.At(f) == written.At(f) + Of(records, f)
  {
    Three(written.events + Of(records, Events), written.attempts + Of(records, Attempts),
          written.decisions + Of(records, Decisions))
  }

  function Lengths(t: Three<seq<Payload>>): (r: Three<nat>)
    ensures forall f :: r.At(f) == |t.At(f)|
  {
    Three(|t.events|, |t.attempts|, |t.decisions|)
  }

  lemma {:induction false} InsertOneKeeps(rows: Three<Rows>, receipts: seq<Archive>, written: Three<seq<Payload>>,
                                          r: Record)
    requires AllKept(rows, receipts, written) && r.ordinal == |written.At(r.family)| + 1
    ensures Insert(rows, r).Some?
    ensures AllKept(Insert(rows, r).value, receipts, written.With(r.family, written.At(r.family) + [r.payload]))
  {
    hide Kept;
    assert Kept(rows.At(r.family), receipts, r.family, written.At(r.family));
    KeptGrows(rows.At(r.family), receipts, r.family, written.At(r.family), r.payload);
    var after, log := Insert(rows, r).value, written.With(r.family, written.At(r.family) + [r.payload]);
    forall f ensures Kept(after.At(f), receipts, f, log.At(f)) {
      assert Kept(rows.At(f), receipts, f, written.At(f));
    }
  }

  lemma {:induction false} JoinedStep(written: Three<seq<Payload>>, front: seq<Record>, r: Record)
    ensures var joined := Joined(written, front);
      Joined(written, front + [r]) == joined.With(r.family, joined.At(r.family) + [r.payload])
  {
    OfAppend(front, r, Events);
    OfAppend(front, r, Attempts);
    OfAppend(front, r, Decisions);
    var joined := Joined(written, front);
    var after := joined.With(r.family, joined.At(r.family) + [r.payload]);
    assert written.events + Of(front + [r], Events) == after.events;
    assert written.attempts + Of(front + [r], Attempts) == after.attempts;
    assert written.decisions + Of(front + [r], Decisions) == after.decisions;
  }

  /** Records numbered on from what was written go in without conflict and extend the history by themselves. */
  lemma {:induction false} InsertAllKeeps(rows: Three<Rows>, receipts: seq<Archive>, written: Three<seq<Payload>>,
                                          records: seq<Record>)
    requires AllKept(rows, receipts, written) && NumberedFrom(records, Lengths(written))
    ensures InsertAll(rows, records).Some?
    ensures AllKept(InsertAll(rows, records).value, receipts, Joined(written, records))
    decreases |records|
  {
    hide AllKept, Insert;
    if records == [] {
      assert written.events + [] == written.events && written.attempts + [] == written.attempts;
      assert written.decisions + [] == written.decisions;
    } else {
      hide Joined;
      var front, r := records[..|records| - 1], records[|records| - 1];
      InsertAllKeeps(rows, receipts, written, front);
      assert records == front + [r];
      JoinedStep(written, front, r);
      InsertOneKeeps(InsertAll(rows, front).value, receipts, Joined(written, front), r);
    }
  }

  predicate Holds(rows: Three<Rows>, r: Record) {
    r.ordinal in rows.At(r.family) && rows.At(r.family)[r.ordinal] == r.payload
  }

  /** Another payload is stored, or comes earlier in the list, under the same ordinal; or there is no such ordinal. */
  predicate Conflicts(rows: Three<Rows>, records: seq<Record>, i: nat)
    requires i < |records|
  {
    var r := records[i];
    r.ordinal < 1 || (r.ordinal in rows.At(r.family) && !Holds(rows, r)) ||
    exists j :: 0 <= j < i && records[j] == r.(payload := records[j].payload) && records[j].payload != r.payload
  }

  ghost predicate Extends(rows: Three<Rows>, after: Three<Rows>, records: seq<Record>) {
    (forall f, k | k in rows.At(f) :: k in after.At(f) && after.At(f)[k] == rows.At(f)[k]) &&
    (forall f, k | k in after.At(f) && k !in rows.At(f) :: Record(f, k, after.At(f)[k]) in records) &&
    (forall i :: 0 <= i < |records| ==> Holds(after, records[i]))
  }

  /** A list of records is refused exactly if one of them conflicts; otherwise the table afterwards holds what it held
      and the records, and nothing else. */
  lemma {:induction false} InsertedRows(rows: Three<Rows>, records: seq<Record>)
    ensures InsertAll(rows, records).None? <==> exists i :: 0 <= i < |records| && Conflicts(rows, records, i)
    ensures InsertAll(rows, records).Some? ==> Extends(rows, InsertAll(rows, records).value, records)
    decreases |records|
  {
    hide Conflicts, Insert, Extends;
    if records == [] {
      NothingExtends(rows);
    } else {
      var front, r := records[..|records| - 1], records[|records| - 1];
      InsertedRows(rows, front);
      forall i | 0 <= i < |front| ensures Conflicts(rows, front, i) <==> Conflicts(rows, records, i) {
        ConflictsEarly(rows, records, i);
      }
      if InsertAll(rows, front).Some? {
        InsertedLast(rows, InsertAll(rows, front).value, front, r);
        assert records == front + [r];
      } else {
        var i :| 0 <= i < |front| && Conflicts(rows, front, i);
        assert Conflicts(rows, records, i);
      }
    }
  }

  lemma {:induction false} NothingExtends(rows: Three<Rows>)
    ensures Extends(rows, rows, [])
  {
  }

  /** Whether a record conflicts depends on the records before it only. */
  lemma {:induction false} ConflictsEarly(rows: Three<Rows>, records: seq<Record>, i: nat)
    requires i < |records| - 1
    ensures Conflicts(rows, records[..|records| - 1], i) <==> Conflicts(rows, records, i)
  {
    var front := records[..|records| - 1];
    assert front[i] == records[i] && forall j :: 0 <= j < i ==> front[j] == records[j];
  }

  lemma {:induction false} InsertedLast(rows: Three<Rows>, after: Three<Rows>, front: seq<Record>, r: Record)
    requires Extends(rows, after, front)
    ensures Insert(after, r).None? <==> Conflicts(rows, front + [r], |front|)
    ensures Insert(after, r).Some? ==> Extends(rows, Insert(after, r).value, front + [r])
  {
    ConflictsLast(rows, after, front, r);
    if Insert(after, r).Some? { ExtendsLast(rows, after, front, r); }
  }

  lemma {:induction false} ConflictsLast(rows: Three<Rows>, after: Three<Rows>, front: seq<Record>, r: Record)
    requires Extends(rows, after, front)
    ensures Insert(after, r).None? <==> Conflicts(rows, front + [r], |front|)
  {
    var all := front + [r];
    assert forall j :: 0 <= j < |front| ==> all[j] == front[j];
    if r.ordinal in after.At(r.family) && r.ordinal !in rows.At(r.family) {
      var stored := Record(r.family, r.ordinal, after.At(r.family)[r.ordinal]);
      assert stored in front;
      var j :| 0 <= j < |front| && front[j] == stored;
      assert all[j] == stored;
    }
    forall j | 0 <= j < |front| ensures Holds(after, front[j]) {}
  }

  lemma {:induction false} ExtendsLast(rows: Three<Rows>, after: Three<Rows>, front: seq<Record>, r: Record)
    requires Extends(rows, after, front) && Insert(after, r).Some?
    ensures Extends(rows, Insert(after, r).value, front + [r])
  {
    var all, last := front + [r], Insert(after, r).value;
    forall i | 0 <= i < |all| ensures Holds(last, all[i]) {
      if i < |front| { assert Holds(after, front[i]); }
    }
    forall f, k | k in last.At(f) && k !in rows.At(f) ensures Record(f, k, last.At(f)[k]) in all {
      if k in after.At(f) {
        assert Record(f, k, after.At(f)[k]) in front;
      } else {
        assert all[|front|] == Record(f, k, last.At(f)[k]);
      }
    }
  }

  // ------------------------------------------------------------ pruning

  function Upto(rows: Rows, mark: int): Rows {
    map k | k in rows && k <= mark :: rows[k]
  }

  function After(rows: Rows, cutoff: int): Rows {
    map k | k in rows && k > cutoff :: rows[k]
  }

  function Min(a: int, b: int): int {
    if a <= b then a else b
  }

  /** The archive covers exactly the stored rows and events up to its marks. */
  predicate Matches(rows: Three<Rows>, events: Rows, a: Archive) {
    a.rows == Three(Upto(rows.events, a.marks.events), Upto(rows.attempts, a.marks.attempts),
                    Upto(rows.decisions, a.marks.decisions)) &&
    a.events == Upto(events, a.eventMark)
  }

  /** The copy holds exactly the rows up to the mark. */
  ghost predicate CopiedUpto(rows: Rows, mark: int, copy: Rows) {
    (forall k :: k in copy <==> k in rows && k <= mark) && forall k :: k in copy ==> copy[k] == rows[k]
  }

  lemma {:induction false} MatchesIff(rows: Three<Rows>, events: Rows, a: Archive)
    ensures Matches(rows, events, a) <==>
      (forall f :: CopiedUpto(rows.At(f), a.marks.At(f), a.rows.At(f))) && CopiedUpto(events, a.eventMark, a.events)
  {
    forall f ensures CopiedUpto(rows.At(f), a.marks.At(f), a.rows.At(f)) <==> a.rows.At(f) == Upto(rows.At(f), a.marks.At(f)) {}
    assert a.rows.At(Events) == a.rows.events && a.rows.At(Attempts) == a.rows.attempts;
    assert a.rows.At(Decisions) == a.rows.decisions;
    assert CopiedUpto(events, a.eventMark, a.events) <==> a.events == Upto(events, a.eventMark);
  }

  /** The rows left are exactly those above the mark and the newest `keep` of the lifetime count. */
  ghost predicate LeftOf(left: Rows, rows: Rows, mark: int, count: int, keep: int) {
    (forall k :: k in left <==> k in rows && (k > mark || k > count - keep)) && forall k :: k in left ==> left[k] == rows[k]
  }

  /** The events left are exactly those above the mark and the newest `keep` of those stored. */
  ghost predicate EventsLeft(left: Rows, events: Rows, mark: int, keep: int) {
    (forall k :: k in left <==> k in events && (k > mark || |set j | j in events && j > k| < keep)) &&
    forall k :: k in left ==> left[k] == events[k]
  }

  lemma {:induction false} PrunedLeaves(rows: Three<Rows>, events: Rows, a: Archive, counts: Three<nat>, keep: int,
                                        keepEvents: int)
    ensures forall f :: LeftOf(Pruned(rows, a, counts, keep).At(f), rows.At(f), a.marks.At(f), counts.At(f), keep)
    ensures EventsLeft(PrunedEvents(events, a.eventMark, keepEvents), events, a.eventMark, keepEvents)
  {
  }

  /** How many events are newer. */
  function Newer(events: Rows, k: nat): nat {
    |set j | j in events && j > k|
  }

  function PrunedEvents(events: Rows, mark: nat, keep: int): Rows {
    map k | k in events && (k > mark || Newer(events, k) < keep) :: events[k]
  }

  predicate EventReceipted(receipts: seq<Archive>, k: nat, p: Payload) {
    exists i :: 0 <= i < |receipts| && k in receipts[i].events && receipts[i].events[k] == p
  }

  /** Every event ever emitted is stored or in a receipted archive, and nothing else is stored. */
  predicate EventsKept(events: Rows, receipts: seq<Archive>, emitted: Rows) {
    (forall k :: k in events ==> k in emitted && events[k] == emitted[k]) &&
    (forall k :: k in emitted ==> k in events || EventReceipted(receipts, k, emitted[k]))
  }

  lemma {:induction false} PruneKeepsEvents(events: Rows, receipts: seq<Archive>, emitted: Rows, a: Archive, keep: int)
    requires EventsKept(events, receipts, emitted) && a.events == Upto(events, a.eventMark)
    ensures EventsKept(PrunedEvents(events, a.eventMark, keep), receipts + [a], emitted)
  {
    hide Newer;
    var left, more := PrunedEvents(events, a.eventMark, keep), receipts + [a];
    forall k | k in emitted ensures k in left || EventReceipted(more, k, emitted[k]) {
      if k !in left {
        if k in events {
          assert k in more[|receipts|].events;
        } else {
          var i :| 0 <= i < |receipts| && k in receipts[i].events && receipts[i].events[k] == emitted[k];
          assert more[i] == receipts[i];
        }
      }
    }
  }

  /** The newest event always stays. */
  lemma {:induction false} NewestEventStays(events: Rows, mark: nat, keep: int, k: nat)
    requires IsMax(events, k) && events != map[] && keep >= 1
    ensures k in PrunedEvents(events, mark, keep)
  {
    assert (set j | j in events && j > k) == {};
  }

  function Pruned(rows: Three<Rows>, a: Archive, counts: Three<nat>, keep: int): Three<Rows> {
    Three(After(rows.events, Min(a.marks.events, counts.events - keep)),
          After(rows.attempts, Min(a.marks.attempts, counts.attempts - keep)),
          After(rows.decisions, Min(a.marks.decisions, counts.decisions - keep)))
  }

  lemma {:induction false} PruneKeepsOne(rows: Rows, receipts: seq<Archive>, f: Family, written: seq<Payload>,
                                         a: Archive, keep: int)
    requires Kept(rows, receipts, f, written) && a.rows.At(f) == Upto(rows, a.marks.At(f)) && keep >= RECENT
    ensures Kept(After(rows, Min(a.marks.At(f), |written| - keep)), receipts + [a], f, written)
  {
    var left := After(rows, Min(a.marks.At(f), |written| - keep));
    var more := receipts + [a];
    forall k | 1 <= k <= |written| ensures k in left || Receipted(more, f, k, written[k - 1]) {
      if k !in left {
        if k in rows {
          assert k in more[|receipts|].rows.At(f);
        } else {
          var i :| 0 <= i < |receipts| && k in receipts[i].rows.At(f) && receipts[i].rows.At(f)[k] == written[k - 1];
          assert more[i] == receipts[i];
        }
      }
    }
  }

  /** Pruning under a matching archive loses nothing and keeps the newest rows. */
  lemma {:induction false} PruneKeeps(rows: Three<Rows>, events: Rows, receipts: seq<Archive>,
                                      written: Three<seq<Payload>>, a: Archive, keep: int)
    requires AllKept(rows, receipts, written) && Matches(rows, events, a) && keep >= RECENT
    ensures AllKept(Pruned(rows, a, Lengths(written), keep), receipts + [a], written)
  {
    hide Kept, Upto, After;
    forall f ensures Kept(Pruned(rows, a, Lengths(written), keep).At(f), receipts + [a], f, written.At(f)) {
      assert Kept(rows.At(f), receipts, f, written.At(f));
      PruneKeepsOne(rows.At(f), receipts, f, written.At(f), a, keep);
    }
  }

  // ------------------------------------------------------------ the stored side

  /** What pruning looks at besides the archive: the session's lease, status, open calls, revision and unsettled work. */
  datatype Standing = Standing(owned: bool, active: bool, openCalls: nat, revisionMatches: bool, unresolved: nat)

  predicate MayPrune(s: Standing) {
    s.owned && !s.active && s.openCalls == 0 && s.revisionMatches && s.unresolved == 0
  }

  class Telemetry {
    var rows: Three<Rows>
    var events: Rows
    var receipts: seq<Archive>
    /** The counters saved with the snapshot. */
    var counts: Three<nat>
    var nextEvent: nat
    /** Everything ever written, in order, and every event ever emitted. */
    ghost var written: Three<seq<Payload>>
    ghost var emitted: Rows

    ghost predicate Valid()
      reads this
    {
      AllKept(rows, receipts, written) && counts == Lengths(written) &&
      EventsKept(events, receipts, emitted) && forall k: nat :: k in emitted <==> k < nextEvent
    }

    constructor ()
      ensures Valid() && written == Three([], [], []) && emitted == map[] && nextEvent == 0 && receipts == []
    {
      rows, events, receipts, counts := Three(map[], map[], map[]), map[], [], Three(0, 0, 0);
      nextEvent := 0;
      written, emitted := Three([], [], []), map[];
    }

    /** Each commit emits an event under the next number. */
    method Emit(payload: Payload)
      requires Valid()
      modifies this`events, this`nextEvent, this`emitted
      ensures Valid() && nextEvent == old(nextEvent) + 1 && emitted == old(emitted)[old(nextEvent) := payload]
      ensures events == old(events)[old(nextEvent) := payload] && old(nextEvent) !in old(emitted)
    {
      hide AllKept;
      events, emitted := events[nextEvent := payload], emitted[nextEvent := payload];
      nextEvent := nextEvent + 1;
    }

    static method MaxKey(table: Rows) returns (m: nat)
      ensures IsMax(table, m)
    {
      m := 0;
      var left := table.Keys;
      while left != {}
        invariant left <= table.Keys && (m == 0 || m in table)
        invariant forall k :: k in table && k !in left ==> k <= m
        invariant m == 0 && left == {} ==> forall k :: k in table ==> k == 0
        decreases |left|
      {
        var k :| k in left;
        if k > m || m == 0 { m := k; }
        left := left - {k};
      }
    }

    method MaxOrdinal(f: Family) returns (m: nat)
      ensures IsMax(rows.At(f), m)
    {
      m := MaxKey(rows.At(f));
    }

    /** Insert the records one by one; a conflict refuses them all. */
    static method InsertRecords(before: Three<Rows>, pending: seq<Record>) returns (all: Option<Three<Rows>>)
      ensures all == InsertAll(before, pending)
    {
      all := Some(before);
      var i := 0;
      while i < |pending|
        invariant 0 <= i <= |pending| && all.Some? && InsertAll(before, pending[..i]) == all
      {
        assert pending[..i + 1][..i] == pending[..i];
        all := Insert(all.value, pending[i]);
        if all.None? {
          InsertAllFails(before, pending, i);
          return;
        }
        i := i + 1;
      }
      assert pending[..i] == pending;
    }

    /** Write a journal's outbox and counters; on any conflict or counter mismatch nothing changes. An outbox numbered
        on from what was written, with matching counters, always succeeds. */
    method WriteDiagnostics(pending: seq<Record>, expected: Three<nat>) returns (ok: bool)
      requires Valid()
      modifies this`rows, this`counts, this`written
      ensures ok <==> InsertAll(old(rows), pending).Some? && AreMaxima(InsertAll(old(rows), pending).value, expected)
      ensures ok ==> Some(rows) == InsertAll(old(rows), pending) && counts == expected && Extends(old(rows), rows, pending)
      ensures (exists i :: 0 <= i < |pending| && Conflicts(old(rows), pending, i)) ==> !ok
      ensures !ok ==> rows == old(rows) && counts == old(counts) && written == old(written)
      ensures NumberedFrom(pending, Lengths(old(written))) && expected == Lengths(Joined(old(written), pending)) ==>
        ok && Valid() && written == Joined(old(written), pending)
    {
      hide AllKept, Kept, IsMax, EventsKept, InsertAll, Joined, Extends, Conflicts;
      InsertedRows(rows, pending);
      ghost var proper := NumberedFrom(pending, Lengths(written)) && expected == Lengths(Joined(written, pending));
      if proper { InsertAllKeeps(rows, receipts, written, pending); }
      var all := InsertRecords(rows, pending);
      if all.None? { return false; }
      var e := MaxKey(all.value.events);
      var a := MaxKey(all.value.attempts);
      var d := MaxKey(all.value.decisions);
      MaximaUnique(all.value, Three(e, a, d), expected);
      if proper { MaximaAgree(all.value, receipts, Joined(written, pending), e, a, d); }
      ok := Three(e, a, d) == expected;
      if ok {
        rows, counts := all.value, expected;
        if proper { written := Joined(written, pending); }
      }
    }

    /** Copy all rows and events out, with the greatest numbers. */
    method Export() returns (a: Archive)
      requires Valid()
      ensures a.rows == rows && a.events == events && a.marks == counts && IsMax(events, a.eventMark)
      ensures Matches(rows, events, a)
    {
      hide AllKept, IsMax, EventsKept;
      var e := MaxOrdinal(Events);
      var t := MaxOrdinal(Attempts);
      var d := MaxOrdinal(Decisions);
      var last := MaxKey(events);
      MaximaAgree(rows, receipts, written, e, t, d);
      a := Archive(rows, Three(e, t, d), events, last);
      WholeUpto(rows.events, e);
      WholeUpto(rows.attempts, t);
      WholeUpto(rows.decisions, d);
      WholeUpto(events, last);
    }

    /** Delete archived rows and events, but never the newest ones, and only for a settled, owned session whose archive
        still matches what is stored. */
    method Prune(a: Archive, keep: int, keepEvents: int, standing: Standing) returns (ok: bool)
      requires Valid()
      modifies this`rows, this`events, this`receipts
      ensures Valid()
      ensures ok <==>
        keep >= 32 && keepEvents >= 1 && standing == Standing(true, false, 0, true, 0) &&
        (forall f :: CopiedUpto(old(rows).At(f), a.marks.At(f), a.rows.At(f))) &&
        CopiedUpto(old(events), a.eventMark, a.events)
      ensures ok ==> receipts == old(receipts) + [a]
      ensures ok ==> forall f :: LeftOf(rows.At(f), old(rows).At(f), a.marks.At(f), counts.At(f), keep)
      ensures ok ==> EventsLeft(events, old(events), a.eventMark, keepEvents)
      ensures !ok ==> receipts == old(receipts) && rows == old(rows) && events == old(events)
    {
      hide AllKept, Pruned, EventsKept, PrunedEvents, CopiedUpto, LeftOf, EventsLeft, Upto;
      MatchesIff(rows, events, a);
      PrunedLeaves(rows, events, a, counts, keep, keepEvents);
      if keep < RECENT || keepEvents < 1 || !MayPrune(standing) { return false; }
      ok := Matches(rows, events, a);
      if ok {
        PruneKeeps(rows, events, receipts, written, a, keep);
        PruneKeepsEvents(events, receipts, emitted, a, keepEvents);
        rows, events := Pruned(rows, a, counts, keep), PrunedEvents(events, a.eventMark, keepEvents);
        receipts := receipts + [a];
      }
    }

    /** The newest rows of one family, oldest first. */
    method Newest(f: Family) returns (r: seq<Record>)
      requires Valid()
      ensures r == Numbered(f, LastOf(written.At(f), RECENT), |written.At(f)|)
    {
      hide AllKept, IsMax, Kept;
      ghost var log := written.At(f);
      FamilyKept(rows, receipts, written, f);
      var k := MaxOrdinal(f);
      MaxIsCount(rows.At(f), receipts, f, log, k);
      r := [];
      ghost var n := |log|;
      while |r| < RECENT && k > 0
        invariant k == n - |r| && |r| <= RECENT && |r| <= n
        invariant r == Numbered(f, log[n - |r|..], n)
        decreases k
      {
        OneMore(rows.At(f), receipts, f, log, r, k);
        r := [Record(f, k, rows.At(f)[k])] + r;
        k := k - 1;
      }
      assert log[n - |r|..] == LastOf(log, RECENT);
    }
  }

  lemma {:induction false} OneMore(rows: Rows, receipts: seq<Archive>, f: Family, log: seq<Payload>, r: seq<Record>, k: nat)
    requires Kept(rows, receipts, f, log) && 0 < k <= |log| && |r| == |log| - k && |r| < RECENT
    requires r == Numbered(f, log[k..], |log|)
    ensures k in rows && [Record(f, k, rows[k])] + r == Numbered(f, log[k - 1..], |log|)
  {
    assert k in rows && rows[k] == log[k - 1];
    var more := [Record(f, k, rows[k])] + r;
    forall i | 0 <= i < |more| ensures more[i] == Numbered(f, log[k - 1..], |log|)[i] {
      if i > 0 { assert more[i] == r[i - 1] && log[k - 1..][i] == log[k..][i - 1]; }
    }
  }

  predicate AreMaxima(rows: Three<Rows>, m: Three<nat>) {
    IsMax(rows.events, m.events) && IsMax(rows.attempts, m.attempts) && IsMax(rows.decisions, m.decisions)
  }

  lemma {:induction false} OneMax(rows: Rows, m: nat, n: nat)
    requires IsMax(rows, m)
    ensures IsMax(rows, n) <==> m == n
  {
  }

  lemma {:induction false} MaximaUnique(rows: Three<Rows>, m: Three<nat>, n: Three<nat>)
    requires AreMaxima(rows, m)
    ensures AreMaxima(rows, n) <==> m == n
  {
    hide IsMax;
    OneMax(rows.events, m.events, n.events);
    OneMax(rows.attempts, m.attempts, n.attempts);
    OneMax(rows.decisions, m.decisions, n.decisions);
  }

  /** A conflict anywhere refuses the whole outbox. */
  lemma {:induction false} InsertAllFails(rows: Three<Rows>, records: seq<Record>, i: nat)
    requires i < |records| && InsertAll(rows, records[..i + 1]).None?
    ensures InsertAll(rows, records).None?
    decreases |records|
  {
    if InsertAll(rows, records).Some? { InsertAllPrefix(rows, records, i + 1); }
  }

  /** Payloads with consecutive ordinals ending at `last`. */
  function Numbered(f: Family, payloads: seq<Payload>, last: nat): (r: seq<Record>)
    requires |payloads| <= last
    ensures |r| == |payloads|
    ensures forall i :: 0 <= i < |r| ==> r[i] == Record(f, last - |payloads| + i + 1, payloads[i])
  {
    seq(|payloads|, i requires 0 <= i < |payloads| => Record(f, last - |payloads| + i + 1, payloads[i]))
  }

  lemma {:induction false} FamilyKept(rows: Three<Rows>, receipts: seq<Archive>, written: Three<seq<Payload>>, f: Family)
    requires AllKept(rows, receipts, written)
    ensures Kept(rows.At(f), receipts, f, written.At(f))
  {
  }

  lemma {:induction false} MaximaAgree(rows: Three<Rows>, receipts: seq<Archive>, written: Three<seq<Payload>>,
                                       e: nat, a: nat, d: nat)
    requires AllKept(rows, receipts, written)
    requires IsMax(rows.At(Events), e) && IsMax(rows.At(Attempts), a) && IsMax(rows.At(Decisions), d)
    ensures Three(e, a, d) == Lengths(written)
  {
    hide Kept, IsMax;
    assert forall f :: Kept(rows.At(f), receipts, f, written.At(f));
    MaxIsCount(rows.At(Events), receipts, Events, written.At(Events), e);
    MaxIsCount(rows.At(Attempts), receipts, Attempts, written.At(Attempts), a);
    MaxIsCount(rows.At(Decisions), receipts, Decisions, written.At(Decisions), d);
  }

  lemma {:induction false} WholeUpto(rows: Rows, m: nat)
    requires IsMax(rows, m)
    ensures Upto(rows, m) == rows
  {
  }

  lemma {:induction false} InsertAllPrefix(rows: Three<Rows>, records: seq<Record>, n: nat)
    requires InsertAll(rows, records).Some? && n <= |records|
    ensures InsertAll(rows, records[..n]).Some?
    decreases |records|
  {
    if n == |records| {
      assert records[..n] == records;
    } else {
      InsertAllPrefix(rows, records[..|records| - 1], n);
      assert records[..|records| - 1][..n] == records[..n];
    }
  }
}
