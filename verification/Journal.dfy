/** The session's side of the diagnostics: appending, saving and loading back. */
module Journal {
  import opened Options
  import opened Diagnostics

  function Filter(records: seq<Record>, f: Family): (r: seq<Record>)
    ensures |r| <= |records|
  {
    if records == [] then []
    else If(records[0], f) + Filter(records[1..], f)
  }

  function If(r: Record, f: Family): (s: seq<Record>)
    ensures |s| <= 1
  {
    if r.family == f then [r] else []
  }

  function Payloads(records: seq<Record>): (r: seq<Payload>)
    ensures |r| == |records| && forall i :: 0 <= i < |r| ==> r[i] == records[i].payload
  {
    seq(|records|, i requires 0 <= i < |records| => records[i].payload)
  }

  /** The rows of one family are its newest, up to the cache bound and without a gap. */
  predicate Contiguous(rows: seq<Record>, count: nat) {
    |rows| == Min(count, RECENT) &&
    forall i :: 0 <= i < |rows| ==> rows[i].ordinal == count - |rows| + i + 1
  }

  /** All rows when there are at most 32, else 32 of them, and the last has the family's count for its ordinal. */
  predicate NewestInOrder(rows: seq<Record>, count: nat) {
    |rows| <= 32 && (|rows| == count || |rows| == 32 < count) && (rows != [] ==> rows[|rows| - 1].ordinal == count) &&
    forall i :: 0 < i < |rows| ==> rows[i].ordinal == rows[i - 1].ordinal + 1
  }

  lemma {:induction false} ContiguousIff(rows: seq<Record>, count: nat)
    ensures NewestInOrder(rows, count) <==> Contiguous(rows, count)
  {
    if NewestInOrder(rows, count) { OrdinalsBack(rows, count, |rows|); }
  }

  lemma {:induction false} OrdinalsBack(rows: seq<Record>, count: nat, n: nat)
    requires NewestInOrder(rows, count) && n <= |rows|
    ensures forall i :: |rows| - n <= i < |rows| ==> rows[i].ordinal == count - |rows| + i + 1
    decreases n
  {
    if n > 1 {
      OrdinalsBack(rows, count, n - 1);
      var i := |rows| - n;
      assert rows[i + 1].ordinal == rows[i].ordinal + 1;
    }
  }

  lemma {:induction false} FilterConcat(a: seq<Record>, b: seq<Record>, f: Family)
    ensures Filter(a + b, f) == Filter(a, f) + Filter(b, f)
    decreases |a|
  {
    hide If;
    if a == [] {
      assert a + b == b;
    } else {
      assert (a + b)[1..] == a[1..] + b;
      FilterConcat(a[1..], b, f);
    }
  }

  lemma {:induction false} FilterUniform(records: seq<Record>, g: Family, f: Family)
    requires forall i :: 0 <= i < |records| ==> records[i].family == g
    ensures Filter(records, f) == if f == g then records else []
    decreases |records|
  {
    if records != [] {
      FilterUniform(records[1..], g, f);
      assert records == [records[0]] + records[1..];
    }
  }

  lemma {:induction false} FilterThree(a: seq<Record>, b: seq<Record>, c: seq<Record>)
    requires forall i :: 0 <= i < |a| ==> a[i].family == Events
    requires forall i :: 0 <= i < |b| ==> b[i].family == Attempts
    requires forall i :: 0 <= i < |c| ==> c[i].family == Decisions
    ensures Filter(a + b + c, Events) == a && Filter(a + b + c, Attempts) == b && Filter(a + b + c, Decisions) == c
  {
    hide Filter;
    forall f: Family ensures Filter(a + b + c, f) == Filter(a, f) + Filter(b, f) + Filter(c, f) {
      FilterConcat(a + b, c, f);
      FilterConcat(a, b, f);
    }
    forall f: Family
      ensures Filter(a, f) == (if f == Events then a else []) && Filter(b, f) == (if f == Attempts then b else [])
      ensures Filter(c, f) == (if f == Decisions then c else [])
    {
      FilterUniform(a, Events, f);
      FilterUniform(b, Attempts, f);
      FilterUniform(c, Decisions, f);
    }
    assert Filter(a + b + c, Events) == a + [] + [];
    assert Filter(a + b + c, Attempts) == [] + b + [];
    assert Filter(a + b + c, Decisions) == [] + [] + c;
  }

  /** A log that is kept and one more entry, cached. */
  lemma {:induction false} CacheStep(log: seq<Payload>, p: Payload)
    ensures LastOf(LastOf(log, RECENT) + [p], RECENT) == LastOf(log + [p], RECENT)
  {
    var cached := LastOf(log, RECENT) + [p];
    if |log| >= RECENT {
      assert LastOf(cached, RECENT) == (log + [p])[|log| + 1 - RECENT..];
    }
  }

  class SessionJournal {
    var counts: Three<nat>
    var recent: Three<seq<Payload>>
    var pending: seq<Record>
    var complete: bool
    /** Everything recorded in this session's lifetime, and the part of it that is known to be saved. */
    ghost var log: Three<seq<Payload>>
    ghost var base: Three<seq<Payload>>

    ghost predicate Valid()
      reads this
    {
      counts == Lengths(log) && Cached(recent, log) && NumberedFrom(pending, Lengths(base)) &&
      log == Joined(base, pending) && (complete <==> Complete(counts, recent))
    }

    constructor ()
      ensures Valid() && log == base == Three([], [], []) && pending == []
    {
      counts, recent, pending, complete := Three(0, 0, 0), Three([], [], []), [], true;
      log, base := Three([], [], []), Three([], [], []);
    }

    /** Count the entry, cache it, and put it into the outbox. */
    method Append(f: Family, payload: Payload)
      requires Valid()
      modifies this
      ensures Valid() && base == old(base)
      ensures log == old(log).With(f, old(log).At(f) + [payload])
      ensures pending == old(pending) + [Record(f, old(counts).At(f) + 1, payload)]
    {
      hide NumberedFrom, Of, LastOf;
      var ordinal := counts.At(f) + 1;
      var r := Record(f, ordinal, payload);
      CacheStep(log.At(f), payload);
      NumberedAppend(pending, r, Lengths(base));
      JoinedStep(base, pending, r);
      recent := recent.With(f, LastOf(recent.At(f) + [payload], RECENT));
      counts := counts.With(f, ordinal);
      pending := pending + [r];
      log := log.With(f, log.At(f) + [payload]);
      complete := Complete(counts, recent);
    }

    /** Commit the outbox with the event of the commit, and acknowledge it. */
    method Save(t: Telemetry, event: Payload) returns (ok: bool)
      requires Valid() && t.Valid() && t.written == base
      modifies this, t
      ensures ok && Valid() && t.Valid() && log == old(log)
      ensures t.written == log && base == log && pending == [] && t.receipts == old(t.receipts)
      ensures t.emitted == old(t.emitted)[old(t.nextEvent) := event] && t.nextEvent == old(t.nextEvent) + 1
    {
      hide NumberedFrom, AllKept, EventsKept, AreMaxima;
      ok := t.WriteDiagnostics(pending, counts);
      t.Emit(event);
      base := log;
      pending := [];
      JoinedNothing(log);
    }

    /** Restore the caches from the newest stored rows; a counter mismatch or a gap is refused. */
    method Hydrate(records: seq<Record>, stored: Three<nat>) returns (ok: bool)
      modifies this`recent, this`pending, this`complete
      ensures ok <==> stored == counts && forall f :: NewestInOrder(Filter(records, f), counts.At(f))
      ensures ok ==> forall f :: recent.At(f) == Payloads(Filter(records, f))
      ensures ok ==> pending == [] && (complete <==> Complete(counts, recent))
    {
      hide Contiguous, NewestInOrder, Filter, Complete;
      forall f ensures NewestInOrder(Filter(records, f), counts.At(f)) <==> Contiguous(Filter(records, f), counts.At(f)) {
        ContiguousIff(Filter(records, f), counts.At(f));
      }
      recent := Three([], [], []);
      var families := [Events, Attempts, Decisions];
      var i := 0;
      while i < 3
        invariant 0 <= i <= 3 && pending == old(pending) && complete == old(complete)
        invariant forall j | 0 <= j < i :: Restored(records, stored, counts, recent, families[j])
      {
        var f := families[i];
        if stored.At(f) != counts.At(f) { return false; }
        var rows := Filter(records, f);
        if !Contiguous(rows, counts.At(f)) { return false; }
        recent := recent.With(f, Payloads(rows));
        i := i + 1;
      }
      assert families[0] == Events && families[1] == Attempts && families[2] == Decisions;
      pending, complete := [], Complete(counts, recent);
      ok := true;
    }
  }

  /** The family's counter agrees, its rows are its newest, and the cache holds them. */
  predicate Restored(records: seq<Record>, stored: Three<nat>, counts: Three<nat>, recent: Three<seq<Payload>>,
                     f: Family)
  {
    stored.At(f) == counts.At(f) && Contiguous(Filter(records, f), counts.At(f)) &&
    recent.At(f) == Payloads(Filter(records, f))
  }

  predicate Complete(counts: Three<nat>, recent: Three<seq<Payload>>) {
    counts.events == |recent.events| && counts.attempts == |recent.attempts| && counts.decisions == |recent.decisions|
  }

  predicate Cached(recent: Three<seq<Payload>>, log: Three<seq<Payload>>) {
    recent == Three(LastOf(log.events, RECENT), LastOf(log.attempts, RECENT), LastOf(log.decisions, RECENT))
  }

  lemma {:induction false} JoinedNothing(log: Three<seq<Payload>>)
    ensures Joined(log, []) == log && NumberedFrom([], Lengths(log))
  {
    assert log.events + [] == log.events && log.attempts + [] == log.attempts;
    assert log.decisions + [] == log.decisions;
  }

  lemma {:induction false} NumberedIsContiguous(f: Family, log: seq<Payload>)
    ensures var r := Numbered(f, LastOf(log, RECENT), |log|);
      Contiguous(r, |log|) && Payloads(r) == LastOf(log, RECENT) && forall i :: 0 <= i < |r| ==> r[i].family == f
  {
  }

  lemma {:induction false} NewestFiltered(log: Three<seq<Payload>>, e: seq<Record>, a: seq<Record>, d: seq<Record>)
    requires e == Numbered(Events, LastOf(log.events, RECENT), |log.events|)
    requires a == Numbered(Attempts, LastOf(log.attempts, RECENT), |log.attempts|)
    requires d == Numbered(Decisions, LastOf(log.decisions, RECENT), |log.decisions|)
    ensures forall f :: Contiguous(Filter(e + a + d, f), |log.At(f)|)
    ensures forall f :: Payloads(Filter(e + a + d, f)) == LastOf(log.At(f), RECENT)
  {
    NumberedIsContiguous(Events, log.events);
    NumberedIsContiguous(Attempts, log.attempts);
    NumberedIsContiguous(Decisions, log.decisions);
    hide Contiguous, Filter, Diagnostics.LastOf;
    FilterThree(e, a, d);
  }

  /** What one read snapshot of the database returns: the newest rows, and the greatest ordinals. */
  method Fetch(t: Telemetry) returns (records: seq<Record>, stored: Three<nat>)
    requires t.Valid()
    ensures stored == t.counts
    ensures forall f :: Contiguous(Filter(records, f), t.counts.At(f))
    ensures forall f :: Payloads(Filter(records, f)) == LastOf(t.written.At(f), RECENT)
  {
    hide Diagnostics.LastOf, AllKept, Contiguous, IsMax;
    var e := t.Newest(Events);
    var a := t.Newest(Attempts);
    var d := t.Newest(Decisions);
    NewestFiltered(t.written, e, a, d);
    var me := t.MaxOrdinal(Events);
    var ma := t.MaxOrdinal(Attempts);
    var md := t.MaxOrdinal(Decisions);
    MaximaAgree(t.rows, t.receipts, t.written, me, ma, md);
    records, stored := e + a + d, Three(me, ma, md);
  }

  /** Loading always succeeds, however much was pruned, and restores the newest entries of every family. */
  method Load(t: Telemetry) returns (j: SessionJournal, ok: bool)
    requires t.Valid()
    ensures fresh(j) && ok && j.Valid() && j.log == j.base == t.written && j.pending == []
    ensures j.counts == t.counts && Cached(j.recent, t.written)
  {
    hide Diagnostics.LastOf, AllKept, Contiguous, NewestInOrder, Filter;
    var records, stored := Fetch(t);
    j := new SessionJournal();
    j.counts := t.counts;
    forall f ensures NewestInOrder(Filter(records, f), t.counts.At(f)) { ContiguousIff(Filter(records, f), t.counts.At(f)); }
    ok := j.Hydrate(records, stored);
    j.log, j.base := t.written, t.written;
    JoinedNothing(t.written);
    CachedAll(j.recent, t.written);
  }

  lemma {:induction false} CachedAll(recent: Three<seq<Payload>>, log: Three<seq<Payload>>)
    requires forall f :: recent.At(f) == LastOf(log.At(f), RECENT)
    ensures Cached(recent, log)
  {
    hide Diagnostics.LastOf;
    assert recent.At(Events) == recent.events && recent.At(Attempts) == recent.attempts;
    assert recent.At(Decisions) == recent.decisions;
  }

  // ------------------------------------------------------------ whole lifetimes

  /** What can happen to a session's diagnostics; `Restart` loses whatever was not saved. */
  datatype Step =
    | Note(family: Family, payload: Payload) | Commit(event: Payload) | Copy
    | Erase(archive: nat, keep: int, keepEvents: int, standing: Standing) | Restart

  function Committed(steps: seq<Step>): Three<seq<Payload>> {
    Replay(steps).0
  }

  /** What one step makes of what is committed and what is only recorded so far. */
  function Advance(done: Three<seq<Payload>>, all: Three<seq<Payload>>, step: Step)
    : (Three<seq<Payload>>, Three<seq<Payload>>)
  {
    match step
    case Note(f, p) => (done, all.With(f, all.At(f) + [p]))
    case Commit(_) => (all, all)
    case Restart => (done, done)
    case _ => (done, all)
  }

  function Replay(steps: seq<Step>): (Three<seq<Payload>>, Three<seq<Payload>>) {
    if steps == [] then (Three([], [], []), Three([], [], []))
    else
      var (done, all) := Replay(steps[..|steps| - 1]);
      Advance(done, all, steps[|steps| - 1])
  }

  function Commits(steps: seq<Step>): nat {
    if steps == [] then 0 else Commits(steps[..|steps| - 1]) + if steps[|steps| - 1].Commit? then 1 else 0
  }

  /** One step of a session's life. */
  method Happen(step: Step, t: Telemetry, j: SessionJournal, archives: seq<Archive>)
    returns (next: SessionJournal, more: seq<Archive>)
    requires t.Valid() && j.Valid() && t.written == j.base
    modifies t, j
    ensures t.Valid() && next.Valid() && t.written == next.base && (next == j || fresh(next))
    ensures (t.written, next.log) == Advance(old(t.written), old(j.log), step)
    ensures t.nextEvent == old(t.nextEvent) + if step.Commit? then 1 else 0
  {
    hide AllKept, Matches, Pruned, EventsKept, PrunedEvents;
    next, more := j, archives;
    match step {
      case Note(f, p) => j.Append(f, p);
      case Commit(event) => { var _ := j.Save(t, event); }
      case Copy => { var a := t.Export(); more := archives + [a]; }
      case Erase(k, keep, keepEvents, standing) =>
        if k < |archives| { var _ := t.Prune(archives[k], keep, keepEvents, standing); }
      case Restart => { var ok; next, ok := Load(t); }
    }
  }

  /** Whatever was recorded, committed, copied out and erased, in any order: everything committed is stored or in a
      receipted archive, the greatest ordinals are the lifetime counts, and loading restores the newest entries. */
  method Lifetime(steps: seq<Step>) returns (t: Telemetry, j: SessionJournal)
    ensures t.Valid() && j.Valid() && t.written == Committed(steps) && t.nextEvent == Commits(steps)
    ensures j.log == t.written && Cached(j.recent, Committed(steps))
  {
    hide AllKept, EventsKept, Advance;
    t := new Telemetry();
    j := new SessionJournal();
    var archives: seq<Archive> := [];
    var i := 0;
    while i < |steps|
      invariant 0 <= i <= |steps| && fresh(t) && fresh(j) && t.Valid() && j.Valid()
      invariant t.nextEvent == Commits(steps[..i])
      invariant t.written == j.base && Replay(steps[..i]) == (t.written, j.log)
    {
      assert steps[..i + 1][..i] == steps[..i];
      j, archives := Happen(steps[i], t, j, archives);
      i := i + 1;
    }
    assert steps[..i] == steps;
    var ok;
    j, ok := Load(t);
  }
}
