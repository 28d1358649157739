/** Logical actions: intent, dispatch attempts, the deduplicating recipient, recovery after a crash or takeover. */
module Actions {
  import opened Options

  type Id = nat

  datatype Tool = Fixture | Other(name: Id)
  datatype Mode = ReadOnly | Repeatable | Idempotent | Reconcile

  /** The fields frozen when the intent is committed. Digests are taken to be injective,
      so the action key and the payload fingerprint are the digested content. */
  datatype Frozen = Frozen(tool: Tool, args: Id, mode: Mode, maxAttempts: nat)
  datatype Key = Key(namespace: Id, session: Id, execution: Id)
  datatype Payload = Payload(tool: Tool, args: Id)

  datatype Effect = Effect(key: Key, value: Id)
  datatype Text = Canonical(effect: Effect) | Raw(text: Id, error: bool)

  datatype Kind = Dispatch | Verify
  datatype AttemptStatus = Running | Success | Failure | Unknown
  datatype Attempt = Attempt(id: Id, number: nat, kind: Kind, status: AttemptStatus,
                             fence: nat, payload: Payload, evidence: Option<Text>)

  datatype Status = Pending | Started | Succeeded | Failed | Uncertain | Blocked

  /** A row of `agent_tool_executions` with its `agent_action_attempts` rows in insertion order. */
  datatype Execution = Execution(frozen: Frozen, key: Key, payload: Payload, attempts: nat,
                                 status: Status, result: Option<Text>, rows: seq<Attempt>)

  /** A row of the recipient's own table. */
  datatype Row = Row(key: Key, payload: Payload, effect: Effect)

  predicate Terminal(status: Status) {
    status == Succeeded || status == Failed
  }

  function PayloadOf(f: Frozen): Payload {
    Payload(f.tool, f.args)
  }

  /** The fixture result: computed from the key and the arguments alone. */
  function EffectOf(key: Key, payload: Payload): Effect {
    Effect(key, payload.args)
  }

  function Intent(id: Id, frozen: Frozen, namespace: Id, session: Id): Execution {
    Execution(frozen, Key(namespace, session, id), PayloadOf(frozen), 0, Pending, None, [])
  }

  // ------------------------------------------------------------ recipient

  function FindRow(table: seq<Row>, key: Key): (r: Option<nat>)
    ensures r.None? ==> forall i :: 0 <= i < |table| ==> table[i].key != key
    ensures r.Some? ==> r.value < |table| && table[r.value].key == key
  {
    if table == [] then None
    else if table[|table| - 1].key == key then Some(|table| - 1)
    else FindRow(table[..|table| - 1], key)
  }

  /** `recipient`: insert unless the key is taken, read the row back, refuse another payload (and roll back). */
  function Deliver(table: seq<Row>, key: Key, payload: Payload): (seq<Row>, Option<Text>) {
    match FindRow(table, key)
    case None => (table + [Row(key, payload, EffectOf(key, payload))], Some(Canonical(EffectOf(key, payload))))
    case Some(i) => (table, if table[i].payload == payload then Some(Canonical(table[i].effect)) else None)
  }

  // ------------------------------------------------------------ write_tool_executions

  function FindAttempt(rows: seq<Attempt>, id: Id): (r: Option<nat>)
    ensures r.None? ==> forall i :: 0 <= i < |rows| ==> rows[i].id != id
    ensures r.Some? ==> r.value < |rows| && rows[r.value].id == id
  {
    if rows == [] then None
    else if rows[|rows| - 1].id == id then Some(|rows| - 1)
    else FindAttempt(rows[..|rows| - 1], id)
  }

  predicate NumberFree(rows: seq<Attempt>, number: nat) {
    forall i :: 0 <= i < |rows| ==> rows[i].number != number
  }

  /** One pending attempt: insert it, settle a running one, or accept an unchanged settled one. */
  function WriteAttempt(rows: seq<Attempt>, a: Attempt): Option<seq<Attempt>> {
    match FindAttempt(rows, a.id)
    case None => if NumberFree(rows, a.number) then Some(rows + [a]) else None
    case Some(i) =>
      var stored := rows[i];
      if stored.number != a.number || stored.kind != a.kind || stored.payload != a.payload || stored.fence != a.fence then None
      else if stored.status != Running then
        if stored.status == a.status && stored.evidence == a.evidence then Some(rows) else None
      else Some(rows[i := a])
  }

  function WriteAttempts(rows: seq<Attempt>, pending: seq<Attempt>): Option<seq<Attempt>>
    decreases |pending|
  {
    if pending == [] then Some(rows)
    else
      match WriteAttempt(rows, pending[0])
      case None => None
      case Some(rows') => WriteAttempts(rows', pending[1..])
  }

  /** A pending aggregate: bounded attempts that do not go down, unchanged frozen fields, unchanged terminal result. */
  function WriteAggregate(stored: Option<Execution>, e: Execution): Option<Execution> {
    if e.attempts > e.frozen.maxAttempts then None
    else if stored.None? then Some(e.(rows := []))
    else
      var s := stored.value;
      if e.attempts < s.attempts || e.frozen != s.frozen || e.key != s.key || e.payload != s.payload then None
      else if Terminal(s.status) && (e.status != s.status || e.result != s.result) then None
      else Some(e.(rows := s.rows))
  }

  /** What one worker stages for its next commit. */
  datatype Batch = Batch(id: Id, put: Option<Execution>, attempts: seq<Attempt>)

  function WriteBatch(table: map<Id, Execution>, b: Batch): Option<map<Id, Execution>> {
    var stored := if b.id in table then Some(table[b.id]) else None;
    var put := if b.put.None? then stored else WriteAggregate(stored, b.put.value);
    if b.put.None? && b.attempts == [] then Some(table)
    else if put.None? then None
    else
      match WriteAttempts(put.value.rows, b.attempts)
      case None => None
      case Some(rows) => Some(table[b.id := put.value.(rows := rows)])
  }

  // ------------------------------------------------------------ dispatch

  function MaxNumber(rows: seq<Attempt>): nat {
    if rows == [] then 0
    else
      var rest := MaxNumber(rows[..|rows| - 1]);
      if rows[|rows| - 1].number > rest then rows[|rows| - 1].number else rest
  }

  /** The highest recorded attempt number, or the dispatch count when no attempt is recorded. */
  function Ordinal(e: Execution): nat {
    if e.rows == [] then e.attempts else MaxNumber(e.rows)
  }

  /** The attempts a former owner left running, now settled as unknown. */
  function Orphans(rows: seq<Attempt>): seq<Attempt> {
    if rows == [] then []
    else
      var last := rows[|rows| - 1];
      Orphans(rows[..|rows| - 1]) + if last.status == Running then [last.(status := Unknown)] else []
  }

  /** What a worker does once its staged batch is committed. */
  datatype Then =
    | Proceed(id: Id)                  // decide what to do with the action
    | ReadReceipt(id: Id, number: nat) // a verification attempt is recorded: read the recipient
    | AfterVerify(id: Id)              // the verification established nothing
    | Call(id: Id, number: nat)        // a dispatch attempt is recorded: make the external call
    | Stop

  datatype Pc = Idle | Committing(batch: Batch, next: Then) | At(next: Then)

  /** A dispatch is allowed again only where repeating it is harmless or the recipient deduplicates it. */
  predicate MayRepeat(f: Frozen) {
    f.mode == ReadOnly || f.mode == Repeatable || (f.mode == Idempotent && f.tool == Fixture)
  }

  /** From the recovery guard to the started attempt. */
  function Guarded(id: Id, e: Execution, attempt: Id, fence: nat): Pc {
    if e.status != Pending && !MayRepeat(e.frozen) then
      Committing(Batch(id, Some(e.(status := Blocked)), []), Stop)
    else if e.attempts >= e.frozen.maxAttempts then At(Stop)
    else if e.frozen.mode == Idempotent && e.frozen.tool != Fixture then At(Stop)
    else
      var number := Ordinal(e) + 1;
      Committing(Batch(id, Some(e.(status := Started, attempts := e.attempts + 1)),
                       [Attempt(attempt, number, Dispatch, Running, fence, e.payload, None)]),
                 Call(id, number))
  }

  /** From the settled prior attempts to a verification, or to the recovery guard. */
  function Decided(id: Id, e: Execution, attempt: Id, fence: nat): Pc {
    if e.status != Pending && e.frozen.mode == Reconcile && e.frozen.tool == Fixture then
      var number := Ordinal(e) + 1;
      Committing(Batch(id, None, [Attempt(attempt, number, Verify, Running, fence, e.payload, None)]),
                 ReadReceipt(id, number))
    else Guarded(id, e, attempt, fence)
  }

  /** The start of `dispatch` for a recorded action. */
  function Begun(id: Id, e: Execution, attempt: Id, fence: nat): Pc {
    if Terminal(e.status) then At(Stop)
    else if Orphans(e.rows) != [] then Committing(Batch(id, None, Orphans(e.rows)), Proceed(id))
    else Decided(id, e, attempt, fence)
  }

  function StatusOf(text: Text): (Status, AttemptStatus) {
    if text.Raw? && text.error then (Failed, Failure) else (Succeeded, Success)
  }

  /** After the external call: settle the attempt, and the action if an outcome came back. */
  function Settled(id: Id, e: Execution, number: nat, output: Option<Text>): Pc
    requires 1 <= number <= |e.rows|
  {
    var a := e.rows[number - 1];
    match output
    case Some(text) =>
      var (status, outcome) := StatusOf(text);
      Committing(Batch(id, Some(e.(status := status, result := Some(text))),
                       [a.(status := outcome, evidence := Some(text))]), Stop)
    case None =>
      Committing(Batch(id, Some(e.(status := Uncertain)), [a.(status := Unknown)]), Stop)
  }

  /** After reading the recipient: a row with the frozen payload is the outcome, anything else establishes nothing. */
  function Verified(id: Id, e: Execution, number: nat, row: Option<Row>): Pc
    requires 1 <= number <= |e.rows|
  {
    var a := e.rows[number - 1];
    if row.Some? && row.value.payload == e.payload then
      var text := Canonical(row.value.effect);
      Committing(Batch(id, Some(e.(status := Succeeded, result := Some(text))),
                       [a.(status := Success, evidence := Some(text))]), Stop)
    else
      Committing(Batch(id, None, [a.(status := Unknown)]), AfterVerify(id))
  }
}
