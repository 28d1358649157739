/** The two views of a save joined: `save_inner` with its receipts and retries, and the commit of a staged tool batch. */
module Layers {
  import opened Options
  import opened Ledger
  import opened LedgerWorld
  import Store
  import Actions
  import ActionWorld
  import ActionTheorems
  import Dispatcher

  /** The database, and the tool tables of one of its sessions with the workers that dispatch from it. */
  datatype Joint = Joint(db: Db, session: Id, tools: ActionWorld.World)

  ghost predicate Joined(j: Joint) {
    ActionTheorems.Reachable(j.tools) && Store.Revision(j.db, j.session) == j.tools.revision
  }

  /** `save` told its caller that the proposal is committed and nothing came after it. */
  predicate Told(result: Option<Outcome>) {
    result.Some? && (result.value.Done? || (result.value.Found? && !result.value.reload))
  }

  /** What a `save` amounts to for the staged batch. */
  function LandingOf(d: Db, p: Proposal, net: seq<Net>, lags: seq<nat>): ActionWorld.Landing
    requires |net| == |lags|
  {
    var (d', result) := Store.SaveFrom(d, p, net, lags);
    if Store.Revision(d', p.session) == Store.Revision(d, p.session) then ActionWorld.Missed
    else if Told(result) then ActionWorld.Landed
    else ActionWorld.LandedUnknown
  }

  datatype Event =
    | Act(e: ActionWorld.Event)                                    // a worker's step that commits nothing
    | Save(w: Id, p: Proposal, net: seq<Net>, lags: seq<nat>)      // a worker saves its staged batch
    | Elsewhere(d: Db)                                             // anything that leaves this session's revision alone

  ghost predicate Enabled(j: Joint, e: Event) {
    match e
    case Act(a) => !a.Commit? && !a.OtherCommit?
    case Save(w, p, net, lags) =>
      |net| == |lags| && p.session == j.session && !Store.Committed(j.db, p) && w in j.tools.workers &&
      j.tools.workers[w].pc.Committing? && p.revision == j.tools.workers[w].revision
    case Elsewhere(d) => Store.Revision(d, j.session) == Store.Revision(j.db, j.session)
  }

  ghost function Step(j: Joint, e: Event): Joint {
    if !Enabled(j, e) then j
    else
      match e
      case Act(a) => j.(tools := ActionWorld.Step(j.tools, a))
      case Save(w, p, net, lags) =>
        j.(db := Store.SaveFrom(j.db, p, net, lags).0,
           tools := ActionWorld.Step(j.tools, ActionWorld.Commit(w, LandingOf(j.db, p, net, lags))))
      case Elsewhere(d) => j.(db := d)
  }

  ghost function After(j: Joint, trace: seq<Event>): Joint
    decreases |trace|
  {
    if trace == [] then j else After(Step(j, trace[0]), trace[1..])
  }

  /** A save that advances the revision was proposed at the revision it advances. */
  lemma {:induction false} SavedAtRevision(d: Db, p: Proposal, net: seq<Net>, lags: seq<nat>)
    requires |net| == |lags| && Store.Revision(Store.SaveFrom(d, p, net, lags).0, p.session) != Store.Revision(d, p.session)
    ensures p.revision == Store.Revision(d, p.session)
    decreases |net|
  {
    hide Sealed, WriteEntries, Holds;
    if net[0] == NotDelivered {
      SavedAtRevision(d, p, net[1..], lags[1..]);
    } else {
      var (d', outcome) := CommitTx(d, p, lags[0]);
      Store.CommitAddsReceipt(d, p, lags[0]);
      if !outcome.Done? { SavedAtRevision(d', p, net[1..], lags[1..]); }
    }
  }

  /** A save of a staged batch commits in the database exactly when the batch lands in the tool tables: both revisions
      stay level, the batch is written whole or not at all, and a worker told of success is level and goes on. */
  lemma {:induction false} SaveIsLand(j: Joint, w: Id, p: Proposal, net: seq<Net>, lags: seq<nat>)
    requires Joined(j) && Enabled(j, Save(w, p, net, lags))
    ensures var k := Step(j, Save(w, p, net, lags)); var was := j.tools.workers[w];
      Joined(k) && w in k.tools.workers &&
      (if Store.Committed(k.db, p)
       then k.tools.revision == j.tools.revision + 1 && Some(k.tools.table) == Actions.WriteBatch(j.tools.table, was.pc.batch)
       else k.tools.revision == j.tools.revision && k.tools.table == j.tools.table) &&
      (Told(Store.SaveFrom(j.db, p, net, lags).1) ==>
        k.tools.workers[w] == ActionWorld.Worker(k.tools.revision, was.fence, k.tools.table, Actions.At(was.pc.next)))
  {
    hide CommitTx, Store.SaveFrom, Actions.WriteBatch, ActionTheorems.Reachable;
    var landing := LandingOf(j.db, p, net, lags);
    Store.SaveAtMostOnce(j.db, p, net, lags);
    if landing != ActionWorld.Missed { SavedAtRevision(j.db, p, net, lags); }
    ActionTheorems.NeverRefused(j.tools, w);
    Reaches(j.tools, ActionWorld.Commit(w, landing));
  }

  lemma {:induction false} Reaches(g: ActionWorld.World, e: ActionWorld.Event)
    requires ActionTheorems.Reachable(g)
    ensures ActionTheorems.Reachable(ActionWorld.Step(g, e))
  {
    Dispatcher.HistoryReachable(g, [e]);
    Dispatcher.OneStep(g, e);
  }

  /** A step that commits nothing leaves revision and table alone. */
  lemma {:induction false} ActKeeps(g: ActionWorld.World, e: ActionWorld.Event)
    requires !e.Commit? && !e.OtherCommit?
    ensures ActionWorld.Step(g, e).revision == g.revision && ActionWorld.Step(g, e).table == g.table
  {
  }

  /** Over every joint run the revisions stay level and the tool side is a run of the action protocol,
      so everything proved of that protocol holds of a session saved by `save_inner`. */
  lemma {:induction false} StaysJoined(j: Joint, trace: seq<Event>)
    requires Joined(j)
    ensures Joined(After(j, trace)) && ActionTheorems.WorldOk(After(j, trace).tools)
    decreases |trace|
  {
    hide Store.SaveFrom, ActionTheorems.WorldOk, ActionTheorems.Reachable, ActionWorld.Step;
    if trace == [] {
      ActionTheorems.ReachableOk(j.tools);
    } else {
      var e := trace[0];
      if Enabled(j, e) {
        match e {
          case Act(a) => ActKeeps(j.tools, a); Reaches(j.tools, a);
          case Save(w, p, net, lags) => SaveIsLand(j, w, p, net, lags);
          case Elsewhere(_) => {}
        }
      }
      StaysJoined(Step(j, e), trace[1..]);
    }
  }
}
