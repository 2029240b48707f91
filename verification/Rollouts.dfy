/** What the Kubernetes calls of a run write: at most one accepted write for an operation. */
module Rollouts {
  import opened Domain
  import opened Kubernetes
  import Execution
  import Fleet

  /** What surrounds one call: whether its client can be built, the object, and what others do meanwhile. */
  datatype World = World(
    reachable: bool, initial: Option<DeploymentObject>, attempts: Attempts,
    listed: Option<seq<ReplicaSet>>, getFails: bool, ready: bool)

  /** The accepted writes of one call. */
  function CallWrites(c: Execution.Call, w: World): seq<Write> {
    if !w.reachable then []
    else if c.kind == Deploy then
      ImageWrites(RetryWrite(w.initial, w.attempts, Naming(c.env.container), 0), c.env.container, c.image)
    else
      var target := Target(w.initial, w.listed, c.revision, w.getFails);
      if target.None? then [] else TemplateWrites(RetryWrite(w.initial, w.attempts, Any(), 0), target.value)
  }

  /** What a call asks for: its image in its own container, or the template of its revision without the two keys. */
  ghost predicate AsCalled(write: Write, c: Execution.Call, w: World) {
    match c.kind
    case Deploy => OnlyImage(write, c.env.container, c.image)
    case _ => w.listed.Some? && Restores(write, w.listed.value, c.revision)
  }

  /** When a call succeeds: the way is clear, one attempt is undisturbed, and the rollout becomes ready. */
  ghost predicate EndsWell(c: Execution.Call, w: World) {
    && w.reachable && w.ready
    && match c.kind
       case Deploy => exists n: nat :: Succeeds(w.initial, w.attempts, Naming(c.env.container), n)
       case _ =>
         && !w.getFails && w.initial.Some? && w.listed.Some?
         && (exists i :: 0 <= i < |w.listed.value| && OfRevision(w.listed.value[i], c.revision))
         && exists n: nat :: Succeeds(w.initial, w.attempts, Any(), n)
  }

  lemma CallWritesMean(c: Execution.Call, w: World)
    ensures |CallWrites(c, w)| <= 1
    ensures forall k :: 0 <= k < |CallWrites(c, w)| ==> AsCalled(CallWrites(c, w)[k], c, w)
    ensures EndsWell(c, w) ==> |CallWrites(c, w)| == 1
  {
    var target := Target(w.initial, w.listed, c.revision, w.getFails);
    RetriesSucceedIff(w.initial, w.attempts, Naming(c.env.container));
    RetriesSucceedIff(w.initial, w.attempts, Any());
    ErrorHidesWriteIff(w.initial, w.attempts, Naming(c.env.container));
    ErrorHidesWriteIff(w.initial, w.attempts, Any());
    ImageWritesMean([], RetryWrite(w.initial, w.attempts, Naming(c.env.container), 0), c.env.container, c.image);
    if w.listed.Some? {
      FirstWithRevisionMeans(w.listed.value, c.revision);
    }
    if target.Some? {
      TemplateWritesMean([], RetryWrite(w.initial, w.attempts, Any(), 0), w.listed.value, c.revision);
    }
  }

  /** The specification's ending, without an error exactly when the call ends well. */
  lemma CallEnds(c: Execution.Call, w: World)
    ensures var usable := if c.kind == Deploy then Naming(c.env.container) else Any();
            EndsWell(c, w) <==>
              && w.reachable && Ending(RetryError(w.initial, w.attempts, usable, 0), w.ready).None?
              && (c.kind != Deploy ==> Target(w.initial, w.listed, c.revision, w.getFails).Some?)
  {
    RetriesSucceedIff(w.initial, w.attempts, Naming(c.env.container));
    RetriesSucceedIff(w.initial, w.attempts, Any());
    if w.listed.Some? {
      FirstWithRevisionMeans(w.listed.value, c.revision);
    }
  }

  /** The worker's branch on the kind of the operation. */
  method Perform(server: ApiServer, c: Execution.Call, w: World) returns (ok: bool)
    requires server.current == w.initial
    modifies server
    ensures server.accepted == old(server.accepted) + CallWrites(c, w)
    ensures old(server.accepted) <= server.accepted && |server.accepted| <= |old(server.accepted)| + 1
    ensures forall k :: |old(server.accepted)| <= k < |server.accepted| ==> AsCalled(server.accepted[k], c, w)
    ensures ok <==> EndsWell(c, w)
    ensures ok ==> |server.accepted| == |old(server.accepted)| + 1
  {
    CallWritesMean(c, w);
    CallEnds(c, w);
    if !w.reachable {
      return false;
    }
    var r;
    ghost var conflicts;
    var pause;
    if c.kind == Deploy {
      r, conflicts, pause := Kubernetes.Deploy(server, c.env.container, c.image, w.attempts, w.ready);
    } else {
      r, conflicts, pause := Kubernetes.Rollback(server, w.listed, c.revision, w.getFails, w.attempts, w.ready);
    }
    return r.Success?;
  }

  /** The accepted writes that calls for one operation make; `worlds(k)` surrounds the call at `k`. */
  function WritesFor(calls: seq<Execution.Call>, worlds: nat -> World, id: Id): seq<Write> {
    if calls == [] then []
    else
      var n := |calls| - 1;
      WritesFor(calls[..n], worlds, id) + (if calls[n].id == id then CallWrites(calls[n], worlds(n)) else [])
  }

  lemma {:induction false} WritesOfOneCall(calls: seq<Execution.Call>, worlds: nat -> World, id: Id)
    requires forall j, k :: 0 <= j < k < |calls| ==> calls[j].id != calls[k].id
    ensures WritesFor(calls, worlds, id) == []
            || exists k: nat :: k < |calls| && calls[k].id == id
                                && WritesFor(calls, worlds, id) == CallWrites(calls[k], worlds(k))
    ensures (forall k :: 0 <= k < |calls| ==> calls[k].id != id) ==> WritesFor(calls, worlds, id) == []
  {
    if calls != [] {
      var n := |calls| - 1;
      WritesOfOneCall(calls[..n], worlds, id);
    }
  }

  /**
   * End to end: over any interleaving of any number of workers and handlers, whatever the clusters do, an
   * operation causes at most one accepted write; and that write is what its own call asks for.
   */
  lemma {:induction false} AtMostOneWriteEach(
      users: set<Id>, now: nat, moves: seq<Fleet.Move>, worlds: nat -> World, id: Id)
    ensures var s := Fleet.Sail(Fleet.Open(users, now), moves);
            var writes := WritesFor(s.calls, worlds, id);
            && |writes| <= 1
            && (writes != [] ==>
                  exists k: nat :: k < |s.calls| && s.calls[k].id == id && Execution.CallSound(s.c.db, s.calls[k])
                                   && writes == CallWrites(s.calls[k], worlds(k))
                                   && AsCalled(writes[0], s.calls[k], worlds(k)))
  {
    var s := Fleet.Sail(Fleet.Open(users, now), moves);
    Fleet.FleetExecutesAtMostOnce(users, now, moves);
    WritesOfOneCall(s.calls, worlds, id);
    if WritesFor(s.calls, worlds, id) != [] {
      var k: nat :| k < |s.calls| && s.calls[k].id == id
                    && WritesFor(s.calls, worlds, id) == CallWrites(s.calls[k], worlds(k));
      CallWritesMean(s.calls[k], worlds(k));
    }
  }

  /** When every call ends as its cluster lets it, a succeeded operation has caused exactly one write. */
  lemma {:induction false} SucceededWroteOnce(
      users: set<Id>, now: nat, moves: seq<Fleet.Move>, worlds: nat -> World, id: Id)
    requires var s := Fleet.Sail(Fleet.Open(users, now), moves);
             && id < |s.c.db.ops| && s.c.db.ops[id].status == Succeeded
             && forall k: nat :: k < |s.calls| ==> (s.calls[k].ok <==> EndsWell(s.calls[k], worlds(k)))
    ensures var s := Fleet.Sail(Fleet.Open(users, now), moves);
            |WritesFor(s.calls, worlds, id)| == 1
  {
    var s := Fleet.Sail(Fleet.Open(users, now), moves);
    Fleet.FleetExecutesAtMostOnce(users, now, moves);
    Fleet.FleetStatusTellsOutcome(users, now, moves, id);
    var k: nat :| k < |s.calls| && s.calls[k].id == id && s.calls[k].ok;
    CallWritesMean(s.calls[k], worlds(k));
    OnlyItsWrites(s.calls, worlds, id, k);
  }

  lemma {:induction false} OnlyItsWrites(calls: seq<Execution.Call>, worlds: nat -> World, id: Id, k: nat)
    requires forall i, j :: 0 <= i < j < |calls| ==> calls[i].id != calls[j].id
    requires k < |calls| && calls[k].id == id
    ensures WritesFor(calls, worlds, id) == CallWrites(calls[k], worlds(k))
  {
    var n := |calls| - 1;
    if k < n {
      OnlyItsWrites(calls[..n], worlds, id, k);
    } else {
      WritesOfOneCall(calls[..n], worlds, id);
    }
  }
}
