/** Bounded progress of the operation queue. */
module Queue {
  import opened Domain
  import opened Database
  import opened History
  import Evolution
  import Interleaving

  predicate Waiting(s: Status) {
    s == Queued || s == PendingApproval
  }

  /** How many of the first `n` operations are still queued or waiting for approval. */
  function WaitingBefore(ops: seq<Operation>, n: nat): nat
    requires n <= |ops|
  {
    if n == 0 then 0 else WaitingBefore(ops, n - 1) + if Waiting(ops[n - 1].status) then 1 else 0
  }

  /** Creation times strictly increase. */
  ghost predicate Ordered(ops: seq<Operation>) {
    forall i, j :: 0 <= i < j < |ops| ==> ops[i].createdAt < ops[j].createdAt
  }

  /** Claims that found no row locked by another transaction. */
  function SerialClaims(ts: seq<Txn>): nat {
    if ts == [] then 0
    else
      var last := ts[|ts| - 1];
      SerialClaims(ts[..|ts| - 1]) + if last.Claim? && last.skip == {} then 1 else 0
  }

  lemma {:induction false} WaitingNeverGrows(before: seq<Operation>, after: seq<Operation>, n: nat)
    requires n <= |before| <= |after|
    requires forall i :: 0 <= i < n ==> Waiting(after[i].status) ==> Waiting(before[i].status)
    ensures WaitingBefore(after, n) <= WaitingBefore(before, n)
  {
    if n > 0 {
      WaitingNeverGrows(before, after, n - 1);
    }
  }

  lemma {:induction false} WaitingDrops(before: seq<Operation>, after: seq<Operation>, n: nat, k: nat)
    requires k < n <= |before| <= |after|
    requires forall i :: 0 <= i < n ==> Waiting(after[i].status) ==> Waiting(before[i].status)
    requires Waiting(before[k].status) && !Waiting(after[k].status)
    ensures WaitingBefore(after, n) < WaitingBefore(before, n)
  {
    if k < n - 1 {
      WaitingDrops(before, after, n - 1, k);
    } else {
      WaitingNeverGrows(before, after, n - 1);
    }
  }

  /** No transaction makes an older operation wait again: approvals and new requests included. */
  lemma StepNeverDelays(db: Db, t: Txn, id: Id)
    requires id < |db.ops|
    ensures id < |After(db, t).ops| && WaitingBefore(After(db, t).ops, id) <= WaitingBefore(db.ops, id)
  {
    Evolution.StepEvolves(db, t);
    var d := After(db, t);
    assert forall i :: 0 <= i < |db.ops| ==> Evolution.RowStep(db.ops[i], d.ops[i]);
    WaitingNeverGrows(db.ops, d.ops, id);
  }

  /** A serial claim takes the operation itself or one created before it. */
  lemma SerialClaimAdvances(db: Db, t: Txn, id: Id)
    requires Sound(db) && Ordered(db.ops) && id < |db.ops| && db.ops[id].status == Queued
    requires t.Claim? && t.skip == {}
    ensures var d := After(db, t);
            id < |d.ops| && (d.ops[id].status == Queued ==> WaitingBefore(d.ops, id) < WaitingBefore(db.ops, id))
  {
    assert RequestSound(db, db.ops[id]);
    assert Claimable(db.ops[id], db.now);
    var r := OldestClaimable(db.ops, db.now, {}, |db.ops|);
    assert r.Some? && r.value <= id;
    var d := After(db, t);
    if r.value < id {
      WaitingDrops(db.ops, d.ops, id, r.value);
    }
  }

  /** One transaction raises the count of serial claims by no more than it lowers the count of older waiting rows. */
  lemma StepPays(db: Db, t: Txn, id: Id)
    requires Sound(db) && Ordered(db.ops) && id < |db.ops| && db.ops[id].status == Queued
    ensures var d := After(db, t);
            id < |d.ops| && (d.ops[id].status == Queued ==>
              (if t.Claim? && t.skip == {} then 1 else 0) + WaitingBefore(d.ops, id) <= WaitingBefore(db.ops, id))
  {
    StepNeverDelays(db, t, id);
    if t.Claim? && t.skip == {} { SerialClaimAdvances(db, t, id); }
  }

  /** A row that is not waiting is never queued again. */
  lemma NeverQueuedAgain(db: Db, t: Txn, id: Id)
    requires id < |db.ops| && !Waiting(db.ops[id].status)
    ensures id < |After(db, t).ops| && !Waiting(After(db, t).ops[id].status)
  {
    Evolution.StepEvolves(db, t);
    assert Evolution.RowStep(db.ops[id], After(db, t).ops[id]);
  }

  lemma OrderedEarlier(db: Db, t: Txn)
    requires Ordered(After(db, t).ops)
    ensures Ordered(db.ops)
  {
    Evolution.StepEvolves(db, t);
    assert forall i :: 0 <= i < |db.ops| ==> Evolution.RowStep(db.ops[i], After(db, t).ops[i]);
  }

  lemma {:induction false} WaitingPaysForClaims(db: Db, ts: seq<Txn>, id: Id)
    requires Sound(db) && id < |db.ops| && db.ops[id].status == Queued
    requires Ordered(Run(db, ts).ops)
    ensures id < |Run(db, ts).ops|
    ensures Run(db, ts).ops[id].status == Queued ==>
              SerialClaims(ts) + WaitingBefore(Run(db, ts).ops, id) <= WaitingBefore(db.ops, id)
  {
    if ts != [] {
      var n := |ts| - 1;
      var mid := Run(db, ts[..n]);
      SoundAlong(db, ts[..n]);
      OrderedEarlier(mid, ts[n]);
      WaitingPaysForClaims(db, ts[..n], id);
      QueuedIsNeverRejected(db, ts[..n], id);
      if mid.ops[id].status == Queued {
        StepPays(mid, ts[n], id);
      } else {
        NeverQueuedAgain(mid, ts[n], id);
      }
    }
  }

  lemma {:induction false} SoundAlong(db: Db, ts: seq<Txn>)
    requires Sound(db)
    ensures Sound(Run(db, ts))
  {
    if ts != [] {
      SoundAlong(db, ts[..|ts| - 1]);
      StepKeepsSound(Run(db, ts[..|ts| - 1]), ts[|ts| - 1]);
    }
  }

  /**
   * A queued operation is claimed before m + 1 serial claims have run, where m counts the older
   * operations that are queued or waiting for approval, whatever else commits in between.
   */
  lemma {:induction false} ClaimedWithinQueueLength(users: set<Id>, now: nat, before: seq<Txn>, ts: seq<Txn>, id: Id)
    requires var db := Run(EmptyDb(users, now), before);
             && id < |db.ops| && db.ops[id].status == Queued
             && Ordered(Run(db, ts).ops)
             && SerialClaims(ts) > WaitingBefore(db.ops, id)
    ensures var db := Run(EmptyDb(users, now), before);
            id < |Run(db, ts).ops| && Run(db, ts).ops[id].status in {Running, Succeeded, Failed}
  {
    var db := Run(EmptyDb(users, now), before);
    RunsAreSound(users, now, before);
    WaitingPaysForClaims(db, ts, id);
    QueuedIsNeverRejected(db, ts, id);
  }

  lemma {:induction false} QueuedIsNeverRejected(db: Db, ts: seq<Txn>, id: Id)
    requires id < |db.ops| && db.ops[id].status in {Queued, Running, Succeeded, Failed}
    ensures id < |Run(db, ts).ops| && Run(db, ts).ops[id].status in {Queued, Running, Succeeded, Failed}
  {
    if ts != [] {
      var n := |ts| - 1;
      QueuedIsNeverRejected(db, ts[..n], id);
      Evolution.StepEvolves(Run(db, ts[..n]), ts[n]);
      assert Evolution.RowStep(Run(db, ts[..n]).ops[id], Run(db, ts).ops[id]);
    }
  }

  // ---------- interleaved claims ----------

  /** Session `t` selects with no row locked, and its next two statements follow at once. */
  ghost predicate Quiet(c: Interleaving.Config, moves: seq<Interleaving.Move>) {
    && |moves| == 3 && moves[0].Advance? && moves[1] == moves[0] && moves[2] == moves[0]
    && var t := moves[0].t;
       && t in c.open && c.open[t].program.Claim? && c.open[t].pc == 0 && c.open[t].target.None?
       && c.locks == map[] && Interleaving.Statement(c, t).Continue?
  }

  lemma QuietSelect(c: Interleaving.Config, t: Interleaving.TxnId)
    requires t in c.open && c.open[t].program.Claim? && c.open[t].pc == 0 && c.locks == map[]
    requires Interleaving.Statement(c, t).Continue?
    ensures var d := Interleaving.Step(c, Interleaving.Advance(t));
            var i := OldestClaimable(c.db.ops, c.db.now, {}, |c.db.ops|);
            && i.Some? && d.db == c.db && d.log == c.log && t in d.open
            && d.open[t] == c.open[t].(pc := 1, target := i, row := Some(c.db.ops[i.value]))
  {
    assert c.locks.Keys == {};
  }

  lemma QuietSave(c: Interleaving.Config, t: Interleaving.TxnId)
    requires t in c.open && c.open[t].program.Claim? && c.open[t].pc == 1
    requires c.open[t].target.Some? && c.open[t].row.Some?
    ensures var d := Interleaving.Step(c, Interleaving.Advance(t));
            && d.db == c.db && d.log == c.log && t in d.open && d.open[t].pc == 2
            && d.open[t].target == c.open[t].target && d.open[t].row.Some? && d.open[t].program == c.open[t].program
  {
  }

  lemma QuietCommit(c: Interleaving.Config, t: Interleaving.TxnId)
    requires t in c.open && c.open[t].program.Claim? && c.open[t].pc == 2
    requires c.open[t].target.Some? && c.open[t].row.Some?
    ensures var d := Interleaving.Step(c, Interleaving.Advance(t));
            && |d.log| == |c.log| + 1 && d.log[..|c.log|] == c.log
            && d.log[|c.log|].txn
               == Claim(c.open[t].program.owner, Interleaving.PassedOver(c.db, c.open[t].target.value))
  {
  }

  lemma OldestPassesOverNothing(db: Db, i: Id)
    requires Ordered(db.ops) && OldestClaimable(db.ops, db.now, {}, |db.ops|) == Some(i)
    ensures Interleaving.PassedOver(db, i) == {}
  {
    forall j: nat | j < |db.ops| && j != i && Claimable(db.ops[j], db.now)
      ensures db.ops[i].createdAt < db.ops[j].createdAt
    {
      assert db.ops[i].createdAt <= db.ops[j].createdAt;
    }
  }

  /** A claim whose session overlaps no other is logged as one that passed over nothing. */
  lemma QuietClaimIsSerial(c: Interleaving.Config, moves: seq<Interleaving.Move>)
    requires Quiet(c, moves) && Ordered(c.db.ops)
    ensures var d := Interleaving.Step(Interleaving.Step(c, moves[0]), moves[1]);
            var e := Interleaving.Step(d, moves[2]);
            && |e.log| == |d.log| + 1 && e.log[..|d.log|] == d.log
            && e.log[|d.log|].txn.Claim? && e.log[|d.log|].txn.skip == {}
  {
    var t := moves[0].t;
    QuietSelect(c, t);
    var one := Interleaving.Step(c, moves[0]);
    QuietSave(one, t);
    QuietCommit(Interleaving.Step(one, moves[1]), t);
    OldestPassesOverNothing(c.db, OldestClaimable(c.db.ops, c.db.now, {}, |c.db.ops|).value);
  }

  /** How many claims of the later moves overlap no other session. */
  ghost function QuietClaims(start: Db, moves: seq<Interleaving.Move>, later: seq<Interleaving.Move>): nat
    decreases |later|
  {
    if |later| < 3 then 0
    else
      var n := |later|;
      QuietClaims(start, moves, later[..n - 1])
      + if Quiet(Interleaving.Interleave(start, moves + later[..n - 3]), later[n - 3..]) then 1 else 0
  }

  lemma SerialClaimsAppend(ts: seq<Txn>, t: Txn)
    ensures SerialClaims(ts + [t]) == SerialClaims(ts) + if t.Claim? && t.skip == {} then 1 else 0
  {
    assert (ts + [t])[..|ts|] == ts;
  }

  lemma {:induction false} SerialClaimsGrow(ts: seq<Txn>, us: seq<Txn>)
    ensures SerialClaims(ts) <= SerialClaims(ts + us)
    decreases |us|
  {
    if us == [] {
      assert ts + us == ts;
    } else {
      var n := |us| - 1;
      SerialClaimsGrow(ts, us[..n]);
      assert ts + us == ts + us[..n] + [us[n]];
      SerialClaimsAppend(ts + us[..n], us[n]);
    }
  }

  /** The serial claims among the log entries from `k` on. */
  function SerialFrom(log: seq<Interleaving.Entry>, k: nat): nat {
    if k <= |log| then SerialClaims(Interleaving.Programs(log[k..])) else 0
  }

  lemma SerialFromGrows(a: seq<Interleaving.Entry>, b: seq<Interleaving.Entry>, k: nat)
    requires k <= |a| && a <= b
    ensures SerialFrom(a, k) <= SerialFrom(b, k)
  {
    assert Interleaving.Programs(b[k..]) == Interleaving.Programs(a[k..]) + Interleaving.Programs(b[|a|..]);
    SerialClaimsGrow(Interleaving.Programs(a[k..]), Interleaving.Programs(b[|a|..]));
  }

  lemma SerialFromAppends(a: seq<Interleaving.Entry>, b: seq<Interleaving.Entry>, k: nat)
    requires k <= |a| && |b| == |a| + 1 && b[..|a|] == a && b[|a|].txn.Claim? && b[|a|].txn.skip == {}
    ensures SerialFrom(b, k) == SerialFrom(a, k) + 1
  {
    assert Interleaving.Programs(b[k..]) == Interleaving.Programs(a[k..]) + [b[|a|].txn];
    SerialClaimsAppend(Interleaving.Programs(a[k..]), b[|a|].txn);
  }

  /** The state three moves back leads here by those moves. */
  lemma ThreeMoreMoves(start: Db, moves: seq<Interleaving.Move>, later: seq<Interleaving.Move>)
    requires |later| >= 3
    ensures var n := |later|;
            var c := Interleaving.Interleave(start, moves + later[..n - 3]);
            var d := Interleaving.Step(Interleaving.Step(c, later[n - 3]), later[n - 2]);
            && Interleaving.Interleave(start, moves + later[..n - 1]) == d
            && Interleaving.Interleave(start, moves + later) == Interleaving.Step(d, later[n - 1])
  {
    var n := |later|;
    Interleaving.MoveAt(start, moves, later, n - 3);
    Interleaving.MoveAt(start, moves, later, n - 2);
    Interleaving.MoveAt(start, moves, later, n - 1);
    assert later[..n] == later;
  }

  /** A move counts at most what it logs. */
  lemma LastMoveCounts(a: Interleaving.Config, moves: seq<Interleaving.Move>, k: nat)
    requires |moves| == 3 && Ordered(a.db.ops)
    requires var d := Interleaving.Step(Interleaving.Step(a, moves[0]), moves[1]); k <= |d.log|
    ensures var d := Interleaving.Step(Interleaving.Step(a, moves[0]), moves[1]);
            SerialFrom(d.log, k) + (if Quiet(a, moves) then 1 else 0)
            <= SerialFrom(Interleaving.Step(d, moves[2]).log, k)
  {
    var d := Interleaving.Step(Interleaving.Step(a, moves[0]), moves[1]);
    var e := Interleaving.Step(d, moves[2]);
    Interleaving.StepAppends(d, moves[2]);
    SerialFromGrows(d.log, e.log, k);
    if Quiet(a, moves) {
      QuietClaimIsSerial(a, moves);
      SerialFromAppends(d.log, e.log, k);
    }
  }

  lemma {:induction false} QuietClaimsAreSerial(start: Db, moves: seq<Interleaving.Move>, later: seq<Interleaving.Move>)
    requires Ordered(Interleaving.Interleave(start, moves + later).db.ops)
    ensures var k := |Interleaving.Interleave(start, moves).log|;
            QuietClaims(start, moves, later) <= SerialFrom(Interleaving.Interleave(start, moves + later).log, k)
    decreases |later|
  {
    if |later| >= 3 {
      var n := |later|;
      OrderedBefore(start, moves, later, n - 1);
      OrderedBefore(start, moves, later, n - 3);
      QuietClaimsAreSerial(start, moves, later[..n - 1]);
      ThreeMoreMoves(start, moves, later);
      Interleaving.LogGrows(start, moves, later[..n - 1]);
      LastMoveCounts(Interleaving.Interleave(start, moves + later[..n - 3]), later[n - 3..],
                     |Interleaving.Interleave(start, moves).log|);
    }
  }

  lemma OrderedBefore(start: Db, moves: seq<Interleaving.Move>, later: seq<Interleaving.Move>, k: nat)
    requires k <= |later| && Ordered(Interleaving.Interleave(start, moves + later).db.ops)
    ensures Ordered(Interleaving.Interleave(start, moves + later[..k]).db.ops)
  {
    assert moves + later[..k] + later[k..] == moves + later;
    Interleaving.LaterDescends(start, moves + later[..k], later[k..]);
    OrderDescends(Interleaving.Interleave(start, moves + later[..k]).db,
                  Interleaving.Interleave(start, moves + later).db);
  }

  lemma OrderDescends(db: Db, d: Db)
    requires Evolution.Descends(db, d) && Ordered(d.ops)
    ensures Ordered(db.ops)
  {
    assert forall i :: 0 <= i < |db.ops| ==> d.ops[i].createdAt == db.ops[i].createdAt;
  }

  /**
   * The same bound under interleaving: a queued operation is claimed before m + 1 claims have run whose
   * sessions overlap no other, whatever other sessions, overlapping claims among them, do in between.
   */
  lemma {:induction false} InterleavedClaimWithinQueueLength(
      users: set<Id>, now: nat, moves: seq<Interleaving.Move>, later: seq<Interleaving.Move>, id: Id)
    requires var db := Interleaving.Interleave(EmptyDb(users, now), moves).db;
             && id < |db.ops| && db.ops[id].status == Queued
             && Ordered(Interleaving.Interleave(EmptyDb(users, now), moves + later).db.ops)
             && QuietClaims(EmptyDb(users, now), moves, later) > WaitingBefore(db.ops, id)
    ensures var ops := Interleaving.Interleave(EmptyDb(users, now), moves + later).db.ops;
            id < |ops| && ops[id].status in {Running, Succeeded, Failed}
  {
    var start := EmptyDb(users, now);
    var c, d := Interleaving.Interleave(start, moves), Interleaving.Interleave(start, moves + later);
    QuietClaimsAreSerial(start, moves, later);
    Interleaving.LogGrows(start, moves, later);
    Interleaving.InterleavingsAreSerializable(start, moves);
    Interleaving.InterleavingsAreSerializable(start, moves + later);
    Interleaving.LaterRuns(start, c, d);
    ClaimedWithinQueueLength(
      users, now, Interleaving.Programs(c.log), Interleaving.Programs(d.log[|c.log|..]), id);
  }
}
