/**
 * What every run of transactions keeps: the approval table agrees with the statuses, every status
 * write follows an edge of the transition table, and statuses only move forward.
 */
module History {
  import opened Domain
  import opened Database
  import Evolution

  // ---------- approvals ----------

  /** The approval rows of one operation, in insertion order. */
  function RowsFor(approvals: seq<Approval>, id: Id): seq<Approval> {
    if approvals == [] then []
    else
      var last := approvals[|approvals| - 1];
      RowsFor(approvals[..|approvals| - 1], id) + if last.operation == id then [last] else []
  }

  lemma {:induction false} NoRowsIffNoApproval(approvals: seq<Approval>, id: Id)
    ensures RowsFor(approvals, id) == [] <==> !HasApproval(approvals, id)
  {
    if approvals != [] {
      var n := |approvals| - 1;
      NoRowsIffNoApproval(approvals[..n], id);
      if HasApproval(approvals, id) {
        var i :| 0 <= i < |approvals| && approvals[i].operation == id;
        assert i < n ==> approvals[..n][i].operation == id;
      }
    }
  }

  lemma RowsForAppend(approvals: seq<Approval>, a: Approval, id: Id)
    ensures RowsFor(approvals + [a], id) == RowsFor(approvals, id) + if a.operation == id then [a] else []
  {
    assert (approvals + [a])[..|approvals|] == approvals;
  }

  // ---------- status walks ----------

  function InitialStatus(envs: seq<Environment>, o: Operation): Status {
    if o.env < |envs| && envs[o.env].approvalRequired then PendingApproval else Queued
  }

  /**
   * Follows the writes to one row from its first status.  None as soon as a write starts
   * anywhere but where the previous one ended, or leaves the transition table.
   */
  function Walk(writes: seq<StatusWrite>, id: Id, start: Status): Option<Status> {
    if writes == [] then Some(start)
    else
      var last := writes[|writes| - 1];
      var before := Walk(writes[..|writes| - 1], id, start);
      if last.operation != id then before
      else if before == Some(last.from) && CanTransitionTo(last.from, last.to) then Some(last.to)
      else None
  }

  lemma WalkAppend(writes: seq<StatusWrite>, w: StatusWrite, id: Id, start: Status)
    ensures Walk(writes + [w], id, start) ==
            if w.operation != id then Walk(writes, id, start)
            else if Walk(writes, id, start) == Some(w.from) && CanTransitionTo(w.from, w.to) then Some(w.to)
            else None
  {
    assert (writes + [w])[..|writes|] == writes;
  }

  lemma {:induction false} WalkNeedsEveryEdge(writes: seq<StatusWrite>, id: Id, start: Status, k: nat)
    requires Walk(writes, id, start).Some? && k < |writes| && writes[k].operation == id
    ensures CanTransitionTo(writes[k].from, writes[k].to)
  {
    var n := |writes| - 1;
    if k < n {
      WalkNeedsEveryEdge(writes[..n], id, start, k);
    }
  }

  lemma {:induction false} WalkUntouched(writes: seq<StatusWrite>, id: Id, start: Status)
    requires forall k :: 0 <= k < |writes| ==> writes[k].operation != id
    ensures Walk(writes, id, start) == Some(start)
  {
    if writes != [] {
      WalkUntouched(writes[..|writes| - 1], id, start);
    }
  }

  // ---------- the invariant ----------

  ghost predicate EnvironmentsSound(db: Db) {
    forall e :: 0 <= e < |db.envs| ==>
      db.envs[e].name in {"development", "test", "production"} &&
      (db.envs[e].name == "production" ==> db.envs[e].approvalRequired)
  }

  /** What creation fixes and nothing changes. */
  ghost predicate RequestSound(db: Db, o: Operation) {
    && o.env < |db.envs| && o.app == db.envs[o.env].app
    && o.requester in db.users
    && !o.kind.UnknownKind?
    && (o.kind == Deploy ==> db.envs[o.env].imagePrefix <= o.image)
    && o.nextAttemptAt == ZERO_TIME
  }

  /**
   * An approval row exists exactly when the environment requires approval and the operation is past
   * `pending_approval`; there is one, not by the requester, and it says `rejected` exactly
   * when the status does.
   */
  ghost predicate ApprovalSound(db: Db, id: Id)
    requires id < |db.ops| && db.ops[id].env < |db.envs|
  {
    var o := db.ops[id];
    var rows := RowsFor(db.approvals, id);
    && o.status != Approved && o.status != Expired
    && (o.status == PendingApproval || o.status == Rejected ==> db.envs[o.env].approvalRequired)
    && (if db.envs[o.env].approvalRequired && o.status != PendingApproval then
          && |rows| == 1 && rows[0].approver != o.requester
          && rows[0].decision == (if o.status == Rejected then "rejected" else "approved")
        else rows == [])
  }

  ghost predicate WritesSound(db: Db, id: Id)
    requires id < |db.ops|
  {
    Walk(db.writes, id, InitialStatus(db.envs, db.ops[id])) == Some(db.ops[id].status)
  }

  ghost predicate KeysUnique(ops: seq<Operation>) {
    forall i, j :: 0 <= i < j < |ops| ==> ops[i].key != ops[j].key
  }

  ghost predicate ReferencesSound(db: Db) {
    && (forall k :: 0 <= k < |db.approvals| ==> db.approvals[k].operation < |db.ops|)
    && (forall k :: 0 <= k < |db.writes| ==> db.writes[k].operation < |db.ops|)
  }

  ghost predicate Sound(db: Db) {
    && EnvironmentsSound(db)
    && KeysUnique(db.ops)
    && ReferencesSound(db)
    && (forall i :: 0 <= i < |db.ops| ==> RequestSound(db, db.ops[i]))
    && (forall i :: 0 <= i < |db.ops| ==> ApprovalSound(db, i))
    && (forall i :: 0 <= i < |db.ops| ==> WritesSound(db, i))
  }

  // ---------- every transaction keeps it ----------

  lemma CreateEnvironmentKeepsSound(db: Db, e: Environment)
    requires Sound(db)
    ensures Sound(AddEnvironment(db, e).0)
  {
    var d := AddEnvironment(db, e).0;
    forall i | 0 <= i < |d.ops| ensures RequestSound(d, d.ops[i]) && ApprovalSound(d, i) && WritesSound(d, i) {
      assert RequestSound(db, db.ops[i]) && ApprovalSound(db, i) && WritesSound(db, i);
    }
  }

  /** A new row at the end, as it was requested, in its initial status and under a new key. */
  lemma NewRowKeepsSound(db: Db, d: Db, o: Operation)
    requires Sound(db) && d == db.(ops := db.ops + [o], events := d.events)
    requires RequestSound(db, o) && o.status == InitialStatus(db.envs, o) && !KeyTaken(db.ops, o.key)
    ensures Sound(d)
  {
    var n := |db.ops|;
    NoRowsIffNoApproval(db.approvals, n);
    WalkUntouched(db.writes, n, InitialStatus(d.envs, o));
    forall i | 0 <= i < |d.ops| ensures RequestSound(d, d.ops[i]) && ApprovalSound(d, i) && WritesSound(d, i) {
      if i < n {
        assert RequestSound(db, db.ops[i]) && ApprovalSound(db, i) && WritesSound(db, i);
      }
    }
  }

  lemma RequestMeans(db: Db, requester: Id, kind: Kind, env: Id, image: string, revision: int, key: string,
                     origin: Origin, logged: bool)
    ensures var (d, r) := RequestOperation(db, requester, kind, env, image, revision, key, origin, logged);
            if r.Created? then
              && |d.ops| == |db.ops| + 1
              && var o := d.ops[|db.ops|];
                 && d == db.(ops := db.ops + [o], events := d.events)
                 && RequestSound(db, o) && o.status == InitialStatus(db.envs, o) && !KeyTaken(db.ops, o.key)
            else d == db
  {
  }

  lemma RequestKeepsSound(db: Db, requester: Id, kind: Kind, env: Id, image: string, revision: int, key: string,
                          origin: Origin, logged: bool)
    requires Sound(db)
    ensures Sound(RequestOperation(db, requester, kind, env, image, revision, key, origin, logged).0)
  {
    var (d, r) := RequestOperation(db, requester, kind, env, image, revision, key, origin, logged);
    RequestMeans(db, requester, kind, env, image, revision, key, origin, logged);
    if r.Created? {
      NewRowKeepsSound(db, d, d.ops[|db.ops|]);
    }
  }

  /** One legal write to one row, approvals untouched, target status not waiting and not decided. */
  lemma MoveKeepsSound(db: Db, d: Db, id: Id)
    requires Sound(db) && id < |db.ops| == |d.ops|
    requires d.envs == db.envs && d.users == db.users && d.approvals == db.approvals
    requires d.writes == db.writes + [StatusWrite(id, db.ops[id].status, d.ops[id].status)]
    requires CanTransitionTo(db.ops[id].status, d.ops[id].status)
    requires db.ops[id].status == Queued || db.ops[id].status == Running
    requires forall i :: 0 <= i < |db.ops| && i != id ==> d.ops[i] == db.ops[i]
    requires d.ops[id] == db.ops[id].(status := d.ops[id].status, errorCode := d.ops[id].errorCode,
                                      errorMessage := d.ops[id].errorMessage, claimedBy := d.ops[id].claimedBy)
    ensures Sound(d)
  {
    forall i | 0 <= i < |d.ops| ensures RequestSound(d, d.ops[i]) && ApprovalSound(d, i) && WritesSound(d, i) {
      assert RequestSound(db, db.ops[i]) && ApprovalSound(db, i) && WritesSound(db, i);
      WalkAppend(db.writes, d.writes[|db.writes|], i, InitialStatus(db.envs, db.ops[i]));
    }
  }

  /** The writes of a decision: one, or two when it approves. */
  function DecisionWrites(id: Id, decision: string): seq<StatusWrite> {
    [StatusWrite(id, PendingApproval, DecisionStatus(decision))]
    + if decision == "rejected" then [] else [StatusWrite(id, Approved, Queued)]
  }

  lemma DecisionMeans(db: Db, id: Id, approver: Id, decision: string, comment: string)
    requires Decide(db, id, approver, decision, comment).1.Done?
    ensures id < |db.ops| && db.ops[id].status == PendingApproval && db.ops[id].requester != approver
    ensures decision == "approved" || decision == "rejected"
    ensures Decide(db, id, approver, decision, comment).0 ==
            db.(ops := db.ops[id := db.ops[id].(status := if decision == "rejected" then Rejected else Queued)],
                approvals := db.approvals + [Approval(id, approver, decision, comment)],
                writes := db.writes + DecisionWrites(id, decision))
  {
    var d := Decide(db, id, approver, decision, comment).0;
    assert d.writes == db.writes + DecisionWrites(id, decision);
    assert d.ops == db.ops[id := db.ops[id].(status := if decision == "rejected" then Rejected else Queued)];
  }

  lemma DecisionWalks(writes: seq<StatusWrite>, id: Id, decision: string, start: Status)
    requires Walk(writes, id, start) == Some(PendingApproval)
    ensures Walk(writes + DecisionWrites(id, decision), id, start)
            == Some(if decision == "rejected" then Rejected else Queued)
  {
    var w, v := StatusWrite(id, PendingApproval, DecisionStatus(decision)), StatusWrite(id, Approved, Queued);
    WalkAppend(writes, w, id, start);
    if decision != "rejected" {
      WalkAppend(writes + [w], v, id, start);
      assert writes + DecisionWrites(id, decision) == writes + [w] + [v];
    } else {
      assert writes + DecisionWrites(id, decision) == writes + [w];
    }
  }

  /** The decided row itself: one new approval row, and one or two more writes. */
  lemma DecidedRowIsSound(db: Db, id: Id, approver: Id, decision: string, comment: string)
    requires Sound(db)
    requires Decide(db, id, approver, decision, comment).1.Done?
    ensures var d := Decide(db, id, approver, decision, comment).0;
            RequestSound(d, d.ops[id]) && ApprovalSound(d, id) && WritesSound(d, id)
  {
    DecisionMeans(db, id, approver, decision, comment);
    assert RequestSound(db, db.ops[id]) && ApprovalSound(db, id) && WritesSound(db, id);
    RowsForAppend(db.approvals, Approval(id, approver, decision, comment), id);
    DecisionWalks(db.writes, id, decision, InitialStatus(db.envs, db.ops[id]));
  }

  lemma DecideKeepsOtherRows(db: Db, id: Id, approver: Id, decision: string, comment: string, i: Id)
    requires Sound(db) && i < |db.ops| && i != id
    requires Decide(db, id, approver, decision, comment).1.Done?
    ensures var d := Decide(db, id, approver, decision, comment).0;
            RequestSound(d, d.ops[i]) && ApprovalSound(d, i) && WritesSound(d, i)
  {
    assert RequestSound(db, db.ops[i]) && ApprovalSound(db, i) && WritesSound(db, i);
    RowsForAppend(db.approvals, Approval(id, approver, decision, comment), i);
    var start := InitialStatus(db.envs, db.ops[i]);
    var w := StatusWrite(id, db.ops[id].status, DecisionStatus(decision));
    WalkAppend(db.writes, w, i, start);
    WalkAppend(db.writes + [w], StatusWrite(id, Approved, Queued), i, start);
  }

  lemma DecideKeepsTables(db: Db, id: Id, approver: Id, decision: string, comment: string)
    requires Sound(db)
    requires Decide(db, id, approver, decision, comment).1.Done?
    ensures var d := Decide(db, id, approver, decision, comment).0;
            EnvironmentsSound(d) && KeysUnique(d.ops) && ReferencesSound(d) && |d.ops| == |db.ops|
  {
    var d := Decide(db, id, approver, decision, comment).0;
    assert d.envs == db.envs;
    assert forall i :: 0 <= i < |db.ops| ==> d.ops[i].key == db.ops[i].key;
  }

  lemma DecideKeepsSound(db: Db, id: Id, approver: Id, decision: string, comment: string)
    requires Sound(db)
    ensures Sound(Decide(db, id, approver, decision, comment).0)
  {
    var (d, r) := Decide(db, id, approver, decision, comment);
    if r.Done? {
      DecideKeepsTables(db, id, approver, decision, comment);
      forall i | 0 <= i < |d.ops| ensures RequestSound(d, d.ops[i]) && ApprovalSound(d, i) && WritesSound(d, i) {
        if i == id {
          DecidedRowIsSound(db, id, approver, decision, comment);
        } else {
          DecideKeepsOtherRows(db, id, approver, decision, comment, i);
        }
      }
    }
  }

  lemma SameOperationsKeepSound(db: Db, d: Db)
    requires Sound(db)
    requires d.envs == db.envs && d.users == db.users && d.ops == db.ops
    requires d.approvals == db.approvals && d.writes == db.writes
    ensures Sound(d)
  {
    forall i | 0 <= i < |d.ops| ensures RequestSound(d, d.ops[i]) && ApprovalSound(d, i) && WritesSound(d, i) {
      assert RequestSound(db, db.ops[i]) && ApprovalSound(db, i) && WritesSound(db, i);
    }
  }

  lemma ClaimKeepsSound(db: Db, t: Txn)
    requires Sound(db) && t.Claim?
    ensures Sound(After(db, t))
  {
    var (d, r) := ClaimOperation(db, t.owner, t.skip);
    if r.Claimed? { MoveKeepsSound(db, d, r.id); }
  }

  lemma FinishKeepsSound(db: Db, t: Txn)
    requires Sound(db) && t.Finish?
    ensures Sound(After(db, t))
  {
    Evolution.FinishEffect(db, t);
    if t.id < |db.ops| && db.ops[t.id].status == Running { MoveKeepsSound(db, After(db, t), t.id); }
  }

  /** A request is accepted exactly when the environment exists, the image fits, and the insert violates nothing. */
  lemma RequestSucceedsIff(db: Db, requester: Id, kind: Kind, env: Id, image: string, revision: int, key: string,
                           origin: Origin, logged: bool)
    ensures var (d, r) := RequestOperation(db, requester, kind, env, image, revision, key, origin, logged);
            && (r.Created? <==> && env < |db.envs| && (kind == Deploy ==> db.envs[env].imagePrefix <= image)
                                && !kind.UnknownKind? && requester in db.users && !KeyTaken(db.ops, key))
            && (r.Created? ==> r.id == |db.ops| && Appended(db.ops, d.ops)
                               && AsRequested(db, d.ops[|db.ops|], requester, kind, env, image, revision, key, origin))
            && (!r.Created? ==> d == db)
  {
  }

  /** The new row says what was asked, in the environment's application and initial status. */
  predicate AsRequested(
      db: Db, o: Operation, requester: Id, kind: Kind, env: Id, image: string, revision: int, key: string,
      origin: Origin)
  {
    && (o.requester, o.kind, o.env, o.image, o.revision, o.key) == (requester, kind, env, image, revision, key)
    && (o.conversation, o.event) == (origin.conversation, origin.event)
    && o.provider == (if origin.provider == UnknownProvider("") then Web else origin.provider)
    && env < |db.envs| && o.app == db.envs[env].app
    && o.status == (if db.envs[env].approvalRequired then PendingApproval else Queued)
    && o.errorCode == "" && o.errorMessage == "" && o.claimedBy == None && o.createdAt == db.now
    && Claimable(o.(status := Queued), db.now)
  }

  /** A decision is accepted exactly when someone else than the requester makes one of the two on a pending row. */
  lemma DecisionSucceedsIff(db: Db, id: Id, approver: Id, decision: string, comment: string)
    requires Sound(db)
    ensures Decide(db, id, approver, decision, comment).1.Done? <==>
            && id < |db.ops| && db.ops[id].status == PendingApproval && approver != db.ops[id].requester
            && (decision == "approved" || decision == "rejected") && approver in db.users
    ensures !Decide(db, id, approver, decision, comment).1.Done? ==> Decide(db, id, approver, decision, comment).0 == db
  {
    if id < |db.ops| {
      assert RequestSound(db, db.ops[id]) && ApprovalSound(db, id);
      NoRowsIffNoApproval(db.approvals, id);
    }
  }

  lemma StepKeepsSound(db: Db, t: Txn)
    requires Sound(db)
    ensures Sound(After(db, t))
  {
    if t.CreateEnvironment? { CreateEnvironmentKeepsSound(db, t.env); }
    else if t.Request? {
      RequestKeepsSound(db, t.requester, t.kind, t.target, t.image, t.revision, t.key, t.origin, t.logged);
    }
    else if t.Decision? { DecideKeepsSound(db, t.id, t.approver, t.decision, t.comment); }
    else if t.Claim? { ClaimKeepsSound(db, t); }
    else if t.Finish? { FinishKeepsSound(db, t); }
    else {
      Evolution.OtherEvolves(db, t);
      SameOperationsKeepSound(db, After(db, t));
    }
  }

  /** Every state any run of transactions reaches is sound. */
  lemma {:induction false} RunsAreSound(users: set<Id>, now: nat, ts: seq<Txn>)
    ensures Sound(Run(EmptyDb(users, now), ts))
  {
    if ts != [] {
      var n := |ts| - 1;
      RunsAreSound(users, now, ts[..n]);
      StepKeepsSound(Run(EmptyDb(users, now), ts[..n]), ts[n]);
    }
  }

  /** Approval table exactness, stated on any run. */
  lemma ApprovalTableIsExact(users: set<Id>, now: nat, ts: seq<Txn>, id: Id)
    requires id < |Run(EmptyDb(users, now), ts).ops|
    ensures var db := Run(EmptyDb(users, now), ts);
            var o := db.ops[id];
            && o.env < |db.envs|
            && (HasApproval(db.approvals, id) <==> db.envs[o.env].approvalRequired && o.status != PendingApproval)
            && (HasApproval(db.approvals, id) ==>
                  && |RowsFor(db.approvals, id)| == 1
                  && RowsFor(db.approvals, id)[0].approver != o.requester
                  && (RowsFor(db.approvals, id)[0].decision == "rejected" <==> o.status == Rejected)
                  && (o.status != Rejected ==> RowsFor(db.approvals, id)[0].decision == "approved"
                                               && o.status in {Queued, Running, Succeeded, Failed}))
  {
    var db := Run(EmptyDb(users, now), ts);
    RunsAreSound(users, now, ts);
    assert RequestSound(db, db.ops[id]) && ApprovalSound(db, id);
    NoRowsIffNoApproval(db.approvals, id);
  }

  /** Every status write of any run, seen or unseen, is an edge; no committed row is approved or expired. */
  lemma {:induction false} EveryWriteIsLegal(users: set<Id>, now: nat, ts: seq<Txn>)
    ensures var db := Run(EmptyDb(users, now), ts);
            && (forall k :: 0 <= k < |db.writes| ==> CanTransitionTo(db.writes[k].from, db.writes[k].to))
            && (forall i :: 0 <= i < |db.ops| ==> db.ops[i].status != Approved && db.ops[i].status != Expired)
  {
    var db := Run(EmptyDb(users, now), ts);
    RunsAreSound(users, now, ts);
    forall k | 0 <= k < |db.writes| ensures CanTransitionTo(db.writes[k].from, db.writes[k].to) {
      var i := db.writes[k].operation;
      assert WritesSound(db, i);
      WalkNeedsEveryEdge(db.writes, i, InitialStatus(db.envs, db.ops[i]), k);
    }
    forall i | 0 <= i < |db.ops| ensures db.ops[i].status != Approved && db.ops[i].status != Expired {
      assert ApprovalSound(db, i);
    }
  }

  // ---------- statuses only move forward ----------

  /** How many committed status changes a row in this status can still see. */
  function Rank(s: Status): nat {
    match s
    case PendingApproval => 3
    case Approved => 3
    case Queued => 2
    case Running => 1
    case _ => 0
  }

  function Potential(ops: seq<Operation>): nat {
    if ops == [] then 0 else Potential(ops[..|ops| - 1]) + Rank(ops[|ops| - 1].status)
  }

  /** The rows of `before` whose status differs in `after`. */
  function Differences(before: seq<Operation>, after: seq<Operation>, n: nat): nat
    requires n <= |before| && n <= |after|
  {
    if n == 0 then 0
    else Differences(before, after, n - 1) + if before[n - 1].status != after[n - 1].status then 1 else 0
  }

  ghost predicate Forward(before: seq<Operation>, after: seq<Operation>) {
    && |before| <= |after|
    && forall i :: 0 <= i < |before| ==>
         before[i].status == after[i].status || Rank(after[i].status) < Rank(before[i].status)
  }

  lemma StepIsForward(db: Db, t: Txn)
    ensures Forward(db.ops, After(db, t).ops)
  {
    Evolution.StepEvolves(db, t);
    assert forall i :: 0 <= i < |db.ops| ==> Evolution.RowStep(db.ops[i], After(db, t).ops[i]);
  }

  lemma {:induction false} ForwardPaysForDifferences(before: seq<Operation>, after: seq<Operation>, n: nat)
    requires Forward(before, after) && n <= |before|
    ensures Differences(before, after, n) + Potential(after[..n]) <= Potential(before[..n])
  {
    if n > 0 {
      ForwardPaysForDifferences(before, after, n - 1);
      assert after[..n][..n - 1] == after[..n - 1];
      assert before[..n][..n - 1] == before[..n - 1];
    }
  }

  lemma {:induction false} PotentialOfPrefix(ops: seq<Operation>, n: nat)
    requires n <= |ops|
    ensures Potential(ops) <= Potential(ops[..n]) + 3 * (|ops| - n)
  {
    if n < |ops| {
      var m := |ops| - 1;
      PotentialOfPrefix(ops[..m], n);
      assert ops[..m][..n] == ops[..n];
    } else {
      assert ops[..n] == ops;
    }
  }

  /** Committed status changes over a run: one for each row and transaction that changes its status. */
  function Changes(db: Db, ts: seq<Txn>): nat {
    if ts == [] then 0
    else
      var n := |ts| - 1;
      var before := Run(db, ts[..n]).ops;
      StepIsForward(Run(db, ts[..n]), ts[n]);
      Changes(db, ts[..n]) + Differences(before, Run(db, ts).ops, |before|)
  }

  lemma {:induction false} ChangesPaidByPotential(db: Db, ts: seq<Txn>)
    ensures |db.ops| <= |Run(db, ts).ops|
    ensures Changes(db, ts) + Potential(Run(db, ts).ops) <= Potential(db.ops) + 3 * (|Run(db, ts).ops| - |db.ops|)
  {
    if ts != [] {
      var n := |ts| - 1;
      ChangesPaidByPotential(db, ts[..n]);
      var before, after := Run(db, ts[..n]).ops, Run(db, ts).ops;
      StepIsForward(Run(db, ts[..n]), ts[n]);
      ForwardPaysForDifferences(before, after, |before|);
      assert before[..|before|] == before;
      PotentialOfPrefix(after, |before|);
    }
  }

  /** A run that ends with N operations has committed at most 3N status changes. */
  lemma AtMostThreeChangesEach(users: set<Id>, now: nat, ts: seq<Txn>)
    ensures Changes(EmptyDb(users, now), ts) <= 3 * |Run(EmptyDb(users, now), ts).ops|
  {
    ChangesPaidByPotential(EmptyDb(users, now), ts);
  }
}
