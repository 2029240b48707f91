/**
 * The store as the program writes it: statements that update the tables one after another, inside
 * transactions that put the tables back when a statement fails.  Each contract says exactly when the
 * method succeeds and what changes; its last clause makes it the transaction of the same name in
 * `Database`, which the runs are made of.
 */
module Persistence {
  import opened Domain
  import opened Database
  import History
  import Lease

  class Store {
    var DB: Db

    constructor (db: Db)
      ensures DB == db
    {
      DB := db;
    }

    method CreateEnvironment(e: Environment) returns (r: Reply)
      modifies this
      ensures (DB, r) == InsertEnvironment(old(DB), e)
    {
      if e.name != "development" && e.name != "test" && e.name != "production" {
        return Failure(CheckViolation);
      }
      if exists i :: 0 <= i < |DB.envs| && DB.envs[i].app == e.app && DB.envs[i].name == e.name {
        return Failure(UniqueViolation);
      }
      DB := DB.(envs := DB.envs + [e]);
      return Created(|DB.envs| - 1);
    }

    method GetEnvironment(id: Id) returns (r: Result<Environment>)
      ensures r == if id < |DB.envs| then Ok(DB.envs[id]) else Err(NotFound)
    {
      if id >= |DB.envs| {
        return Err(NotFound);
      }
      return Ok(DB.envs[id]);
    }

    method GetOperation(id: Id) returns (r: Result<Operation>)
      ensures r == if id < |DB.ops| then Ok(DB.ops[id]) else Err(NotFound)
    {
      if id >= |DB.ops| {
        return Err(NotFound);
      }
      return Ok(DB.ops[id]);
    }

    method AppendEvent(e: Event)
      modifies this
      ensures DB == old(DB).(events := old(DB).events + [e])
    {
      DB := DB.(events := DB.events + [e]);
    }

    method CreateOperation(o: Operation, logged: bool) returns (r: Reply)
      modifies this
      ensures r.Created? <==>
              && !o.kind.UnknownKind? && o.requester in old(DB).users
              && forall i :: 0 <= i < |old(DB).ops| ==> old(DB).ops[i].key != o.key
      ensures r.Created? ==>
                && r.id == |old(DB).ops| && Appended(old(DB).ops, DB.ops) && KeyTaken(DB.ops, o.key)
                && DB.ops[r.id] == o.(provider := if o.provider == UnknownProvider("") then Web else o.provider)
                && DB.events == old(DB).events + (if logged then [OperationCreated(r.id)] else [])
      ensures History.KeysUnique(old(DB).ops) ==> History.KeysUnique(DB.ops)
      ensures !r.Created? ==> DB == old(DB)
      ensures (DB, r) == Database.CreateOperation(old(DB), o, logged)
    {
      var row := o;
      if row.provider == UnknownProvider("") {
        row := row.(provider := Web);
      }
      if row.kind.UnknownKind? {
        return Failure(CheckViolation);
      }
      if row.requester !in DB.users {
        return Failure(ForeignKeyViolation);
      }
      if KeyTaken(DB.ops, row.key) {
        return Failure(UniqueViolation);
      }
      var id := |DB.ops|;
      DB := DB.(ops := DB.ops + [row]);
      assert DB.ops[id].key == o.key;
      if logged {
        AppendEvent(OperationCreated(id));
      }
      return Created(id);
    }

    method UpdateStatus(id: Id, to: Status)
      requires id < |DB.ops|
      modifies this
      ensures DB == SetStatus(old(DB), id, to)
    {
      DB := DB.(ops := DB.ops[id := DB.ops[id].(status := to)],
                writes := DB.writes + [StatusWrite(id, DB.ops[id].status, to)]);
    }

    method TransitionOperation(id: Id, from: Status, to: Status, code: string, message: string) returns (r: Reply)
      modifies this
      ensures r.Done? <==>
              && ((from == PendingApproval && to in {Approved, Rejected, Expired}) || (from == Approved && to == Queued)
                  || (from == Queued && to == Running) || (from == Running && to in {Succeeded, Failed}))
              && id < |old(DB).ops| && old(DB).ops[id].status == from
      ensures r.Done? ==>
                && OnlyRow(old(DB).ops, DB.ops, id) && DB.events == old(DB).events + [OperationStatus(id, to)]
                && DB.ops[id] == old(DB).ops[id].(status := to, errorCode := code, errorMessage := message)
                && DB.ops[id].status != from
      ensures r == Failure(InvalidState) <==> !CanTransitionTo(from, to)
      ensures !r.Done? ==> DB == old(DB)
      ensures (DB, r) == Transition(old(DB), id, from, to, code, message)
    {
      TransitionMeans(DB, id, from, to, code, message);
      if !CanTransitionTo(from, to) {
        return Failure(InvalidState);
      }
      var affected := UpdateWhere(id, from, to, code, message);
      if affected != 1 {
        return Failure(Conflict);
      }
      AppendEvent(OperationStatus(id, to));
      return Done;
    }

    /** UPDATE ... WHERE id AND status, and how many rows it changed. */
    method UpdateWhere(id: Id, from: Status, to: Status, code: string, message: string) returns (affected: nat)
      modifies this
      ensures affected == if id < |old(DB).ops| && old(DB).ops[id].status == from then 1 else 0
      ensures affected == 0 ==> DB == old(DB)
      ensures affected == 1 ==>
                var d := SetStatus(old(DB), id, to);
                DB == d.(ops := d.ops[id := d.ops[id].(errorCode := code, errorMessage := message)])
    {
      affected := 0;
      if id < |DB.ops| && DB.ops[id].status == from {
        UpdateStatus(id, to);
        DB := DB.(ops := DB.ops[id := DB.ops[id].(errorCode := code, errorMessage := message)]);
        affected := 1;
      }
    }

    /** `refused` models a failing outbox insert. */
    method EnqueueNotification(note: Notification, provider: Provider, at: nat, refused: bool) returns (r: Reply)
      modifies this
      ensures r == if refused then Failure(Unavailable) else Done
      ensures r.Done? ==>
                && Appended(old(DB).outbox, DB.outbox)
                && var row := DB.outbox[|old(DB).outbox|];
                   && Due(row, DB.now) && row.provider == provider
                   && row.note == note && row.destination == note.destination
                   && row.attempts == 0 && row.lastError == "" && row.createdAt == at
      ensures DB == if refused then old(DB) else Enqueue(old(DB), note, provider, at)
    {
      if refused {
        return Failure(Unavailable);
      }
      DB := DB.(outbox := DB.outbox + [OutboxRow(provider, note.destination, note, 0, ZERO_TIME, None, "", at)]);
      return Done;
    }

    /** Status change and notification commit together: a refused insert undoes the status change. */
    method TransitionOperationWithNotification(
        id: Id, from: Status, to: Status, code: string, message: string,
        note: Option<Notification>, provider: Provider, at: nat, refused: bool) returns (r: Reply)
      modifies this
      ensures !refused || note.None? ==>
                && DB == TransitionWithNotification(old(DB), id, from, to, code, message, note, provider, at).0
                && r == TransitionWithNotification(old(DB), id, from, to, code, message, note, provider, at).1
      ensures refused && note.Some? ==> r.Failure? && DB == old(DB)
      ensures r.Done? <==>
              && CanTransitionTo(from, to) && id < |old(DB).ops| && old(DB).ops[id].status == from
              && !(refused && note.Some?)
      ensures r.Done? ==>
                && OnlyRow(old(DB).ops, DB.ops, id)
                && DB.ops[id] == old(DB).ops[id].(status := to, errorCode := code, errorMessage := message)
                && (note.None? ==> DB.outbox == old(DB).outbox)
                && (note.Some? ==>
                      && Appended(old(DB).outbox, DB.outbox)
                      && DB.outbox[|old(DB).outbox|].note == note.value
                      && DB.outbox[|old(DB).outbox|].provider == provider && Due(DB.outbox[|old(DB).outbox|], DB.now))
      ensures !r.Done? ==> DB == old(DB)
    {
      var saved := DB;
      r := TransitionOperation(id, from, to, code, message);
      if r.Failure? {
        return;
      }
      if note.Some? {
        r := EnqueueNotification(note.value, provider, at, refused);
        if r.Failure? {
          DB := saved;
        }
      }
    }

    method InsertApproval(a: Approval) returns (refusal: Option<Error>)
      modifies this
      ensures refusal == ApprovalRefusal(old(DB), a)
      ensures DB == if refusal.None? then old(DB).(approvals := old(DB).approvals + [a]) else old(DB)
    {
      refusal := ApprovalRefusal(DB, a);
      if refusal.None? {
        DB := DB.(approvals := DB.approvals + [a]);
      }
    }

    method Approve(id: Id, approver: Id, decision: string, comment: string) returns (r: Reply)
      modifies this
      ensures r.Done? <==>
              && id < |old(DB).ops| && old(DB).ops[id].status == PendingApproval
              && old(DB).ops[id].requester != approver
              && (decision == "approved" || decision == "rejected") && approver in old(DB).users
              && !HasApproval(old(DB).approvals, id)
      ensures r.Done? ==>
                && OnlyRow(old(DB).ops, DB.ops, id)
                && DB.ops[id] == old(DB).ops[id].(status := if decision == "rejected" then Rejected else Queued)
                && DB.approvals == old(DB).approvals + [Approval(id, approver, decision, comment)]
                && old(DB).writes <= DB.writes
                && forall k :: |old(DB).writes| <= k < |DB.writes| ==>
                     CanTransitionTo(DB.writes[k].from, DB.writes[k].to)
      ensures r == Failure(NotFound) <==> id >= |old(DB).ops|
      ensures r == Failure(SelfApproval) <==> id < |old(DB).ops| && old(DB).ops[id].requester == approver
      ensures !r.Done? ==> DB == old(DB)
      ensures (DB, r) == Database.Approve(old(DB), id, approver, decision, comment)
    {
      if id >= |DB.ops| {
        return Failure(NotFound);
      }
      var o := DB.ops[id];
      if o.requester == approver {
        return Failure(SelfApproval);
      }
      var to := Approved;
      if decision == "rejected" {
        to := Rejected;
      }
      if !CanTransitionTo(o.status, to) {
        return Failure(InvalidState);
      }
      var refusal := InsertApproval(Approval(id, approver, decision, comment));
      if refusal.Some? {
        return Failure(refusal.value);
      }
      UpdateStatus(id, to);
      if to == Approved {
        UpdateStatus(id, Queued);
      }
      return Done;
    }

    /** `locked` holds the rows other transactions have locked. */
    method ClaimOperation(owner: string, locked: set<Id>) returns (r: Reply)
      modifies this
      ensures r.Claimed? ==>
                && r.id < |old(DB).ops| && r.id !in locked
                && old(DB).ops[r.id].status == Queued && old(DB).ops[r.id].nextAttemptAt <= old(DB).now
                && (forall i :: && 0 <= i < |old(DB).ops| && i !in locked
                                && old(DB).ops[i].status == Queued && old(DB).ops[i].nextAttemptAt <= old(DB).now ==>
                      old(DB).ops[r.id].createdAt <= old(DB).ops[i].createdAt)
                && OnlyRow(old(DB).ops, DB.ops, r.id) && DB.ops[r.id] == r.row
                && r.row == old(DB).ops[r.id].(status := Running, claimedBy := Some(owner))
      ensures !r.Claimed? ==>
                && DB == old(DB)
                && forall i :: 0 <= i < |DB.ops| && i !in locked ==>
                     DB.ops[i].status != Queued || DB.ops[i].nextAttemptAt > DB.now
      ensures (DB, r) == Database.ClaimOperation(old(DB), owner, locked)
    {
      var selected := OldestClaimable(DB.ops, DB.now, locked, |DB.ops|);
      if selected.None? {
        return Failure(NotFound);
      }
      var id := selected.value;
      UpdateStatus(id, Running);
      DB := DB.(ops := DB.ops[id := DB.ops[id].(claimedBy := Some(owner))]);
      return Claimed(id, DB.ops[id]);
    }

    /** The claimed rows, as they were selected, with their ids. */
    method ClaimOutbox(limit: int, lease: int, locked: set<Id>) returns (ids: seq<Id>, rows: seq<(Id, OutboxRow)>)
      modifies this
      ensures DB == old(DB).(outbox := ClaimRows(old(DB).outbox, old(DB).now, limit, lease, locked).0)
      ensures ids == ClaimRows(old(DB).outbox, old(DB).now, limit, lease, locked).1
      ensures AsSelected(old(DB).outbox, ids, rows)
      ensures Leased(old(DB).outbox, DB.outbox, DB.now, limit, lease, locked, ids)
    {
      ClaimMeans(DB.outbox, DB.now, limit, lease, locked);
      ids, rows := SelectAndPostpone(limit, lease, locked);
    }

    /** The statements of the transaction. */
    method SelectAndPostpone(limit: int, lease: int, locked: set<Id>)
      returns (ids: seq<Id>, rows: seq<(Id, OutboxRow)>)
      modifies this
      ensures DB == old(DB).(outbox := ClaimRows(old(DB).outbox, old(DB).now, limit, lease, locked).0)
      ensures ids == ClaimRows(old(DB).outbox, old(DB).now, limit, lease, locked).1
      ensures AsSelected(old(DB).outbox, ids, rows)
    {
      ids, rows := SelectRows(locked, BatchLimit(limit));
      if |ids| == 0 {
        EmptyClaim(DB.outbox, DB.now, limit, lease, locked);
        return;
      }
      DB := DB.(outbox := Postpone(DB.outbox, IdSet(ids), DB.now + LeaseLength(lease)));
    }

    /** The SELECT of the claim. */
    method SelectRows(locked: set<Id>, n: nat) returns (ids: seq<Id>, rows: seq<(Id, OutboxRow)>)
      ensures ids == SelectDue(DB.outbox, DB.now, locked, n)
      ensures AsSelected(DB.outbox, ids, rows)
    {
      SelectDueMeans(DB.outbox, DB.now, locked, n);
      PickedMeans(DB.outbox, SelectDue(DB.outbox, DB.now, locked, n));
      var selected := SelectDue(DB.outbox, DB.now, locked, n);
      rows := Picked(DB.outbox, selected);
      SelectedIds(DB.outbox, DB.now, locked, n);
      ids := CollectIds(rows);
      assert ids == selected;
    }

    /** The loop over the selected rows. */
    method CollectIds(rows: seq<(Id, OutboxRow)>) returns (ids: seq<Id>)
      ensures ids == IdsOf(rows)
    {
      ids := [];
      for k := 0 to |rows|
        invariant ids == IdsOf(rows[..k])
      {
        assert rows[..k + 1] == rows[..k] + [rows[k]];
        ids := ids + [rows[k].0];
      }
      assert rows[..|rows|] == rows;
    }

    method MarkOutboxSent(id: Id)
      modifies this
      ensures OnlyRow(old(DB).outbox, DB.outbox, id)
      ensures id < |DB.outbox| ==>
                && DB.outbox[id].sentAt.Some?
                && (old(DB).outbox[id].sentAt.Some? ==> DB.outbox[id] == old(DB).outbox[id])
                && (old(DB).outbox[id].sentAt.None? ==> DB.outbox[id].sentAt.value == DB.now)
                && DB.outbox[id] == old(DB).outbox[id].(sentAt := DB.outbox[id].sentAt)
                && forall time: nat :: !Due(DB.outbox[id], time)
      ensures DB == old(DB).(outbox := MarkSent(old(DB).outbox, id, old(DB).now))
    {
      if id < |DB.outbox| && DB.outbox[id].sentAt.None? {
        DB := DB.(outbox := DB.outbox[id := DB.outbox[id].(sentAt := Some(DB.now))]);
      }
    }

    method MarkOutboxFailed(id: Id, error: string)
      modifies this
      ensures OnlyRow(old(DB).outbox, DB.outbox, id)
      ensures id < |DB.outbox| && old(DB).outbox[id].sentAt.Some? ==> DB.outbox[id] == old(DB).outbox[id]
      ensures id < |DB.outbox| && old(DB).outbox[id].sentAt.None? ==>
                && DB.outbox[id].note == old(DB).outbox[id].note && DB.outbox[id].lastError == error
                && DB.outbox[id].attempts == old(DB).outbox[id].attempts + 1
                && forall time: nat :: Due(DB.outbox[id], time) <==> time >= DB.now + 5000
      ensures DB == old(DB).(outbox := MarkFailed(old(DB).outbox, id, old(DB).now, error))
    {
      if id < |DB.outbox| && DB.outbox[id].sentAt.None? {
        var row := DB.outbox[id];
        DB := DB.(outbox := DB.outbox[id :=
          row.(attempts := row.attempts + 1, nextAttemptAt := DB.now + RETRY_DELAY, lastError := error)]);
      }
    }

    /** Without a setting the console's own provider is active. */
    method GetActiveMessageProvider() returns (r: Result<Provider>)
      ensures var active := if DB.setting.None? then Web else DB.setting.value;
              r == if active in {Web, Feishu, WeCom, DingTalk} then Ok(active) else Err(InvalidInput)
      ensures r == if ValidProvider(Active(DB)) then Ok(Active(DB)) else Err(InvalidInput)
    {
      if DB.setting.None? {
        return Ok(Web);
      }
      if !ValidProvider(DB.setting.value) {
        return Err(InvalidInput);
      }
      return Ok(DB.setting.value);
    }

    /** The SELECT count(*). */
    method HasUnfinishedMessageOperations(provider: Provider) returns (r: Result<bool>)
      ensures r.Ok? <==> provider in {Web, Feishu, WeCom, DingTalk}
      ensures r.Ok? ==>
                (r.value <==>
                   exists i :: && 0 <= i < |DB.ops| && DB.ops[i].provider == provider && DB.ops[i].conversation != ""
                               && DB.ops[i].status in {PendingApproval, Approved, Queued, Running})
      ensures r == if ValidProvider(provider) then Ok(HasUnfinished(DB.ops, provider)) else Err(InvalidInput)
    {
      if !ValidProvider(provider) {
        return Err(InvalidInput);
      }
      var count := 0;
      for i := 0 to |DB.ops|
        invariant count >= 0
        invariant count > 0 <==> HasUnfinished(DB.ops[..i], provider)
      {
        var o := DB.ops[i];
        assert DB.ops[..i + 1] == DB.ops[..i] + [o];
        if o.provider == provider && o.conversation != "" && Unfinished(o.status) {
          count := count + 1;
          assert DB.ops[..i + 1][i] == o;
        }
      }
      assert DB.ops[..|DB.ops|] == DB.ops;
      return Ok(count > 0);
    }

    method SetActiveMessageProvider(provider: Provider) returns (r: Reply)
      modifies this
      ensures var current := if old(DB).setting.None? then Web else old(DB).setting.value;
              var known := {Web, Feishu, WeCom, DingTalk};
              var blocked := exists i :: && 0 <= i < |old(DB).ops| && old(DB).ops[i].provider == current
                                         && old(DB).ops[i].conversation != ""
                                         && old(DB).ops[i].status in {PendingApproval, Approved, Queued, Running};
              && (r.Done? <==> provider in known && current in known && (current == provider || !blocked))
              && (r == Failure(Conflict) <==> provider in known && current in known && current != provider && blocked)
              && ((forall i :: 0 <= i < |old(DB).ops| ==>
                     old(DB).ops[i].status in {Succeeded, Failed, Rejected, Expired}) ==> !blocked)
      ensures r.Done? ==> Active(DB) == provider && DB == old(DB).(setting := DB.setting)
      ensures !r.Done? ==> DB == old(DB)
      ensures (DB, r) == SetActive(old(DB), provider)
    {
      if !ValidProvider(provider) {
        return Failure(InvalidInput);
      }
      var current := GetActiveMessageProvider();
      if current.Err? {
        return Failure(current.error);
      }
      if current.value == provider {
        return Done;
      }
      var unfinished := HasUnfinishedMessageOperations(current.value);
      match unfinished
      case Err(error) => return Failure(error);
      case Ok(found) =>
        if found {
          return Failure(Conflict);
        }
        DB := DB.(setting := Some(provider));
        return Done;
    }

    method InitializeActiveMessageProvider(provider: Provider) returns (r: Reply)
      modifies this
      ensures r.Done? <==> ValidProvider(provider)
      ensures DB == old(DB).(setting := DB.setting)
      ensures DB.setting == if old(DB).setting.Some? || !r.Done? then old(DB).setting else Some(provider)
      ensures (DB, r) == InitializeActive(old(DB), provider)
    {
      if !ValidProvider(provider) {
        return Failure(InvalidInput);
      }
      if DB.setting.None? {
        DB := DB.(setting := Some(provider));
      }
      return Done;
    }
  }

  /** The rows at the given positions, in that order. */
  function Picked(table: seq<OutboxRow>, ids: seq<Id>): seq<(Id, OutboxRow)> {
    if ids == [] then []
    else
      var last := ids[|ids| - 1];
      Picked(table, ids[..|ids| - 1]) + (if last < |table| then [(last, table[last])] else [])
  }

  function IdsOf(rows: seq<(Id, OutboxRow)>): seq<Id> {
    if rows == [] then [] else IdsOf(rows[..|rows| - 1]) + [rows[|rows| - 1].0]
  }

  lemma {:induction false} PickedMeans(table: seq<OutboxRow>, ids: seq<Id>)
    requires forall k :: 0 <= k < |ids| ==> ids[k] < |table|
    ensures |Picked(table, ids)| == |ids|
    ensures forall k :: 0 <= k < |ids| ==> Picked(table, ids)[k] == (ids[k], table[ids[k]])
  {
    if ids != [] {
      PickedMeans(table, ids[..|ids| - 1]);
    }
  }

  lemma {:induction false} PickedIds(table: seq<OutboxRow>, ids: seq<Id>)
    requires forall k :: 0 <= k < |ids| ==> ids[k] < |table|
    ensures IdsOf(Picked(table, ids)) == ids
  {
    if ids != [] {
      var n := |ids| - 1;
      PickedIds(table, ids[..n]);
      var rows := Picked(table, ids);
      assert rows[..|rows| - 1] == Picked(table, ids[..n]);
    }
  }

  lemma SelectedIds(table: seq<OutboxRow>, now: nat, locked: set<Id>, n: nat)
    ensures IdsOf(Picked(table, SelectDue(table, now, locked, n))) == SelectDue(table, now, locked, n)
  {
    SelectDueMeans(table, now, locked, n);
    PickedIds(table, SelectDue(table, now, locked, n));
  }

  /** What a compare-and-set does. */
  lemma TransitionMeans(db: Db, id: Id, from: Status, to: Status, code: string, message: string)
    ensures var (d, r) := Transition(db, id, from, to, code, message);
            && (r.Done? <==> CanTransitionTo(from, to) && id < |db.ops| && db.ops[id].status == from)
            && (r.Done? ==>
                  && OnlyRow(db.ops, d.ops, id) && d.events == db.events + [OperationStatus(id, to)]
                  && d.ops[id] == db.ops[id].(status := to, errorCode := code, errorMessage := message)
                  && d.ops[id].status != from)
            && (r == Failure(InvalidState) <==> !CanTransitionTo(from, to)) && (!r.Done? ==> d == db)
  {
  }

  /** The rows as they are in the table. */
  ghost predicate AsSelected(table: seq<OutboxRow>, ids: seq<Id>, rows: seq<(Id, OutboxRow)>) {
    && |rows| == |ids|
    && forall k {:trigger rows[k]} :: 0 <= k < |ids| ==> ids[k] < |table| && rows[k] == (ids[k], table[ids[k]])
  }

  /**
   * The selected rows were due and not locked, and are postponed by the lease; nothing else changes.  At most
   * `limit` rows are selected, 50 if it is not from 1 to 100, and a due row is left out only by a full batch of
   * rows that are not younger.
   */
  ghost predicate Leased(
      before: seq<OutboxRow>, after: seq<OutboxRow>, now: nat, limit: int, lease: int, locked: set<Id>, ids: seq<Id>)
  {
    var most := if limit <= 0 || limit > 100 then 50 else limit;
    && |ids| <= most && |after| == |before|
    && (forall i :: 0 <= i < |before| ==>
          if i !in ids then after[i] == before[i]
          else
            && i !in locked && before[i].sentAt.None? && before[i].nextAttemptAt <= now
            && after[i] == before[i].(nextAttemptAt := now + if lease <= 0 then 30000 else lease))
    && (forall i :: && 0 <= i < |before| && i !in locked && i !in ids
                    && before[i].sentAt.None? && before[i].nextAttemptAt <= now ==>
          |ids| == most && forall id: Id :: id in ids ==>
                             id < |before| && before[id].createdAt <= before[i].createdAt)
  }

  /** What the claim selects, and what it makes of the table. */
  lemma ClaimMeans(rows: seq<OutboxRow>, now: nat, limit: int, lease: int, locked: set<Id>)
    ensures var (after, ids) := ClaimRows(rows, now, limit, lease, locked);
            Leased(rows, after, now, limit, lease, locked, ids)
  {
    SelectDueMeans(rows, now, locked, BatchLimit(limit));
    LeftOut(rows, now, locked, BatchLimit(limit));
  }

  /** A due row is left out only by a full batch of older ones. */
  lemma LeftOut(rows: seq<OutboxRow>, now: nat, locked: set<Id>, n: nat)
    ensures var ids := SelectDue(rows, now, locked, n);
            forall i: Id :: i < |rows| && i !in locked && Due(rows[i], now) && i !in ids ==>
              |ids| == n && forall id: Id :: id in ids ==> id < |rows| && rows[id].createdAt <= rows[i].createdAt
  {
    Lease.SelectDueIsOldestFirst(rows, now, locked, n);
  }

  lemma EmptyClaim(rows: seq<OutboxRow>, now: nat, limit: int, lease: int, locked: set<Id>)
    requires |SelectDue(rows, now, locked, BatchLimit(limit))| == 0
    ensures ClaimRows(rows, now, limit, lease, locked).0 == rows
  {
  }

  /** The application service in front of the store. */
  class Service {
    const store: Store

    constructor (store: Store)
      ensures this.store == store
    {
      this.store := store;
    }

    /** Production always requires approval, and a timeout of zero stands for ten minutes. */
    method CreateEnvironment(e: Environment) returns (r: Reply)
      modifies store
      ensures r.Created? <==>
              && e.name in {"development", "test", "production"}
              && forall i :: 0 <= i < |old(store.DB).envs| && old(store.DB).envs[i].app == e.app ==>
                   old(store.DB).envs[i].name != e.name
      ensures r.Created? ==>
                && r.id == |old(store.DB).envs| && Appended(old(store.DB).envs, store.DB.envs)
                && var row := store.DB.envs[r.id];
                   && (row.name == "production" ==> row.approvalRequired)
                   && (e.rolloutTimeoutSeconds == 0 ==> row.rolloutTimeoutSeconds == 600)
                   && row == e.(approvalRequired := row.approvalRequired,
                                rolloutTimeoutSeconds := row.rolloutTimeoutSeconds)
                   && (e.name != "production" ==> row.approvalRequired == e.approvalRequired)
                   && (e.rolloutTimeoutSeconds != 0 ==> row.rolloutTimeoutSeconds == e.rolloutTimeoutSeconds)
      ensures !r.Created? ==> store.DB == old(store.DB)
      ensures History.Sound(old(store.DB)) ==> History.Sound(store.DB)
      ensures (store.DB, r) == AddEnvironment(old(store.DB), e)
    {
      if History.Sound(store.DB) { History.CreateEnvironmentKeepsSound(store.DB, e); }
      var row := e;
      if row.name == "production" {
        row := row.(approvalRequired := true);
      }
      if row.rolloutTimeoutSeconds == 0 {
        row := row.(rolloutTimeoutSeconds := 600);
      }
      r := store.CreateEnvironment(row);
    }

    method RequestOperationWithOrigin(
        requester: Id, kind: Kind, env: Id, image: string, revision: int, key: string, origin: Origin, logged: bool)
      returns (r: Reply)
      modifies store
      ensures r.Created? <==>
              && env < |old(store.DB).envs| && (kind == Deploy ==> old(store.DB).envs[env].imagePrefix <= image)
              && !kind.UnknownKind? && requester in old(store.DB).users && !KeyTaken(old(store.DB).ops, key)
      ensures r.Created? ==>
                && r.id == |old(store.DB).ops| && Appended(old(store.DB).ops, store.DB.ops)
                && History.AsRequested(old(store.DB), store.DB.ops[r.id],
                                       requester, kind, env, image, revision, key, origin)
      ensures !r.Created? ==> store.DB == old(store.DB)
      ensures History.Sound(old(store.DB)) ==> History.Sound(store.DB)
      ensures (store.DB, r)
              == RequestOperation(old(store.DB), requester, kind, env, image, revision, key, origin, logged)
    {
      History.RequestSucceedsIff(store.DB, requester, kind, env, image, revision, key, origin, logged);
      if History.Sound(store.DB) {
        History.RequestKeepsSound(store.DB, requester, kind, env, image, revision, key, origin, logged);
      }
      var found := store.GetEnvironment(env);
      if found.Err? {
        return Failure(found.error);
      }
      var e := found.value;
      if kind == Deploy && !(e.imagePrefix <= image) {
        return Failure(InvalidInput);
      }
      var status := Queued;
      if e.approvalRequired {
        status := PendingApproval;
      }
      var provider := origin.provider;
      if provider == UnknownProvider("") {
        provider := Web;
      }
      r := store.CreateOperation(
        Operation(kind, status, e.app, env, requester, image, revision, key, provider,
                  origin.conversation, origin.event, "", "", ZERO_TIME, None, store.DB.now), logged);
    }

    method Decide(id: Id, approver: Id, decision: string, comment: string) returns (r: Reply)
      modifies store
      ensures History.Sound(old(store.DB)) ==>
                && History.Sound(store.DB)
                && (r.Done? <==>
                      && id < |old(store.DB).ops| && old(store.DB).ops[id].status == PendingApproval
                      && old(store.DB).ops[id].requester != approver && approver in old(store.DB).users
                      && (decision == "approved" || decision == "rejected"))
      ensures r.Done? ==>
                && id < |store.DB.ops| && OnlyRow(old(store.DB).ops, store.DB.ops, id)
                && store.DB.ops[id]
                   == old(store.DB).ops[id].(status := if decision == "rejected" then Rejected else Queued)
                && store.DB.approvals == old(store.DB).approvals + [Approval(id, approver, decision, comment)]
      ensures !r.Done? ==> store.DB == old(store.DB)
      ensures (store.DB, r) == Database.Decide(old(store.DB), id, approver, decision, comment)
    {
      if History.Sound(store.DB) {
        History.DecideKeepsSound(store.DB, id, approver, decision, comment);
        History.DecisionSucceedsIff(store.DB, id, approver, decision, comment);
      }
      if decision != "approved" && decision != "rejected" {
        return Failure(InvalidInput);
      }
      r := store.Approve(id, approver, decision, comment);
    }
  }
}
