/**
 * The tables and the transactions of the store, as functions from database to database.
 * One call of `Execute` is one committed (or rolled back) transaction.
 */
module Database {
  import opened Domain

  /** `idempotency_key` is UNIQUE, `requester` and `env` are foreign keys, `kind` is checked. */
  datatype Operation = Operation(
    kind: Kind, status: Status, app: Id, env: Id, requester: Id, image: string, revision: int, key: string,
    provider: Provider, conversation: string, event: string, errorCode: string, errorMessage: string,
    nextAttemptAt: nat, claimedBy: Option<string>, createdAt: nat)

  /** `operation` is UNIQUE, `approver` is a foreign key, `decision` is checked. */
  datatype Approval = Approval(operation: Id, approver: Id, decision: string, comment: string)

  datatype Notification = Notification(operation: Id, destination: string, text: string)

  datatype OutboxRow = OutboxRow(
    provider: Provider, destination: string, note: Notification,
    attempts: nat, nextAttemptAt: nat, sentAt: Option<nat>, lastError: string, createdAt: nat)

  datatype Event = OperationCreated(operation: Id) | OperationStatus(operation: Id, status: Status)

  /** One write to the status column of one row. */
  datatype StatusWrite = StatusWrite(operation: Id, from: Status, to: Status)

  /**
   * `setting` is the active_message_provider row of system_settings.  `writes` is not a table: it
   * records every write to a status column, in order, also those no other transaction can see.
   */
  datatype Db = Db(
    envs: seq<Environment>, users: set<Id>, ops: seq<Operation>, approvals: seq<Approval>,
    outbox: seq<OutboxRow>, events: seq<Event>, setting: Option<Provider>, now: nat,
    writes: seq<StatusWrite>)

  function EmptyDb(users: set<Id>, now: nat): Db {
    Db([], users, [], [], [], [], None, now, [])
  }

  datatype Reply =
    | Done | Created(id: Id) | Claimed(id: Id, row: Operation) | Batch(ids: seq<Id>) | Failure(error: Error)

  // ---------- environments ----------

  /** `name` is checked, and unique within the application. */
  function InsertEnvironment(db: Db, e: Environment): (Db, Reply) {
    if e.name !in {"development", "test", "production"} then (db, Failure(CheckViolation))
    else if exists i :: 0 <= i < |db.envs| && db.envs[i].app == e.app && db.envs[i].name == e.name then
      (db, Failure(UniqueViolation))
    else (db.(envs := db.envs + [e]), Created(|db.envs|))
  }

  function AddEnvironment(db: Db, e: Environment): (Db, Reply) {
    var e := if e.name == "production" then e.(approvalRequired := true) else e;
    InsertEnvironment(db, if e.rolloutTimeoutSeconds == 0 then e.(rolloutTimeoutSeconds := 600) else e)
  }

  // ---------- operations ----------

  predicate KeyTaken(ops: seq<Operation>, key: string) {
    exists i :: 0 <= i < |ops| && ops[i].key == key
  }

  /** `logged` is false when the best-effort event insert after the row insert fails. */
  function CreateOperation(db: Db, o: Operation, logged: bool): (Db, Reply) {
    var o := if o.provider == UnknownProvider("") then o.(provider := Web) else o;
    if o.kind.UnknownKind? then (db, Failure(CheckViolation))
    else if o.requester !in db.users then (db, Failure(ForeignKeyViolation))
    else if KeyTaken(db.ops, o.key) then (db, Failure(UniqueViolation))
    else
      var id := |db.ops|;
      (db.(ops := db.ops + [o], events := if logged then db.events + [OperationCreated(id)] else db.events),
       Created(id))
  }

  function RequestOperation(
    db: Db, requester: Id, kind: Kind, env: Id, image: string, revision: int, key: string,
    origin: Origin, logged: bool): (Db, Reply)
  {
    if env >= |db.envs| then (db, Failure(NotFound))
    else
      var e := db.envs[env];
      if kind == Deploy && !(e.imagePrefix <= image) then (db, Failure(InvalidInput))
      else
        var status := if e.approvalRequired then PendingApproval else Queued;
        var provider := if origin.provider == UnknownProvider("") then Web else origin.provider;
        CreateOperation(db, Operation(kind, status, e.app, env, requester, image, revision, key, provider,
                                      origin.conversation, origin.event, "", "", ZERO_TIME, None, db.now), logged)
  }

  function SetStatus(db: Db, id: Id, to: Status): Db
    requires id < |db.ops|
  {
    db.(ops := db.ops[id := db.ops[id].(status := to)],
        writes := db.writes + [StatusWrite(id, db.ops[id].status, to)])
  }

  /** The UPDATE of a compare-and-set on the status, with the event in the same transaction. */
  function Transition(db: Db, id: Id, from: Status, to: Status, code: string, message: string): (Db, Reply) {
    if !CanTransitionTo(from, to) then (db, Failure(InvalidState))
    else if id >= |db.ops| || db.ops[id].status != from then (db, Failure(Conflict))
    else
      var d := SetStatus(db, id, to);
      (d.(ops := d.ops[id := d.ops[id].(errorCode := code, errorMessage := message)],
          events := d.events + [OperationStatus(id, to)]), Done)
  }

  function Enqueue(db: Db, note: Notification, provider: Provider, at: nat): Db {
    db.(outbox := db.outbox + [OutboxRow(provider, note.destination, note, 0, ZERO_TIME, None, "", at)])
  }

  function TransitionWithNotification(
    db: Db, id: Id, from: Status, to: Status, code: string, message: string,
    note: Option<Notification>, provider: Provider, at: nat): (Db, Reply)
  {
    var (d, r) := Transition(db, id, from, to, code, message);
    if r.Failure? || note.None? then (d, r) else (Enqueue(d, note.value, provider, at), r)
  }

  // ---------- approvals ----------

  predicate HasApproval(approvals: seq<Approval>, id: Id) {
    exists i :: 0 <= i < |approvals| && approvals[i].operation == id
  }

  function ApprovalRefusal(db: Db, a: Approval): Option<Error> {
    if a.decision != "approved" && a.decision != "rejected" then Some(CheckViolation)
    else if a.approver !in db.users then Some(ForeignKeyViolation)
    else if HasApproval(db.approvals, a.operation) then Some(UniqueViolation)
    else None
  }

  function DecisionStatus(decision: string): Status {
    if decision == "rejected" then Rejected else Approved
  }

  function Approve(db: Db, id: Id, approver: Id, decision: string, comment: string): (Db, Reply) {
    if id >= |db.ops| then (db, Failure(NotFound))
    else if db.ops[id].requester == approver then (db, Failure(SelfApproval))
    else if !CanTransitionTo(db.ops[id].status, DecisionStatus(decision)) then (db, Failure(InvalidState))
    else
      var a := Approval(id, approver, decision, comment);
      var refusal := ApprovalRefusal(db, a);
      if refusal.Some? then (db, Failure(refusal.value))
      else
        var d := SetStatus(db.(approvals := db.approvals + [a]), id, DecisionStatus(decision));
        (if DecisionStatus(decision) == Approved then SetStatus(d, id, Queued) else d, Done)
  }

  function Decide(db: Db, id: Id, approver: Id, decision: string, comment: string): (Db, Reply) {
    if decision != "approved" && decision != "rejected" then (db, Failure(InvalidInput))
    else Approve(db, id, approver, decision, comment)
  }

  // ---------- claiming ----------

  /** A row the claim's WHERE clause accepts. */
  predicate Claimable(o: Operation, now: nat) {
    o.status == Queued && o.nextAttemptAt <= now
  }

  /** ORDER BY created_at ... SKIP LOCKED LIMIT 1 over the rows before `n`; `skip` holds the locked rows. */
  function OldestClaimable(ops: seq<Operation>, now: nat, skip: set<Id>, n: nat): (r: Option<Id>)
    requires n <= |ops|
    ensures r.Some? ==> r.value < n && r.value !in skip && Claimable(ops[r.value], now)
    ensures r.Some? ==>
              forall i :: 0 <= i < n && i !in skip && Claimable(ops[i], now) ==>
                ops[r.value].createdAt <= ops[i].createdAt
    ensures r.None? ==> forall i :: 0 <= i < n && i !in skip ==> !Claimable(ops[i], now)
  {
    if n == 0 then None
    else
      var best := OldestClaimable(ops, now, skip, n - 1);
      if n - 1 in skip || !Claimable(ops[n - 1], now) then best
      else if best.Some? && ops[best.value].createdAt <= ops[n - 1].createdAt then best
      else Some(n - 1)
  }

  function ClaimRow(db: Db, id: Id, owner: string): Db
    requires id < |db.ops|
  {
    var d := SetStatus(db, id, Running);
    d.(ops := d.ops[id := d.ops[id].(claimedBy := Some(owner))])
  }

  function ClaimOperation(db: Db, owner: string, skip: set<Id>): (Db, Reply) {
    match OldestClaimable(db.ops, db.now, skip, |db.ops|)
    case None => (db, Failure(NotFound))
    case Some(id) => (ClaimRow(db, id, owner), Claimed(id, ClaimRow(db, id, owner).ops[id]))
  }

  // ---------- outbox ----------

  predicate Due(r: OutboxRow, now: nat) {
    r.sentAt.None? && r.nextAttemptAt <= now
  }

  /** ORDER BY created_at over the due rows before `n` that are not in `skip`. */
  function OldestDue(rows: seq<OutboxRow>, now: nat, skip: set<Id>, n: nat): (r: Option<Id>)
    requires n <= |rows|
    ensures r.Some? ==> r.value < n && r.value !in skip && Due(rows[r.value], now)
  {
    if n == 0 then None
    else
      var best := OldestDue(rows, now, skip, n - 1);
      if n - 1 in skip || !Due(rows[n - 1], now) then best
      else if best.Some? && rows[best.value].createdAt <= rows[n - 1].createdAt then best
      else Some(n - 1)
  }

  /** The first `limit` due rows in creation order. */
  function SelectDue(rows: seq<OutboxRow>, now: nat, skip: set<Id>, limit: nat): seq<Id>
    decreases limit
  {
    if limit == 0 then []
    else
      match OldestDue(rows, now, skip, |rows|)
      case None => []
      case Some(id) => [id] + SelectDue(rows, now, skip + {id}, limit - 1)
  }

  /** A claim returns due rows, each once, at most `limit` of them. */
  lemma {:induction false} SelectDueMeans(rows: seq<OutboxRow>, now: nat, skip: set<Id>, limit: nat)
    ensures var ids := SelectDue(rows, now, skip, limit);
            && |ids| <= limit
            && (forall k :: 0 <= k < |ids| ==> ids[k] < |rows| && ids[k] !in skip && Due(rows[ids[k]], now))
            && (forall j, k :: 0 <= j < k < |ids| ==> ids[j] != ids[k])
    decreases limit
  {
    var first := OldestDue(rows, now, skip, |rows|);
    if limit > 0 && first.Some? {
      SelectDueMeans(rows, now, skip + {first.value}, limit - 1);
    }
  }

  function IdSet(ids: seq<Id>): set<Id> {
    set k | 0 <= k < |ids| :: ids[k]
  }

  /** UPDATE outbox_messages SET next_attempt_at = until WHERE id IN ids AND sent_at IS NULL. */
  function Postpone(rows: seq<OutboxRow>, ids: set<Id>, until: nat): seq<OutboxRow> {
    seq(|rows|, i requires 0 <= i < |rows| =>
      if i in ids && rows[i].sentAt.None? then rows[i].(nextAttemptAt := until) else rows[i])
  }

  function BatchLimit(limit: int): nat {
    if limit <= 0 || limit > 100 then 50 else limit
  }

  /** Durations are in milliseconds. */
  function LeaseLength(lease: int): nat {
    if lease <= 0 then 30000 else lease
  }

  const RETRY_DELAY: nat := 5000

  function ClaimRows(rows: seq<OutboxRow>, now: nat, limit: int, lease: int, skip: set<Id>): (seq<OutboxRow>, seq<Id>) {
    var ids := SelectDue(rows, now, skip, BatchLimit(limit));
    (Postpone(rows, IdSet(ids), now + LeaseLength(lease)), ids)
  }

  function MarkSent(rows: seq<OutboxRow>, id: Id, now: nat): seq<OutboxRow> {
    if id < |rows| && rows[id].sentAt.None? then rows[id := rows[id].(sentAt := Some(now))] else rows
  }

  function MarkFailed(rows: seq<OutboxRow>, id: Id, now: nat, error: string): seq<OutboxRow> {
    if id < |rows| && rows[id].sentAt.None? then
      rows[id := rows[id].(attempts := rows[id].attempts + 1, nextAttemptAt := now + RETRY_DELAY, lastError := error)]
    else rows
  }

  // ---------- active provider ----------

  function Active(db: Db): Provider {
    if db.setting.None? then Web else db.setting.value
  }

  predicate HasUnfinished(ops: seq<Operation>, provider: Provider) {
    exists i :: 0 <= i < |ops| && ops[i].provider == provider && ops[i].conversation != "" && Unfinished(ops[i].status)
  }

  function SetActive(db: Db, provider: Provider): (Db, Reply) {
    if !ValidProvider(provider) then (db, Failure(InvalidInput))
    else if !ValidProvider(Active(db)) then (db, Failure(InvalidInput))
    else if Active(db) == provider then (db, Done)
    else if HasUnfinished(db.ops, Active(db)) then (db, Failure(Conflict))
    else (db.(setting := Some(provider)), Done)
  }

  function InitializeActive(db: Db, provider: Provider): (Db, Reply) {
    if !ValidProvider(provider) then (db, Failure(InvalidInput))
    else if db.setting.Some? then (db, Done)
    else (db.(setting := Some(provider)), Done)
  }

  // ---------- what a statement leaves alone ----------

  /** At most row `id` differs. */
  ghost predicate OnlyRow<T(!new)>(before: seq<T>, after: seq<T>, id: Id) {
    |after| == |before| && forall i :: 0 <= i < |before| && i != id ==> after[i] == before[i]
  }

  /** One row was appended. */
  predicate Appended<T(==)>(before: seq<T>, after: seq<T>) {
    |after| == |before| + 1 && after[..|before|] == before
  }

  // ---------- transactions ----------

  /** The notification a worker attaches to the row copy it claimed. */
  function NotificationFor(id: Id, copy: Operation, text: string): Option<Notification> {
    if copy.conversation != "" && copy.provider != Web then Some(Notification(id, copy.conversation, text)) else None
  }

  /** Every transaction the running program issues; WriteSetting is the last statement of a switch, taken alone. */
  datatype Txn =
    | CreateEnvironment(env: Environment)
    | Request(requester: Id, kind: Kind, target: Id, image: string, revision: int, key: string,
              origin: Origin, logged: bool)
    | Decision(id: Id, approver: Id, decision: string, comment: string)
    | Claim(owner: string, skip: set<Id>)
    | Finish(id: Id, copy: Operation, succeeded: bool, code: string, message: string, text: string, at: nat)
    | SwitchProvider(provider: Provider)
    | WriteSetting(provider: Provider)
    | InitProvider(provider: Provider)
    | ClaimOutbox(limit: int, lease: int, skip: set<Id>)
    | Sent(id: Id)
    | SendFailed(id: Id, error: string)
    | Tick(elapsed: nat)

  function FinalStatus(succeeded: bool): Status {
    if succeeded then Succeeded else Failed
  }

  function Execute(db: Db, t: Txn): (Db, Reply) {
    match t
    case CreateEnvironment(e) => AddEnvironment(db, e)
    case Request(requester, kind, target, image, revision, key, origin, logged) =>
      RequestOperation(db, requester, kind, target, image, revision, key, origin, logged)
    case Decision(id, approver, decision, comment) => Decide(db, id, approver, decision, comment)
    case Claim(owner, skip) => ClaimOperation(db, owner, skip)
    case Finish(id, copy, succeeded, code, message, text, at) =>
      TransitionWithNotification(db, id, Running, FinalStatus(succeeded), code, message,
                                 NotificationFor(id, copy, text), copy.provider, at)
    case SwitchProvider(p) => SetActive(db, p)
    case WriteSetting(p) => (db.(setting := Some(p)), Done)
    case InitProvider(p) => InitializeActive(db, p)
    case ClaimOutbox(limit, lease, skip) =>
      var (rows, ids) := ClaimRows(db.outbox, db.now, limit, lease, skip);
      (db.(outbox := rows), Batch(ids))
    case Sent(id) => (db.(outbox := MarkSent(db.outbox, id, db.now)), Done)
    case SendFailed(id, error) => (db.(outbox := MarkFailed(db.outbox, id, db.now, error)), Done)
    case Tick(elapsed) => (db.(now := db.now + elapsed), Done)
  }

  function After(db: Db, t: Txn): Db {
    Execute(db, t).0
  }

  /** The database after a run of transactions. */
  function Run(db: Db, ts: seq<Txn>): Db {
    if ts == [] then db else After(Run(db, ts[..|ts| - 1]), ts[|ts| - 1])
  }
}
