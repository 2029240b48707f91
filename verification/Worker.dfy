/** The worker's two turns, statement by statement, proved to be the acts and marks the models use. */
module Workers {
  import opened Domain
  import opened Database
  import opened Persistence
  import Execution
  import Lease

  /** How the attempt to send one claimed row ends. */
  datatype Outcome = NoProvider(error: string) | BadPayload(error: string) | SendError(error: string) | SendOk

  function Settle(rows: seq<OutboxRow>, id: Id, outcome: Outcome, now: nat): seq<OutboxRow> {
    if outcome.SendOk? then MarkSent(rows, id, now) else MarkFailed(rows, id, now, outcome.error)
  }

  /** The clock once the first `k` rows are marked; `elapsed(j)` passes while row `j` is handled. */
  function TimeAfter(start: nat, elapsed: nat -> nat, k: nat): nat {
    if k == 0 then start else TimeAfter(start, elapsed, k - 1) + elapsed(k - 1)
  }

  /** The table once the first `k` claimed rows are marked. */
  function Dispatched(
    rows: seq<OutboxRow>, ids: seq<Id>, outcome: nat -> Outcome, start: nat, elapsed: nat -> nat, k: nat)
    : seq<OutboxRow>
    requires k <= |ids|
  {
    if k == 0 then rows
    else
      var before := Dispatched(rows, ids, outcome, start, elapsed, k - 1);
      Settle(before, ids[k - 1], outcome(k - 1), TimeAfter(start, elapsed, k))
  }

  /** Each claimed row is settled once, by its own outcome, at its own time; no other row changes. */
  lemma {:induction false} DispatchSettlesEachRowOnce(
      rows: seq<OutboxRow>, ids: seq<Id>, outcome: nat -> Outcome, start: nat, elapsed: nat -> nat, k: nat, r: nat)
    requires k <= |ids| && r < |rows|
    requires forall i, j :: 0 <= i < j < |ids| ==> ids[i] != ids[j]
    ensures var d := Dispatched(rows, ids, outcome, start, elapsed, k);
            && |d| == |rows|
            && (r !in ids[..k] ==> d[r] == rows[r])
            && (forall j :: 0 <= j < k && ids[j] == r && rows[r].sentAt.None? ==>
                  d[r] == if outcome(j).SendOk? then rows[r].(sentAt := Some(TimeAfter(start, elapsed, j + 1)))
                          else rows[r].(attempts := rows[r].attempts + 1, lastError := outcome(j).error,
                                        nextAttemptAt := TimeAfter(start, elapsed, j + 1) + 5000))
  {
    if k > 0 {
      DispatchSettlesEachRowOnce(rows, ids, outcome, start, elapsed, k - 1, r);
      assert ids[..k] == ids[..k - 1] + [ids[k - 1]];
      if ids[k - 1] == r {
        assert r !in ids[..k - 1];
      }
    }
  }

  // ---------- a dispatch is a run of the lease model ----------

  /** Only worker `w` is at work, on `queue`, whose first row it has just begun. */
  ghost predicate Alone(t: Lease.Timing, s: Lease.Outbox, w: nat, queue: seq<Id>) {
    && Lease.BatchOf(s, w) == (if queue == [] then Lease.Free else Lease.Busy(queue, s.now + t.budget, false))
    && forall v :: v in s.workers && v != w ==> s.workers[v].Free?
  }

  /** Some time passes, and the row is sent and marked, or marked failed. */
  function RowMoves(w: nat, ms: nat, outcome: Outcome): seq<Lease.Move> {
    [Lease.Elapse(ms)] + if outcome.SendOk? then [Lease.Deliver(w), Lease.Mark(w)] else [Lease.Fail(w, outcome.error)]
  }

  /** After the moves `before`, a claim and the first `k` rows of it. */
  function DispatchMoves(
    before: seq<Lease.Move>, w: nat, locked: set<Id>, outcome: nat -> Outcome, elapsed: nat -> nat, k: nat)
    : seq<Lease.Move>
  {
    if k == 0 then before + [Lease.Take(w, locked)]
    else DispatchMoves(before, w, locked, outcome, elapsed, k - 1) + RowMoves(w, elapsed(k - 1), outcome(k - 1))
  }

  lemma ElapseMeans(t: Lease.Timing, s: Lease.Outbox, w: nat, queue: seq<Id>, ms: nat)
    requires queue != [] && Alone(t, s, w, queue) && ms <= t.budget
    ensures Lease.Step(t, s, Lease.Elapse(ms)) == s.(now := s.now + ms)
  {
  }

  lemma SettleMeans(t: Lease.Timing, s: Lease.Outbox, w: nat, queue: seq<Id>, deadline: nat, outcome: Outcome)
    requires queue != [] && Lease.BatchOf(s, w) == Lease.Busy(queue, deadline, false)
    requires forall v :: v in s.workers && v != w ==> s.workers[v].Free?
    ensures var e := if outcome.SendOk? then Lease.Step(t, Lease.Step(t, s, Lease.Deliver(w)), Lease.Mark(w))
                     else Lease.Step(t, s, Lease.Fail(w, outcome.error));
            && e.rows == Settle(s.rows, queue[0], outcome, s.now) && e.now == s.now && Alone(t, e, w, queue[1..])
  {
  }

  /** The state after the moves of one row. */
  function AfterRow(t: Lease.Timing, s: Lease.Outbox, w: nat, ms: nat, outcome: Outcome): Lease.Outbox {
    var timed := Lease.Step(t, s, Lease.Elapse(ms));
    if outcome.SendOk? then Lease.Step(t, Lease.Step(t, timed, Lease.Deliver(w)), Lease.Mark(w))
    else Lease.Step(t, timed, Lease.Fail(w, outcome.error))
  }

  lemma RowIsRun(t: Lease.Timing, moves: seq<Lease.Move>, w: nat, ms: nat, outcome: Outcome)
    ensures Lease.Run(t, Lease.EMPTY, moves + RowMoves(w, ms, outcome))
            == AfterRow(t, Lease.Run(t, Lease.EMPTY, moves), w, ms, outcome)
  {
    var timed := moves + [Lease.Elapse(ms)];
    Lease.MovesAppend(t, Lease.EMPTY, moves, Lease.Elapse(ms));
    if outcome.SendOk? {
      Lease.MovesAppend(t, Lease.EMPTY, timed, Lease.Deliver(w));
      Lease.MovesAppend(t, Lease.EMPTY, timed + [Lease.Deliver(w)], Lease.Mark(w));
      assert moves + RowMoves(w, ms, outcome) == timed + [Lease.Deliver(w)] + [Lease.Mark(w)];
    } else {
      Lease.MovesAppend(t, Lease.EMPTY, timed, Lease.Fail(w, outcome.error));
      assert moves + RowMoves(w, ms, outcome) == timed + [Lease.Fail(w, outcome.error)];
    }
  }

  lemma RowTurn(t: Lease.Timing, s: Lease.Outbox, w: nat, queue: seq<Id>, ms: nat, outcome: Outcome)
    requires queue != [] && Alone(t, s, w, queue) && ms <= t.budget
    ensures var e := AfterRow(t, s, w, ms, outcome);
            && e.rows == Settle(s.rows, queue[0], outcome, s.now + ms) && e.now == s.now + ms
            && Alone(t, e, w, queue[1..])
  {
    ElapseMeans(t, s, w, queue, ms);
    SettleMeans(t, s.(now := s.now + ms), w, queue, s.now + t.budget, outcome);
  }

  /** What a dispatch claimed, and when; how each row's attempt ends, and how long it takes. */
  datatype Job = Job(
    w: nat, rows: seq<OutboxRow>, ids: seq<Id>, start: nat, outcome: nat -> Outcome, elapsed: nat -> nat)

  /** The first `k` rows are handled. */
  ghost predicate Handled(t: Lease.Timing, e: Lease.Outbox, job: Job, k: nat) {
    && k <= |job.ids| && e.rows == Dispatched(job.rows, job.ids, job.outcome, job.start, job.elapsed, k)
    && e.now == TimeAfter(job.start, job.elapsed, k) && Alone(t, e, job.w, job.ids[k..])
  }

  lemma HandledNext(t: Lease.Timing, e: Lease.Outbox, job: Job, k: nat)
    requires Handled(t, e, job, k) && k < |job.ids| && job.elapsed(k) <= t.budget
    ensures Handled(t, AfterRow(t, e, job.w, job.elapsed(k), job.outcome(k)), job, k + 1)
  {
    RowTurn(t, e, job.w, job.ids[k..], job.elapsed(k), job.outcome(k));
    assert job.ids[k..][0] == job.ids[k] && job.ids[k..][1..] == job.ids[k + 1..];
  }

  /** The first `k` rows of the job are handled by its moves. */
  ghost predicate HandledByMoves(t: Lease.Timing, before: seq<Lease.Move>, locked: set<Id>, job: Job, k: nat) {
    var moves := DispatchMoves(before, job.w, locked, job.outcome, job.elapsed, k);
    Handled(t, Lease.Run(t, Lease.EMPTY, moves), job, k)
  }

  lemma NextRowHandled(t: Lease.Timing, before: seq<Lease.Move>, locked: set<Id>, job: Job, k: nat)
    requires HandledByMoves(t, before, locked, job, k) && k < |job.ids| && job.elapsed(k) <= t.budget
    ensures HandledByMoves(t, before, locked, job, k + 1)
  {
    OneRowMore(t, DispatchMoves(before, job.w, locked, job.outcome, job.elapsed, k), job, k);
  }

  lemma {:induction false} JobIsHandled(t: Lease.Timing, before: seq<Lease.Move>, locked: set<Id>, job: Job, k: nat)
    requires HandledByMoves(t, before, locked, job, 0) && k <= |job.ids|
    requires forall j: nat :: j < k ==> job.elapsed(j) <= t.budget
    ensures HandledByMoves(t, before, locked, job, k)
  {
    if k > 0 {
      var j: nat := k - 1;
      JobIsHandled(t, before, locked, job, j);
      NextRowHandled(t, before, locked, job, j);
      assert j + 1 == k;
    }
  }

  lemma OneRowMore(t: Lease.Timing, moves: seq<Lease.Move>, job: Job, k: nat)
    requires Handled(t, Lease.Run(t, Lease.EMPTY, moves), job, k) && k < |job.ids| && job.elapsed(k) <= t.budget
    ensures var more := moves + RowMoves(job.w, job.elapsed(k), job.outcome(k));
            Handled(t, Lease.Run(t, Lease.EMPTY, more), job, k + 1)
  {
    HandledNext(t, Lease.Run(t, Lease.EMPTY, moves), job, k);
    RowIsRun(t, moves, job.w, job.elapsed(k), job.outcome(k));
  }

  lemma TakeStartsJob(t: Lease.Timing, before: seq<Lease.Move>, locked: set<Id>, job: Job)
    requires var s := Lease.Run(t, Lease.EMPTY, before);
             && Alone(t, s, job.w, []) && job.start == s.now
             && (job.rows, job.ids) == ClaimRows(s.rows, s.now, t.limit, t.lease, locked)
    ensures Handled(t, Lease.Run(t, Lease.EMPTY, before + [Lease.Take(job.w, locked)]), job, 0)
  {
    var s := Lease.Run(t, Lease.EMPTY, before);
    Lease.MovesAppend(t, Lease.EMPTY, before, Lease.Take(job.w, locked));
    Lease.TakeIsTakeBatch(t, s, job.w, locked);
    assert job.ids[0..] == job.ids;
    if job.ids == [] {
      Lease.ClaimMeans(t, s, locked);
      assert job.rows == s.rows;
    }
  }

  /**
   * A dispatch that spends at most the budget on each row is a run of the lease model: its table and clock
   * after `k` rows are those of that run.
   */
  lemma {:induction false} DispatchIsLeaseRun(
      t: Lease.Timing, before: seq<Lease.Move>, locked: set<Id>, job: Job, k: nat)
    requires var s := Lease.Run(t, Lease.EMPTY, before);
             && Alone(t, s, job.w, []) && job.start == s.now
             && (job.rows, job.ids) == ClaimRows(s.rows, s.now, t.limit, t.lease, locked)
    requires k <= |job.ids| && forall j: nat :: j < k ==> job.elapsed(j) <= t.budget
    ensures var e := Lease.Run(t, Lease.EMPTY, DispatchMoves(before, job.w, locked, job.outcome, job.elapsed, k));
            && e.rows == Dispatched(job.rows, job.ids, job.outcome, job.start, job.elapsed, k)
            && e.now == TimeAfter(job.start, job.elapsed, k) && Alone(t, e, job.w, job.ids[k..])
  {
    TakeStartsJob(t, before, locked, job);
    JobIsHandled(t, before, locked, job, k);
  }

  /** So the worker's own dispatch is exclusive when each row takes less than 1500 ms. */
  lemma {:induction false} PromptDispatchIsExclusive(
      budget: nat, before: seq<Lease.Move>, locked: set<Id>, job: Job)
    requires budget < 1500
    requires var s := Lease.Run(Lease.Timing(20, 30000, budget), Lease.EMPTY, before);
             && Alone(Lease.Timing(20, 30000, budget), s, job.w, []) && job.start == s.now
             && (job.rows, job.ids) == ClaimRows(s.rows, s.now, 20, 30000, locked)
    requires forall j: nat :: j < |job.ids| ==> job.elapsed(j) <= budget
    ensures var moves := DispatchMoves(before, job.w, locked, job.outcome, job.elapsed, |job.ids|);
            var e := Lease.Run(Lease.Timing(20, 30000, budget), Lease.EMPTY, moves);
            && Lease.Exclusive(e)
            && e.rows == Dispatched(job.rows, job.ids, job.outcome, job.start, job.elapsed, |job.ids|)
  {
    var t := Lease.Timing(20, 30000, budget);
    DispatchIsLeaseRun(t, before, locked, job, |job.ids|);
    Lease.LeaseIsExclusive(t, DispatchMoves(before, job.w, locked, job.outcome, job.elapsed, |job.ids|));
  }

  // ---------- one turn ----------

  /** What happens around one turn; `refused` is an outbox insert that fails. */
  datatype Luck = Luck(locked: set<Id>, envRead: bool, ok: bool, refused: bool, message: string, idText: string)

  function Announcement(ok: bool, luck: Luck): string {
    if ok then "操作执行成功：" + luck.idText else "操作执行失败：" + luck.message
  }

  /** One turn of the system model: worker 0 takes, performs and reports; a refused insert drops the report. */
  function Turn(db: Db, calls: seq<Execution.Call>, owner: string, luck: Luck): Execution.System {
    var s1 := Execution.Apply(Execution.System(db, map[], calls), Execution.Take(0, owner, luck.locked, true));
    var s2 := Execution.Apply(s1, Execution.Perform(0, luck.envRead, luck.ok));
    var p := Execution.PhaseOf(s2, 0);
    var text := Announcement(p.Performed? && p.ok, luck);
    var dropped := luck.refused && p.Performed? && NotificationFor(p.id, p.copy, text).Some?;
    Execution.Apply(s2, Execution.Report(0, luck.message, text, db.now, !dropped))
  }

  /** The finish of a claimed row, unless its notification is refused. */
  function Reported(d: Db, id: Id, row: Operation, ok: bool, luck: Luck, at: nat): Db {
    var note := NotificationFor(id, row, Announcement(ok, luck));
    if luck.refused && note.Some? then d
    else if ok then TransitionWithNotification(d, id, Running, Succeeded, "", "", note, row.provider, at).0
    else TransitionWithNotification(d, id, Running, Failed, "kubernetes_failed", luck.message, note, row.provider, at).0
  }

  lemma TurnMeans(db: Db, calls: seq<Execution.Call>, owner: string, luck: Luck)
    ensures var s, (d, r) := Turn(db, calls, owner, luck), ClaimOperation(db, owner, luck.locked);
            if !r.Claimed? then s.db == d && s.calls == calls
            else
              var called := luck.envRead && r.row.env < |d.envs|;
              && s.calls == (if called then calls + [CallFor(d, r.id, r.row, luck.ok)] else calls)
              && s.db == Reported(d, r.id, r.row, called && luck.ok, luck, db.now)
  {
    var (d, r) := ClaimOperation(db, owner, luck.locked);
    TakeMeans(db, calls, owner, luck.locked);
    if r.Claimed? {
      PerformMeans(d, calls, r.id, r.row, luck.envRead, luck.ok);
      var ok := luck.envRead && r.row.env < |d.envs| && luck.ok;
      ReportMeans(d, if luck.envRead && r.row.env < |d.envs| then calls + [CallFor(d, r.id, r.row, luck.ok)] else calls,
                  r.id, r.row, ok, luck, db.now);
    } else {
      IdleTurn(d, calls, luck, db.now);
    }
  }

  lemma ReportMeans(d: Db, calls: seq<Execution.Call>, id: Id, row: Operation, ok: bool, luck: Luck, at: nat)
    ensures var text := Announcement(ok, luck);
            var dropped := luck.refused && NotificationFor(id, row, text).Some?;
            var s := Execution.System(d, map[0 := Execution.Performed(id, row, ok)], calls);
            var e := Execution.Apply(s, Execution.Report(0, luck.message, text, at, !dropped));
            e.db == Reported(d, id, row, ok, luck, at) && e.calls == calls
  {
  }

  function CallFor(d: Db, id: Id, row: Operation, ok: bool): Execution.Call
    requires row.env < |d.envs|
  {
    Execution.Call(id, row.kind, d.envs[row.env], row.image, row.revision, ok)
  }

  lemma TakeMeans(db: Db, calls: seq<Execution.Call>, owner: string, locked: set<Id>)
    ensures var (d, r) := ClaimOperation(db, owner, locked);
            Execution.Apply(Execution.System(db, map[], calls), Execution.Take(0, owner, locked, true))
            == Execution.System(d, if r.Claimed? then map[0 := Execution.Holding(r.id, r.row)] else map[], calls)
  {
  }

  lemma PerformMeans(d: Db, calls: seq<Execution.Call>, id: Id, row: Operation, envRead: bool, ok: bool)
    ensures var called := envRead && row.env < |d.envs|;
            var held := map[0 := Execution.Holding(id, row)];
            Execution.Apply(Execution.System(d, held, calls), Execution.Perform(0, envRead, ok))
            == Execution.System(d, map[0 := Execution.Performed(id, row, called && ok)],
                                if called then calls + [CallFor(d, id, row, ok)] else calls)
  {
    var p, q := Execution.Holding(id, row), Execution.Performed(id, row, envRead && row.env < |d.envs| && ok);
    assert map[0 := p][0 := q] == map[0 := q];
  }

  lemma IdleTurn(d: Db, calls: seq<Execution.Call>, luck: Luck, at: nat)
    ensures var s := Execution.System(d, map[], calls);
            && Execution.Apply(s, Execution.Perform(0, luck.envRead, luck.ok)) == s
            && Execution.Apply(s, Execution.Report(0, luck.message, Announcement(false, luck), at, true)) == s
  {
  }

  /**
   * What one turn of worker `owner` makes of `db`, in its own terms.  The oldest claimable unlocked row, if there
   * is one, is called for when its environment is read and known; it ends as succeeded exactly after a good
   * call, and as failed otherwise.  A report whose outbox insert is refused leaves the row running.
   */
  ghost predicate Turned(
      db: Db, d: Db, calls: seq<Execution.Call>, after: seq<Execution.Call>, owner: string, luck: Luck)
  {
    var claimed := OldestClaimable(db.ops, db.now, luck.locked, |db.ops|);
    if claimed.None? then d == db && after == calls
    else
      var row := db.ops[claimed.value];
      var called := luck.envRead && row.env < |db.envs|;
      && after == calls + (if !called then [] else [Execution.Call(
                             claimed.value, row.kind, db.envs[row.env], row.image, row.revision, luck.ok)])
      && OnlyRow(db.ops, d.ops, claimed.value) && d.ops[claimed.value].claimedBy == Some(owner)
      && Finishes(db, d, claimed.value, row.conversation, row.provider, called && luck.ok, luck)
  }

  /** The end of row `id` after a call that was good or not, and its notification to a chat, if it came from one. */
  ghost predicate Finishes(
      db: Db, d: Db, id: Id, conversation: string, provider: Provider, good: bool, luck: Luck)
    requires id < |d.ops|
  {
    var notified := conversation != "" && provider != Web;
    if luck.refused && notified then d.ops[id].status == Running && d.outbox == db.outbox
    else
      && d.ops[id].status == (if good then Succeeded else Failed)
      && d.ops[id].errorCode == (if good then "" else "kubernetes_failed")
      && d.ops[id].errorMessage == (if good then "" else luck.message)
      && if !notified then d.outbox == db.outbox
         else
           && Appended(db.outbox, d.outbox)
           && var note := d.outbox[|db.outbox|].note;
              && note.operation == id && note.destination == conversation
              && note.text == (if good then "操作执行成功：" + luck.idText else "操作执行失败：" + luck.message)
  }

  lemma TurnIsTurned(db: Db, calls: seq<Execution.Call>, owner: string, luck: Luck)
    ensures var s := Turn(db, calls, owner, luck); Turned(db, s.db, calls, s.calls, owner, luck)
  {
    var (d, r) := ClaimOperation(db, owner, luck.locked);
    TurnMeans(db, calls, owner, luck);
    Execution.ClaimEffect(db, owner, luck.locked);
    if r.Claimed? {
      ReportOutcome(db, d, r.id, r.row, luck.envRead && r.row.env < |d.envs| && luck.ok, luck);
    }
  }

  lemma ReportOutcome(db: Db, d: Db, id: Id, row: Operation, ok: bool, luck: Luck)
    requires id < |db.ops| && row.status == Running && d == db.(ops := db.ops[id := row], writes := d.writes)
    ensures var e := Reported(d, id, row, ok, luck, db.now);
            && OnlyRow(db.ops, e.ops, id) && e.ops[id].claimedBy == row.claimedBy
            && Finishes(db, e, id, row.conversation, row.provider, ok, luck)
  {
  }

  class Worker {
    const id: string
    const store: Store
    var calls: seq<Execution.Call>

    constructor (id: string, store: Store)
      ensures this.id == id && this.store == store && calls == []
    {
      this.id := id;
      this.store := store;
      calls := [];
    }

    /** One turn, as `Turned` says; a report that the store refuses is logged and dropped. */
    method RunOne(luck: Luck)
      modifies this, store
      ensures Turned(old(store.DB), store.DB, old(calls), calls, id, luck)
      ensures var s := Turn(old(store.DB), old(calls), id, luck);
              store.DB == s.db && calls == s.calls
    {
      TurnMeans(store.DB, calls, id, luck);
      TurnIsTurned(store.DB, calls, id, luck);
      var claimed := store.ClaimOperation(id, luck.locked);
      if !claimed.Claimed? {
        return;
      }
      var operation := claimed.row;
      var env := store.GetEnvironment(operation.env);
      var failed := true;
      if luck.envRead && env.Ok? {
        calls := calls + [Execution.Call(
          claimed.id, operation.kind, env.value, operation.image, operation.revision, luck.ok)];
        failed := !luck.ok;
      }
      if failed {
        TransitionWithNotification(claimed.id, operation, Failed, "kubernetes_failed", luck.message,
                                   "操作执行失败：" + luck.message, luck.refused);
        return;
      }
      TransitionWithNotification(claimed.id, operation, Succeeded, "", "", "操作执行成功：" + luck.idText, luck.refused);
    }

    method TransitionWithNotification(
        op: Id, operation: Operation, status: Status, code: string, message: string, text: string, refused: bool)
      modifies store
      ensures var note := NotificationFor(op, operation, text);
              store.DB == if refused && note.Some? then old(store.DB)
                          else Database.TransitionWithNotification(old(store.DB), op, Running, status, code, message,
                                                                   note, operation.provider, old(store.DB).now).0
    {
      var note: Option<Notification> := None;
      if operation.conversation != "" && operation.provider != Web {
        note := Some(Notification(op, operation.conversation, text));
      }
      var reply := store.TransitionOperationWithNotification(
        op, Running, status, code, message, note, operation.provider, store.DB.now, refused);
    }

    /** Claims a batch and handles its rows in order. */
    method DispatchNotifications(locked: set<Id>, outcome: nat -> Outcome, elapsed: nat -> nat) returns (ids: seq<Id>)
      modifies store
      ensures var start := old(store.DB);
              var claimed := ClaimRows(start.outbox, start.now, 20, 30000, locked);
              && ids == claimed.1
              && store.DB == start.(outbox := Dispatched(claimed.0, ids, outcome, start.now, elapsed, |ids|),
                                    now := TimeAfter(start.now, elapsed, |ids|))
    {
      var rows: seq<(Id, OutboxRow)>;
      ids, rows := store.ClaimOutbox(20, 30000, locked);
      SendAll(ids, outcome, elapsed);
    }

    method SendAll(ids: seq<Id>, outcome: nat -> Outcome, elapsed: nat -> nat)
      modifies store
      ensures var start := old(store.DB);
              store.DB == start.(outbox := Dispatched(start.outbox, ids, outcome, start.now, elapsed, |ids|),
                                 now := TimeAfter(start.now, elapsed, |ids|))
    {
      ghost var start := store.DB;
      for k := 0 to |ids|
        invariant store.DB == start.(outbox := Dispatched(start.outbox, ids, outcome, start.now, elapsed, k),
                                     now := TimeAfter(start.now, elapsed, k))
      {
        store.DB := store.DB.(now := store.DB.now + elapsed(k));
        SendOne(ids[k], outcome(k));
      }
    }

    /** A row is marked sent after a successful Send, and marked failed on every other path. */
    method SendOne(row: Id, outcome: Outcome)
      modifies store
      ensures store.DB == old(store.DB).(outbox := Settle(old(store.DB).outbox, row, outcome, old(store.DB).now))
    {
      match outcome {
        case SendOk => store.MarkOutboxSent(row);
        case NoProvider(error) => store.MarkOutboxFailed(row, error);
        case BadPayload(error) => store.MarkOutboxFailed(row, error);
        case SendError(error) => store.MarkOutboxFailed(row, error);
      }
    }
  }
}
