/**
 * The outbox lease against the clock.  Workers claim a batch under one lease and handle its rows one
 * after another; `budget` bounds the time from starting a row to having marked it.
 * The lease is exclusive in every run exactly when a whole batch fits into it.
 */
module Lease {
  import opened Domain
  import opened Database

  /** Milliseconds.  `limit` and `lease` are the arguments given to ClaimOutbox. */
  datatype Timing = Timing(limit: int, lease: int, budget: nat)

  /** `delivered` holds between a successful Send of the first row and its mark. */
  datatype Batch = Free | Busy(queue: seq<Id>, deadline: nat, delivered: bool)

  /** `sends` lists the rows whose Send succeeded, in order. */
  datatype Outbox = Outbox(rows: seq<OutboxRow>, now: nat, workers: map<nat, Batch>, sends: seq<Id>)

  datatype Move =
    | Enqueue(note: Notification, provider: Provider)
    | Take(w: nat, skip: set<Id>)
    | Deliver(w: nat)
    | Mark(w: nat)
    | Fail(w: nat, error: string)
    | Elapse(ms: nat)

  function BatchOf(s: Outbox, w: nat): Batch {
    if w in s.workers then s.workers[w] else Free
  }

  /** The next row's time starts when the previous row is marked. */
  function Next(queue: seq<Id>, now: nat, budget: nat): Batch
    requires queue != []
  {
    if |queue| == 1 then Free else Busy(queue[1..], now + budget, false)
  }

  /** No worker overruns its budget, crashes or loses a mark. */
  predicate CanElapse(s: Outbox, ms: nat) {
    forall w :: w in s.workers && s.workers[w].Busy? ==> s.now + ms <= s.workers[w].deadline
  }

  function TakeBatch(t: Timing, s: Outbox, w: nat, claimed: (seq<OutboxRow>, seq<Id>)): Outbox {
    if claimed.1 == [] then s
    else s.(rows := claimed.0, workers := s.workers[w := Busy(claimed.1, s.now + t.budget, false)])
  }

  function Step(t: Timing, s: Outbox, m: Move): Outbox {
    match m
    case Enqueue(note, provider) =>
      s.(rows := s.rows + [OutboxRow(provider, note.destination, note, 0, ZERO_TIME, None, "", s.now)])
    case Take(w, skip) =>
      if BatchOf(s, w).Busy? then s else TakeBatch(t, s, w, ClaimRows(s.rows, s.now, t.limit, t.lease, skip))
    case Deliver(w) =>
      var b := BatchOf(s, w);
      if b.Free? || b.delivered || b.queue == [] then s
      else s.(workers := s.workers[w := b.(delivered := true)], sends := s.sends + [b.queue[0]])
    case Mark(w) =>
      var b := BatchOf(s, w);
      if b.Free? || !b.delivered || b.queue == [] then s
      else s.(rows := MarkSent(s.rows, b.queue[0], s.now), workers := s.workers[w := Next(b.queue, s.now, t.budget)])
    case Fail(w, error) =>
      var b := BatchOf(s, w);
      if b.Free? || b.delivered || b.queue == [] then s
      else s.(rows := MarkFailed(s.rows, b.queue[0], s.now, error),
              workers := s.workers[w := Next(b.queue, s.now, t.budget)])
    case Elapse(ms) => if CanElapse(s, ms) then s.(now := s.now + ms) else s
  }

  const EMPTY := Outbox([], 0, map[], [])

  function Run(t: Timing, s: Outbox, moves: seq<Move>): Outbox {
    if moves == [] then s else Step(t, Run(t, s, moves[..|moves| - 1]), moves[|moves| - 1])
  }

  // ---------- the claim ----------

  /** The first due row in creation order: none is older, and none is due when there is none. */
  lemma {:induction false} OldestDueMeans(rows: seq<OutboxRow>, now: nat, skip: set<Id>, n: nat)
    requires n <= |rows|
    ensures var r := OldestDue(rows, now, skip, n);
            forall i :: 0 <= i < n && i !in skip && Due(rows[i], now) ==>
              r.Some? && rows[r.value].createdAt <= rows[i].createdAt
  {
    if n > 0 {
      OldestDueMeans(rows, now, skip, n - 1);
    }
  }

  // ---------- exclusivity ----------

  /** No row of the batch was created later than row `id`. */
  predicate NoneLater(rows: seq<OutboxRow>, ids: seq<Id>, id: Id) {
    forall k :: 0 <= k < |ids| ==> ids[k] < |rows| && id < |rows| && rows[ids[k]].createdAt <= rows[id].createdAt
  }

  ghost predicate InOrder(rows: seq<OutboxRow>, ids: seq<Id>) {
    forall k :: 0 <= k < |ids| ==> NoneLater(rows, ids[..k], ids[k])
  }

  ghost predicate LeavesOutLater(rows: seq<OutboxRow>, now: nat, skip: set<Id>, limit: nat, ids: seq<Id>) {
    forall id: Id :: id < |rows| && id !in skip && Due(rows[id], now) && id !in ids ==>
      |ids| == limit && NoneLater(rows, ids, id)
  }

  ghost predicate OldestFirst(rows: seq<OutboxRow>, now: nat, skip: set<Id>, limit: nat, ids: seq<Id>) {
    InOrder(rows, ids) && LeavesOutLater(rows, now, skip, limit, ids)
  }

  /** Row `first` is due, and no due row that is not skipped is older. */
  ghost predicate IsOldest(rows: seq<OutboxRow>, now: nat, skip: set<Id>, first: Id) {
    && first < |rows|
    && forall i :: 0 <= i < |rows| && i !in skip && Due(rows[i], now) ==> rows[first].createdAt <= rows[i].createdAt
  }

  ghost predicate AllDue(rows: seq<OutboxRow>, now: nat, skip: set<Id>, ids: seq<Id>) {
    forall k :: 0 <= k < |ids| ==> ids[k] < |rows| && ids[k] !in skip && Due(rows[ids[k]], now)
  }

  lemma FirstIsOldest(rows: seq<OutboxRow>, now: nat, skip: set<Id>)
    ensures var first := OldestDue(rows, now, skip, |rows|);
            if first.Some? then IsOldest(rows, now, skip, first.value)
            else forall limit: nat :: OldestFirst(rows, now, skip, limit, [])
  {
    OldestDueMeans(rows, now, skip, |rows|);
  }

  /** The oldest due row goes in front. */
  lemma OldestInFront(rows: seq<OutboxRow>, now: nat, skip: set<Id>, limit: nat, first: Id, rest: seq<Id>)
    requires IsOldest(rows, now, skip, first) && AllDue(rows, now, skip + {first}, rest)
    requires OldestFirst(rows, now, skip + {first}, limit, rest)
    ensures OldestFirst(rows, now, skip, limit + 1, [first] + rest)
  {
    var ids := [first] + rest;
    forall k | 0 <= k < |ids| ensures NoneLater(rows, ids[..k], ids[k]) {
      if k > 0 {
        assert ids[..k] == [first] + rest[..k - 1];
        assert NoneLater(rows, rest[..k - 1], rest[k - 1]);
      }
    }
    forall id: Id | id < |rows| && id !in skip && Due(rows[id], now) && id !in ids
      ensures |ids| == limit + 1 && NoneLater(rows, ids, id)
    {
      assert id !in rest && id != first;
    }
  }

  /** A batch is in creation order, and a due row is left out only when the batch is full of rows created no later. */
  lemma {:induction false} SelectDueIsOldestFirst(rows: seq<OutboxRow>, now: nat, skip: set<Id>, limit: nat)
    ensures OldestFirst(rows, now, skip, limit, SelectDue(rows, now, skip, limit))
    decreases limit
  {
    var first := OldestDue(rows, now, skip, |rows|);
    FirstIsOldest(rows, now, skip);
    if limit == 0 {
      assert OldestFirst(rows, now, skip, 0, []);
    } else if first.Some? {
      SelectionIsDue(rows, now, skip + {first.value}, limit - 1);
      SelectDueIsOldestFirst(rows, now, skip + {first.value}, limit - 1);
      OldestInFront(rows, now, skip, limit - 1, first.value, SelectDue(rows, now, skip + {first.value}, limit - 1));
    }
  }

  lemma SelectionIsDue(rows: seq<OutboxRow>, now: nat, skip: set<Id>, limit: nat)
    ensures AllDue(rows, now, skip, SelectDue(rows, now, skip, limit))
  {
    SelectDueMeans(rows, now, skip, limit);
  }

  function Count(sends: seq<Id>, id: Id): nat {
    if sends == [] then 0
    else Count(sends[..|sends| - 1], id) + if sends[|sends| - 1] == id then 1 else 0
  }

  lemma CountAppend(sends: seq<Id>, id: Id, r: Id)
    ensures Count(sends + [id], r) == Count(sends, r) + if id == r then 1 else 0
  {
    assert (sends + [id])[..|sends|] == sends;
  }

  lemma {:induction false} CountOfAbsent(sends: seq<Id>, id: Id)
    requires id !in sends
    ensures Count(sends, id) == 0
  {
    if sends != [] {
      CountOfAbsent(sends[..|sends| - 1], id);
    }
  }

  predicate Holds(b: Batch, id: Id) {
    b.Busy? && id in b.queue
  }

  predicate HoldsUnsent(rows: seq<OutboxRow>, b: Batch) {
    b.Busy? ==> forall k :: 0 <= k < |b.queue| ==> b.queue[k] < |rows| && rows[b.queue[k]].sentAt.None?
  }

  /** No two workers hold one row, every held row is unsent, and what is marked sent was sent exactly once. */
  ghost predicate Exclusive(s: Outbox) {
    && (forall v, w, id :: v in s.workers && w in s.workers && v != w && Holds(s.workers[v], id) ==>
          !Holds(s.workers[w], id))
    && (forall w :: w in s.workers ==> HoldsUnsent(s.rows, s.workers[w]))
    && (forall id :: 0 <= id < |s.rows| && s.rows[id].sentAt.Some? ==> Count(s.sends, id) == 1)
    && (forall id :: 0 <= id < |s.rows| ==> Count(s.sends, id) <= 1)
  }

  /** The rest of the batch fits before any of its rows falls due again. */
  ghost predicate BatchSound(t: Timing, s: Outbox, b: Batch) {
    b.Busy? ==>
      && b.queue != [] && s.now <= b.deadline
      && (forall k :: 0 <= k < |b.queue| ==>
            && b.queue[k] < |s.rows| && s.rows[b.queue[k]].sentAt.None?
            && b.deadline + (|b.queue| - 1) * t.budget < s.rows[b.queue[k]].nextAttemptAt)
      && (forall j, k :: 0 <= j < k < |b.queue| ==> b.queue[j] != b.queue[k])
  }

  ghost predicate Disjoint(workers: map<nat, Batch>) {
    forall v, w, id :: v in workers && w in workers && v != w && Holds(workers[v], id) ==> !Holds(workers[w], id)
  }

  /** Some worker has sent the row and not yet marked it. */
  ghost predicate Unmarked(workers: map<nat, Batch>, id: Id) {
    exists w :: w in workers && Delivered(workers[w], id)
  }

  predicate Delivered(b: Batch, id: Id) {
    b.Busy? && b.delivered && b.queue != [] && b.queue[0] == id
  }

  ghost predicate SendsSound(s: Outbox) {
    && (forall k :: 0 <= k < |s.sends| ==> s.sends[k] < |s.rows|)
    && (forall id :: 0 <= id < |s.rows| ==>
          Count(s.sends, id) == if s.rows[id].sentAt.Some? || Unmarked(s.workers, id) then 1 else 0)
  }

  ghost predicate Inv(t: Timing, s: Outbox) {
    && (forall w :: w in s.workers ==> BatchSound(t, s, s.workers[w]))
    && Disjoint(s.workers)
    && SendsSound(s)
  }

  predicate Fits(t: Timing) {
    BatchLimit(t.limit) * t.budget < LeaseLength(t.lease)
  }

  lemma HeldRowsAreNotDue(t: Timing, s: Outbox, w: nat, id: Id)
    requires Inv(t, s) && w in s.workers && Holds(s.workers[w], id)
    ensures id < |s.rows| && !Due(s.rows[id], s.now)
  {
    var b := s.workers[w];
    var k :| 0 <= k < |b.queue| && b.queue[k] == id;
    assert (|b.queue| - 1) * t.budget >= 0;
  }

  lemma BatchFits(t: Timing, n: nat)
    requires Fits(t) && 1 <= n <= BatchLimit(t.limit)
    ensures t.budget + (n - 1) * t.budget < LeaseLength(t.lease)
  {
    assert t.budget + (n - 1) * t.budget == n * t.budget;
    assert n * t.budget <= BatchLimit(t.limit) * t.budget;
  }

  lemma TakeIsTakeBatch(t: Timing, s: Outbox, w: nat, skip: set<Id>)
    requires BatchOf(s, w).Free?
    ensures Step(t, s, Take(w, skip)) == TakeBatch(t, s, w, ClaimRows(s.rows, s.now, t.limit, t.lease, skip))
  {
  }

  /** The claimed ids are distinct and due, within the limit, and exactly their rows are postponed. */
  ghost predicate IsClaim(t: Timing, s: Outbox, rows: seq<OutboxRow>, ids: seq<Id>) {
    && |rows| == |s.rows| && |ids| <= BatchLimit(t.limit)
    && (forall i :: 0 <= i < |rows| ==>
          rows[i] == if i in ids then s.rows[i].(nextAttemptAt := s.now + LeaseLength(t.lease)) else s.rows[i])
    && (forall k :: 0 <= k < |ids| ==> ids[k] < |rows| && Due(s.rows[ids[k]], s.now))
    && (forall j, k :: 0 <= j < k < |ids| ==> ids[j] != ids[k])
  }

  lemma ClaimMeans(t: Timing, s: Outbox, skip: set<Id>)
    ensures var (rows, ids) := ClaimRows(s.rows, s.now, t.limit, t.lease, skip);
            IsClaim(t, s, rows, ids) && ids == SelectDue(s.rows, s.now, skip, BatchLimit(t.limit))
  {
    var ids := SelectDue(s.rows, s.now, skip, BatchLimit(t.limit));
    SelectDueMeans(s.rows, s.now, skip, BatchLimit(t.limit));
    forall i | 0 <= i < |s.rows| ensures i in IdSet(ids) <==> i in ids {

    }
    forall i | i in ids ensures i < |s.rows| && s.rows[i].sentAt.None? {
    }
  }

  lemma NewBatchIsSound(t: Timing, s: Outbox, rows: seq<OutboxRow>, ids: seq<Id>)
    requires Fits(t) && 1 <= |ids| <= BatchLimit(t.limit) && |rows| == |s.rows|
    requires forall k :: 0 <= k < |ids| ==> ids[k] < |rows| && rows[ids[k]].sentAt.None?
                                            && rows[ids[k]].nextAttemptAt == s.now + LeaseLength(t.lease)
    requires forall j, k :: 0 <= j < k < |ids| ==> ids[j] != ids[k]
    ensures BatchSound(t, s.(rows := rows), Busy(ids, s.now + t.budget, false))
  {
    BatchFits(t, |ids|);
  }

  lemma OldBatchStaysSound(t: Timing, s: Outbox, rows: seq<OutboxRow>, ids: seq<Id>, v: nat)
    requires Inv(t, s) && v in s.workers && |rows| == |s.rows|
    requires forall id :: 0 <= id < |rows| && id !in ids ==> rows[id] == s.rows[id]
    requires forall k :: 0 <= k < |ids| ==> ids[k] < |s.rows| && Due(s.rows[ids[k]], s.now)
    ensures BatchSound(t, s.(rows := rows), s.workers[v])
    ensures forall id :: id in ids ==> !Holds(s.workers[v], id)
  {
    var b := s.workers[v];
    assert BatchSound(t, s, b);
    forall id | id in ids ensures !Holds(b, id) {
      if Holds(b, id) { HeldRowsAreNotDue(t, s, v, id); }
    }
    assert b.Busy? ==> forall k :: 0 <= k < |b.queue| ==> Holds(b, b.queue[k]);
  }

  /** The new batch fits its lease, and the rows other workers hold are not due, so not in it. */
  lemma TakeKeepsBatches(t: Timing, s: Outbox, w: nat, rows: seq<OutboxRow>, ids: seq<Id>)
    requires Inv(t, s) && Fits(t) && BatchOf(s, w).Free? && IsClaim(t, s, rows, ids) && ids != []
    ensures var e := TakeBatch(t, s, w, (rows, ids));
            Disjoint(e.workers) && forall v :: v in e.workers ==> BatchSound(t, e, e.workers[v])
  {
    ClaimIsNewBatch(t, s, rows, ids);
    forall v | v in s.workers && v != w
      ensures BatchSound(t, s.(rows := rows), s.workers[v]) && forall id :: id in ids ==> !Holds(s.workers[v], id)
    {
      ClaimKeepsOldBatch(t, s, rows, ids, v);
    }
    NewWorkerKeepsBatches(t, s.(rows := rows), w, Busy(ids, s.now + t.budget, false));
  }

  lemma ClaimIsNewBatch(t: Timing, s: Outbox, rows: seq<OutboxRow>, ids: seq<Id>)
    requires Fits(t) && IsClaim(t, s, rows, ids) && ids != []
    ensures BatchSound(t, s.(rows := rows), Busy(ids, s.now + t.budget, false))
  {
    NewBatchIsSound(t, s, rows, ids);
  }

  lemma ClaimKeepsOldBatch(t: Timing, s: Outbox, rows: seq<OutboxRow>, ids: seq<Id>, v: nat)
    requires Inv(t, s) && v in s.workers && IsClaim(t, s, rows, ids)
    ensures BatchSound(t, s.(rows := rows), s.workers[v]) && forall id :: id in ids ==> !Holds(s.workers[v], id)
  {
    OldBatchStaysSound(t, s, rows, ids, v);
  }

  lemma NewWorkerKeepsBatches(t: Timing, s: Outbox, w: nat, b: Batch)
    requires Disjoint(s.workers) && BatchSound(t, s, b)
    requires forall v :: v in s.workers && v != w ==> BatchSound(t, s, s.workers[v])
    requires forall v, id :: v in s.workers && v != w && Holds(b, id) ==> !Holds(s.workers[v], id)
    ensures var e := s.(workers := s.workers[w := b]);
            Disjoint(e.workers) && forall v :: v in e.workers ==> BatchSound(t, e, e.workers[v])
  {
    NewWorkerIsDisjoint(s.workers, w, b);
    var e := s.(workers := s.workers[w := b]);
    forall v | v in e.workers ensures BatchSound(t, e, e.workers[v]) {
      assert v != w ==> BatchSound(t, s, s.workers[v]);
    }
  }

  lemma NewWorkerIsDisjoint(workers: map<nat, Batch>, w: nat, b: Batch)
    requires Disjoint(workers)
    requires forall v, id :: v in workers && v != w && Holds(b, id) ==> !Holds(workers[v], id)
    ensures Disjoint(workers[w := b])
  {
  }

  lemma UnmarkedFrame(before: map<nat, Batch>, w: nat, b: Batch, id: Id)
    requires w in before ==> before[w].Free? || !before[w].delivered
    requires b.Free? || !b.delivered
    ensures Unmarked(before[w := b], id) <==> Unmarked(before, id)
  {
    if Unmarked(before, id) {
      var v :| v in before && Delivered(before[v], id);
      assert v in before[w := b] && Delivered(before[w := b][v], id);
    }
  }

  lemma TakeKeepsSends(t: Timing, s: Outbox, w: nat, rows: seq<OutboxRow>, ids: seq<Id>)
    requires SendsSound(s) && BatchOf(s, w).Free? && IsClaim(t, s, rows, ids) && ids != []
    ensures SendsSound(TakeBatch(t, s, w, (rows, ids)))
  {
    var b := Busy(ids, s.now + t.budget, false);
    forall id | 0 <= id < |s.rows| ensures Unmarked(s.workers[w := b], id) <==> Unmarked(s.workers, id) {
      UnmarkedFrame(s.workers, w, b, id);
    }
  }

  lemma TakeKeepsInv(t: Timing, s: Outbox, w: nat, skip: set<Id>)
    requires Inv(t, s) && Fits(t) && BatchOf(s, w).Free?
    ensures Inv(t, Step(t, s, Take(w, skip)))
  {
    TakeIsTakeBatch(t, s, w, skip);
    ClaimMeans(t, s, skip);
    var (rows, ids) := ClaimRows(s.rows, s.now, t.limit, t.lease, skip);
    if ids != [] {
      TakeKeepsBatches(t, s, w, rows, ids);
      TakeKeepsSends(t, s, w, rows, ids);
    }
  }

  /** A row becomes unmarked by being delivered, and only once: nobody else holds it. */
  lemma UnmarkedAfterDeliver(t: Timing, s: Outbox, w: nat, id: Id)
    requires Inv(t, s) && BatchOf(s, w).Busy? && !BatchOf(s, w).delivered
    ensures var b := BatchOf(s, w);
            && b.queue != []
            && (Unmarked(s.workers[w := b.(delivered := true)], id) <==> Unmarked(s.workers, id) || id == b.queue[0])
            && !Unmarked(s.workers, b.queue[0])
  {
    var b := BatchOf(s, w);
    assert BatchSound(t, s, b) && Holds(b, b.queue[0]);
    var after := s.workers[w := b.(delivered := true)];
    assert Delivered(after[w], b.queue[0]);
    if Unmarked(s.workers, id) {
      var v :| v in s.workers && Delivered(s.workers[v], id);
      assert v in after && Delivered(after[v], id);
    }
    if Unmarked(s.workers, b.queue[0]) {
      var v :| v in s.workers && Delivered(s.workers[v], b.queue[0]);
      assert Holds(s.workers[v], b.queue[0]);
    }
  }

  lemma DeliverKeepsSends(t: Timing, s: Outbox, w: nat)
    requires Inv(t, s) && BatchOf(s, w).Busy? && !BatchOf(s, w).delivered && BatchOf(s, w).queue != []
    ensures var b := BatchOf(s, w);
            SendsSound(s.(workers := s.workers[w := b.(delivered := true)], sends := s.sends + [b.queue[0]]))
  {
    var b := BatchOf(s, w);
    assert BatchSound(t, s, b);
    forall id | 0 <= id < |s.rows|
      ensures Count(s.sends + [b.queue[0]], id) ==
              if s.rows[id].sentAt.Some? || Unmarked(s.workers[w := b.(delivered := true)], id) then 1 else 0
    {
      CountAppend(s.sends, b.queue[0], id);
      UnmarkedAfterDeliver(t, s, w, id);
    }
  }

  lemma DeliverKeepsInv(t: Timing, s: Outbox, w: nat)
    requires Inv(t, s)
    ensures Inv(t, Step(t, s, Deliver(w)))
  {
    var b := BatchOf(s, w);
    if b.Busy? && !b.delivered && b.queue != [] {
      DeliverKeepsSends(t, s, w);
      assert BatchSound(t, s, b);
      NewWorkerKeepsBatches(t, s, w, b.(delivered := true)) by {
        assert forall id :: Holds(b.(delivered := true), id) <==> Holds(b, id);
      }
      var e := Step(t, s, Deliver(w));
      forall v | v in e.workers ensures BatchSound(t, e, e.workers[v]) {
        assert BatchSound(t, s.(workers := e.workers), e.workers[v]);
      }
    }
  }

  /** The next row's batch is inside the lease of this one. */
  lemma NextIsSound(t: Timing, s: Outbox, b: Batch, rows: seq<OutboxRow>)
    requires b.Busy? && BatchSound(t, s, b) && |rows| == |s.rows|
    requires forall id :: 0 <= id < |rows| && id != b.queue[0] ==> rows[id] == s.rows[id]
    ensures BatchSound(t, s.(rows := rows), Next(b.queue, s.now, t.budget))
    ensures forall id :: Holds(Next(b.queue, s.now, t.budget), id) ==> id != b.queue[0] && Holds(b, id)
  {
    if |b.queue| > 1 {
      assert (|b.queue| - 1) * t.budget == t.budget + (|b.queue| - 2) * t.budget;
      assert forall k :: 0 <= k < |b.queue| - 1 ==> b.queue[1..][k] == b.queue[k + 1];
    }
  }

  lemma OthersStaySound(t: Timing, s: Outbox, b: Batch, rows: seq<OutboxRow>, id: Id)
    requires BatchSound(t, s, b) && !Holds(b, id) && |rows| == |s.rows|
    requires forall j :: 0 <= j < |rows| && j != id ==> rows[j] == s.rows[j]
    ensures BatchSound(t, s.(rows := rows), b)
  {
    assert b.Busy? ==> forall k :: 0 <= k < |b.queue| ==> Holds(b, b.queue[k]);
  }

  /** Leaving the first row for the next one keeps the batch inside its lease. */
  lemma AdvanceKeepsBatches(t: Timing, s: Outbox, w: nat, rows: seq<OutboxRow>)
    requires Inv(t, s) && BatchOf(s, w).Busy? && |rows| == |s.rows|
    requires forall id :: 0 <= id < |rows| && id != BatchOf(s, w).queue[0] ==> rows[id] == s.rows[id]
    ensures var e := s.(rows := rows, workers := s.workers[w := Next(BatchOf(s, w).queue, s.now, t.budget)]);
            Disjoint(e.workers) && forall v :: v in e.workers ==> BatchSound(t, e, e.workers[v])
  {
    var b := BatchOf(s, w);
    assert BatchSound(t, s, b) && Holds(b, b.queue[0]);
    NextIsSound(t, s, b, rows);
    var e := s.(rows := rows, workers := s.workers[w := Next(b.queue, s.now, t.budget)]);
    forall v | v in e.workers && v != w ensures BatchSound(t, e, e.workers[v]) {
      OthersStaySound(t, s, s.workers[v], rows, b.queue[0]);
    }
  }

  lemma UnmarkedAfterAdvance(t: Timing, s: Outbox, w: nat, id: Id)
    requires Inv(t, s) && BatchOf(s, w).Busy?
    ensures var b := BatchOf(s, w);
            Unmarked(s.workers[w := Next(b.queue, s.now, t.budget)], id)
            <==> Unmarked(s.workers, id) && !(b.delivered && b.queue[0] == id)
  {
    var b := BatchOf(s, w);
    assert BatchSound(t, s, b) && Holds(b, b.queue[0]);
    var after := s.workers[w := Next(b.queue, s.now, t.budget)];
    if Unmarked(s.workers, id) && !(b.delivered && b.queue[0] == id) {
      var v :| v in s.workers && Delivered(s.workers[v], id);
      assert v in after && Delivered(after[v], id);
    }
    if Unmarked(after, id) {
      var v :| v in after && Delivered(after[v], id);
      assert v != w && Delivered(s.workers[v], id) && Holds(s.workers[v], id);
    }
  }

  lemma MarkKeepsInv(t: Timing, s: Outbox, w: nat)
    requires Inv(t, s)
    ensures Inv(t, Step(t, s, Mark(w)))
  {
    var b := BatchOf(s, w);
    if b.Busy? && b.delivered && b.queue != [] {
      var e := Step(t, s, Mark(w));
      assert BatchSound(t, s, b);
      assert Delivered(b, b.queue[0]);
      AdvanceKeepsBatches(t, s, w, e.rows);
      forall id | 0 <= id < |e.rows|
        ensures Count(e.sends, id) == if e.rows[id].sentAt.Some? || Unmarked(e.workers, id) then 1 else 0
      {
        UnmarkedAfterAdvance(t, s, w, id);
      }
    }
  }

  lemma FailKeepsInv(t: Timing, s: Outbox, w: nat, error: string)
    requires Inv(t, s)
    ensures Inv(t, Step(t, s, Fail(w, error)))
  {
    var b := BatchOf(s, w);
    if b.Busy? && !b.delivered && b.queue != [] {
      var e := Step(t, s, Fail(w, error));
      assert BatchSound(t, s, b);
      AdvanceKeepsBatches(t, s, w, e.rows);
      forall id | 0 <= id < |e.rows|
        ensures Count(e.sends, id) == if e.rows[id].sentAt.Some? || Unmarked(e.workers, id) then 1 else 0
      {
        UnmarkedAfterAdvance(t, s, w, id);
      }
    }
  }

  lemma EnqueueKeepsInv(t: Timing, s: Outbox, note: Notification, provider: Provider)
    requires Inv(t, s)
    ensures Inv(t, Step(t, s, Enqueue(note, provider)))
  {
    var e := Step(t, s, Enqueue(note, provider));
    CountOfAbsent(s.sends, |s.rows|);
    forall v | v in e.workers ensures BatchSound(t, e, e.workers[v]) {
      assert BatchSound(t, s, s.workers[v]);
    }
    forall v | v in s.workers ensures !Delivered(s.workers[v], |s.rows|) {
      assert BatchSound(t, s, s.workers[v]);
    }
  }

  lemma StepKeepsInv(t: Timing, s: Outbox, m: Move)
    requires Inv(t, s) && Fits(t)
    ensures Inv(t, Step(t, s, m))
  {
    match m
    case Enqueue(note, provider) => EnqueueKeepsInv(t, s, note, provider);
    case Take(w, skip) => if BatchOf(s, w).Free? { TakeKeepsInv(t, s, w, skip); }
    case Deliver(w) => DeliverKeepsInv(t, s, w);
    case Mark(w) => MarkKeepsInv(t, s, w);
    case Fail(w, error) => FailKeepsInv(t, s, w, error);
    case Elapse(ms) =>
      var e := Step(t, s, m);
      forall v | v in e.workers ensures BatchSound(t, e, e.workers[v]) {
        assert BatchSound(t, s, s.workers[v]);
      }
  }

  lemma {:induction false} RunsKeepInv(t: Timing, moves: seq<Move>)
    requires Fits(t)
    ensures Inv(t, Run(t, EMPTY, moves))
  {
    if moves != [] {
      RunsKeepInv(t, moves[..|moves| - 1]);
      StepKeepsInv(t, Run(t, EMPTY, moves[..|moves| - 1]), moves[|moves| - 1]);
    }
  }

  /** When a whole batch fits into the lease, every run is exclusive. */
  lemma LeaseIsExclusive(t: Timing, moves: seq<Move>)
    requires Fits(t)
    ensures Exclusive(Run(t, EMPTY, moves))
  {
    RunsKeepInv(t, moves);
    var s := Run(t, EMPTY, moves);
    forall w | w in s.workers ensures HoldsUnsent(s.rows, s.workers[w]) {
      assert BatchSound(t, s, s.workers[w]);
    }
  }

  // ---------- and otherwise some run is not ----------

  function Range(from: nat, n: nat): seq<Id> {
    seq(n, i requires 0 <= i < n => from + i)
  }

  function Below(n: nat): (r: set<Id>)
    ensures forall j: nat :: j in r <==> j < n
  {
    if n == 0 then {} else Below(n - 1) + {n - 1}
  }

  ghost predicate AllNew(rows: seq<OutboxRow>) {
    forall i :: 0 <= i < |rows| ==> Due(rows[i], 0) && rows[i].createdAt == 0
  }

  lemma {:induction false} OldestOfNew(rows: seq<OutboxRow>, k: nat, n: nat)
    requires AllNew(rows) && n <= |rows|
    ensures OldestDue(rows, 0, Below(k), n) == if k < n then Some(k) else None
  {
    if n > 0 {
      OldestOfNew(rows, k, n - 1);
    }
  }

  lemma RangeCons(k: nat, n: nat)
    requires n > 0
    ensures Range(k, n) == [k] + Range(k + 1, n - 1)
    ensures Range(k, n)[0] == k && Range(k, n)[1..] == Range(k + 1, n - 1)
  {
  }

  /** Fresh rows are claimed in order. */
  lemma {:induction false} SelectNew(rows: seq<OutboxRow>, k: nat, limit: nat)
    requires AllNew(rows) && k + limit <= |rows|
    ensures SelectDue(rows, 0, Below(k), limit) == Range(k, limit)
    decreases limit
  {
    if limit > 0 {
      SelectNew(rows, k + 1, limit - 1);
      RangeCons(k, limit);
      assert SelectDue(rows, 0, Below(k), limit) == [k] + SelectDue(rows, 0, Below(k + 1), limit - 1) by {
        OldestOfNew(rows, k, |rows|);
        assert Below(k) + {k} == Below(k + 1);
      }
    }
  }

  const NOTE := Notification(0, "", "")

  function Enqueues(n: nat): seq<Move> {
    if n == 0 then [] else Enqueues(n - 1) + [Enqueue(NOTE, WeCom)]
  }

  lemma MovesAppend(t: Timing, s: Outbox, moves: seq<Move>, m: Move)
    ensures Run(t, s, moves + [m]) == Step(t, Run(t, s, moves), m)
  {
    assert (moves + [m])[..|moves|] == moves;
  }

  lemma {:induction false} AfterEnqueues(t: Timing, n: nat)
    ensures Stocked(Run(t, EMPTY, Enqueues(n)), n)
  {
    if n > 0 {
      AfterEnqueues(t, n - 1);
      MovesAppend(t, EMPTY, Enqueues(n - 1), Enqueue(NOTE, WeCom));
      OneMoreRow(t, Run(t, EMPTY, Enqueues(n - 1)), n - 1);
    }
  }

  /** `n` new rows, and nobody at work. */
  ghost predicate Stocked(s: Outbox, n: nat) {
    |s.rows| == n && AllNew(s.rows) && s.now == 0 && s.workers == map[] && s.sends == []
  }

  lemma OneMoreRow(t: Timing, s: Outbox, n: nat)
    requires Stocked(s, n)
    ensures Stocked(Step(t, s, Enqueue(NOTE, WeCom)), n + 1)
  {
  }

  /** Worker 0 takes the batch and uses the whole budget for each of its first `j` rows. */
  function Slow(t: Timing, j: nat): seq<Move> {
    if j == 0 then Enqueues(BatchLimit(t.limit)) + [Take(0, {})]
    else Slow(t, j - 1) + [Elapse(t.budget)] + [Deliver(0)] + [Mark(0)]
  }

  ghost predicate SlowState(t: Timing, s: Outbox, j: nat) {
    var n := BatchLimit(t.limit);
    && |s.rows| == n && j < n && s.now == j * t.budget
    && s.workers == map[0 := Busy(Range(j, n - j), (j + 1) * t.budget, false)]
    && (forall i :: 0 <= i < j ==> s.rows[i].sentAt.Some?)
    && (forall i :: j <= i < n ==> s.rows[i].sentAt.None? && s.rows[i].nextAttemptAt == LeaseLength(t.lease))
  }

  lemma SlowTurn(t: Timing, s: Outbox, j: nat)
    requires SlowState(t, s, j) && j + 1 < BatchLimit(t.limit)
    ensures SlowState(t, Step(t, Step(t, Step(t, s, Elapse(t.budget)), Deliver(0)), Mark(0)), j + 1)
  {
    var n := BatchLimit(t.limit);
    assert (j + 1) * t.budget == j * t.budget + t.budget;
    assert (j + 2) * t.budget == (j + 1) * t.budget + t.budget;
    var s1 := Step(t, s, Elapse(t.budget));
    var s2 := Step(t, s1, Deliver(0));
    assert Range(j, n - j)[0] == j;
    assert Range(j, n - j)[1..] == Range(j + 1, n - j - 1);
  }

  lemma FirstBatch(t: Timing, s: Outbox)
    requires |s.rows| == BatchLimit(t.limit) && AllNew(s.rows) && s.now == 0 && s.workers == map[]
    ensures SlowState(t, Step(t, s, Take(0, {})), 0)
  {
    var n := BatchLimit(t.limit);
    SelectNew(s.rows, 0, n);
    assert Below(0) == {};
    TakeIsTakeBatch(t, s, 0, {});
    ClaimMeans(t, s, {});
    var (rows, ids) := ClaimRows(s.rows, s.now, t.limit, t.lease, {});
    assert ids == Range(0, n);
    forall i | 0 <= i < n ensures rows[i].sentAt.None? && rows[i].nextAttemptAt == LeaseLength(t.lease) {
      assert Range(0, n)[i] == i;
    }
    FirstBatchState(t, s, rows);
  }

  lemma FirstBatchState(t: Timing, s: Outbox, rows: seq<OutboxRow>)
    requires |rows| == BatchLimit(t.limit) && s.now == 0 && s.workers == map[]
    requires forall i :: 0 <= i < |rows| ==> rows[i].sentAt.None? && rows[i].nextAttemptAt == LeaseLength(t.lease)
    ensures SlowState(t, TakeBatch(t, s, 0, (rows, Range(0, |rows|))), 0)
  {
    assert Range(0, |rows|) != [];
  }

  lemma SlowStart(t: Timing)
    ensures SlowState(t, Run(t, EMPTY, Slow(t, 0)), 0)
  {
    var n := BatchLimit(t.limit);
    AfterEnqueues(t, n);
    MovesAppend(t, EMPTY, Enqueues(n), Take(0, {}));
    FirstBatch(t, Run(t, EMPTY, Enqueues(n)));
  }

  lemma ThreeMoves(t: Timing, moves: seq<Move>, a: Move, b: Move, c: Move)
    ensures Run(t, EMPTY, moves + [a] + [b] + [c]) == Step(t, Step(t, Step(t, Run(t, EMPTY, moves), a), b), c)
  {
    MovesAppend(t, EMPTY, moves, a);
    MovesAppend(t, EMPTY, moves + [a], b);
    MovesAppend(t, EMPTY, moves + [a] + [b], c);
  }

  lemma SlowNext(t: Timing, moves: seq<Move>, j: nat)
    requires SlowState(t, Run(t, EMPTY, moves), j) && j + 1 < BatchLimit(t.limit)
    ensures SlowState(t, Run(t, EMPTY, moves + [Elapse(t.budget)] + [Deliver(0)] + [Mark(0)]), j + 1)
  {
    ThreeMoves(t, moves, Elapse(t.budget), Deliver(0), Mark(0));
    SlowTurn(t, Run(t, EMPTY, moves), j);
  }

  lemma {:induction false} SlowRun(t: Timing, j: nat)
    requires j < BatchLimit(t.limit)
    ensures SlowState(t, Run(t, EMPTY, Slow(t, j)), j)
  {
    if j == 0 {
      SlowStart(t);
    } else {
      SlowRun(t, j - 1);
      SlowNext(t, Slow(t, j - 1), j - 1);
    }
  }

  /** How many rows worker 0 has finished when the lease runs out. */
  lemma LastRowBeforeExpiry(t: Timing) returns (j: nat)
    requires !Fits(t)
    ensures j < BatchLimit(t.limit)
    ensures j * t.budget <= LeaseLength(t.lease) <= (j + 1) * t.budget
  {
    j := 0;
    while (j + 1) * t.budget < LeaseLength(t.lease)
      invariant j * t.budget <= LeaseLength(t.lease)
      invariant j < BatchLimit(t.limit)
      decreases BatchLimit(t.limit) - j
    {
      j := j + 1;
    }
  }

  lemma SharedRow(s: Outbox, v: nat, w: nat, id: Id)
    requires v in s.workers && w in s.workers && v != w && Holds(s.workers[v], id) && Holds(s.workers[w], id)
    ensures !Exclusive(s)
  {
  }

  lemma TakingAHeldRow(t: Timing, s: Outbox, claimed: (seq<OutboxRow>, seq<Id>))
    requires claimed.1 != [] && 0 in s.workers && Holds(s.workers[0], claimed.1[0])
    ensures !Exclusive(TakeBatch(t, s, 1, claimed))
  {
    SharedRow(TakeBatch(t, s, 1, claimed), 0, 1, claimed.1[0]);
  }

  /** When the lease has run out on row `j`, a second claim finds only rows worker 0 still holds. */
  lemma SecondClaim(t: Timing, s: Outbox, j: nat, deadline: nat)
    requires j < |s.rows| && s.workers == map[0 := Busy(Range(j, |s.rows| - j), deadline, false)]
    requires forall i :: 0 <= i < j ==> s.rows[i].sentAt.Some?
    requires Due(s.rows[j], s.now)
    ensures !Exclusive(Step(t, s, Take(1, {})))
  {
    SomeRowIsDue(s.rows, s.now, j, BatchLimit(t.limit));
    ClaimMeans(t, s, {});
    TakeIsTakeBatch(t, s, 1, {});
    var claimed := ClaimRows(s.rows, s.now, t.limit, t.lease, {});
    var r := claimed.1[0];
    assert j <= r < |s.rows|;
    assert Range(j, |s.rows| - j)[r - j] == r;
    TakingAHeldRow(t, s, claimed);
  }

  lemma SecondHolder(t: Timing, s: Outbox, j: nat)
    requires SlowState(t, s, j) && j * t.budget <= LeaseLength(t.lease) <= (j + 1) * t.budget
    ensures !Exclusive(Step(t, Step(t, s, Elapse(LeaseLength(t.lease) - j * t.budget)), Take(1, {})))
  {
    var s1 := s.(now := LeaseLength(t.lease));
    assert Step(t, s, Elapse(LeaseLength(t.lease) - j * t.budget)) == s1;
    SecondClaim(t, s1, j, (j + 1) * t.budget);
  }

  lemma SomeRowIsDue(rows: seq<OutboxRow>, now: nat, id: Id, limit: nat)
    requires id < |rows| && Due(rows[id], now) && limit > 0
    ensures SelectDue(rows, now, {}, limit) != []
  {
    OldestDueMeans(rows, now, {}, |rows|);
  }

  /** When it does not fit, a second worker can take a row the first still holds. */
  lemma LeaseCanBeShared(t: Timing) returns (moves: seq<Move>)
    requires !Fits(t)
    ensures !Exclusive(Run(t, EMPTY, moves))
  {
    var j := LastRowBeforeExpiry(t);
    SlowRun(t, j);
    var wait := Elapse(LeaseLength(t.lease) - j * t.budget);
    moves := Slow(t, j) + [wait] + [Take(1, {})];
    MovesAppend(t, EMPTY, Slow(t, j), wait);
    MovesAppend(t, EMPTY, Slow(t, j) + [wait], Take(1, {}));
    SecondHolder(t, Run(t, EMPTY, Slow(t, j)), j);
  }

  /** The exact condition, one that can be checked before the claim is made. */
  lemma ExclusiveIffBatchFits(t: Timing)
    ensures (forall moves :: Exclusive(Run(t, EMPTY, moves))) <==> BatchLimit(t.limit) * t.budget < LeaseLength(t.lease)
  {
    if Fits(t) {
      forall moves ensures Exclusive(Run(t, EMPTY, moves)) {
        LeaseIsExclusive(t, moves);
      }
    } else {
      var moves := LeaseCanBeShared(t);
    }
  }

  /** The worker claims 20 rows for 30 seconds, and its HTTP clients give up after 10. */
  lemma WorkerTiming(budget: nat)
    ensures (forall moves :: Exclusive(Run(Timing(20, 30000, budget), EMPTY, moves))) <==> budget < 1500
    ensures !(forall moves :: Exclusive(Run(Timing(20, 30000, 10000), EMPTY, moves)))
  {
    ExclusiveIffBatchFits(Timing(20, 30000, budget));
    ExclusiveIffBatchFits(Timing(20, 30000, 10000));
  }
}
