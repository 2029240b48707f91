/**
 * The event stream: a connection polls the event log behind a cursor, and a client that loses its
 * connection opens another one from the last event it received.
 */
module EventStream {
  import opened Domain

  /**
   * The log by identifier.  An identifier is allocated first and committed later, in any order or never
   * (None).  A committed row holds its creation time.
   */
  type Log = seq<Option<int>>

  const DAY := 24 * 60 * 60
  const PAGE: nat := 100

  predicate Committed(log: Log, id: int) {
    0 <= id < |log| && log[id].Some?
  }

  predicate Recent(log: Log, now: int, id: int) {
    Committed(log, id) && log[id].value > now - DAY
  }

  function Limit(limit: int): nat {
    if limit <= 0 || limit > 500 then PAGE else limit
  }

  function RecentFrom(log: Log, now: int, id: nat, limit: nat): seq<nat>
    decreases |log| - id
  {
    if limit == 0 || id >= |log| then []
    else if Recent(log, now, id) then [id] + RecentFrom(log, now, id + 1, limit - 1)
    else RecentFrom(log, now, id + 1, limit)
  }

  /** The recent rows behind the cursor, in order of identifier, up to the limit. */
  function RecentEvents(log: Log, now: int, after: int, limit: int): seq<nat> {
    RecentFrom(log, now, if after < 0 then 0 else after + 1, Limit(limit))
  }

  predicate Ascending(ids: seq<nat>) {
    forall i, j :: 0 <= i < j < |ids| ==> ids[i] < ids[j]
  }

  ghost predicate OnlyRecent(log: Log, now: int, after: int, ids: seq<nat>) {
    forall i :: 0 <= i < |ids| ==> ids[i] > after && Recent(log, now, ids[i])
  }

  /** No recent row is left out up to the end of the batch, or at all when the batch is not full. */
  ghost predicate LeavesOutNone(log: Log, now: int, after: int, limit: nat, ids: seq<nat>) {
    forall id: nat :: id > after && Recent(log, now, id) && (|ids| < limit || id <= Cursor(after, ids)) ==> id in ids
  }

  ghost predicate IsBatch(log: Log, now: int, after: int, limit: nat, ids: seq<nat>) {
    Ascending(ids) && |ids| <= limit && OnlyRecent(log, now, after, ids) && LeavesOutNone(log, now, after, limit, ids)
  }

  lemma RecentEventsAreBatch(log: Log, now: int, after: int, limit: int)
    ensures IsBatch(log, now, after, Limit(limit), RecentEvents(log, now, after, limit))
  {
    var first := if after < 0 then 0 else after + 1;
    RecentFromMeans(log, now, first, Limit(limit));
    var ids := RecentEvents(log, now, after, limit);
    forall id: nat | id > after && Recent(log, now, id) && (|ids| < Limit(limit) || id <= Cursor(after, ids))
      ensures id in ids
    {
      assert ids != [] ==> Cursor(after, ids) == Cursor(first - 1, ids);
    }
  }

  /** The recent events behind the cursor: those of the last day, at most 500, or 100 by default, oldest first. */
  lemma RecentEventsMeans(log: Log, now: int, after: int, limit: int)
    ensures var ids := RecentEvents(log, now, after, limit);
            var most := if limit <= 0 || limit > 500 then 100 else limit;
            && |ids| <= most
            && (forall i, j :: 0 <= i < j < |ids| ==> ids[i] < ids[j])
            && (forall id: nat :: id in ids ==>
                  after < id < |log| && log[id].Some? && log[id].value > now - 86400)
            && (forall id: nat :: && after < id < |log| && log[id].Some? && log[id].value > now - 86400
                                  && (|ids| < most || id <= ids[|ids| - 1]) ==>
                  id in ids)
  {
    RecentEventsAreBatch(log, now, after, limit);
  }

  lemma {:induction false} RecentFromMeans(log: Log, now: int, id: nat, limit: nat)
    ensures IsBatch(log, now, id - 1, limit, RecentFrom(log, now, id, limit))
    decreases |log| - id
  {
    if limit > 0 && id < |log| {
      if Recent(log, now, id) {
        RecentFromMeans(log, now, id + 1, limit - 1);
        BatchGrows(log, now, id, limit - 1, RecentFrom(log, now, id + 1, limit - 1));
      } else {
        RecentFromMeans(log, now, id + 1, limit);
        BatchStays(log, now, id, limit, RecentFrom(log, now, id + 1, limit));
      }
    }
  }

  lemma BatchGrows(log: Log, now: int, id: nat, limit: nat, rest: seq<nat>)
    requires IsBatch(log, now, id, limit, rest) && Recent(log, now, id)
    ensures IsBatch(log, now, id - 1, limit + 1, [id] + rest)
  {
    var ids := [id] + rest;
    assert Cursor(id - 1, ids) == Cursor(id, rest);
    forall other: nat | other > id - 1 && Recent(log, now, other) && (|ids| < limit + 1 || other <= Cursor(id - 1, ids))
      ensures other in ids
    {
      assert other == id || other in rest;
    }
  }

  lemma BatchStays(log: Log, now: int, id: nat, limit: nat, ids: seq<nat>)
    requires limit > 0 && IsBatch(log, now, id, limit, ids) && !Recent(log, now, id)
    ensures IsBatch(log, now, id - 1, limit, ids)
  {
    forall other: nat | other > id - 1 && Recent(log, now, other) && (|ids| < limit || other <= Cursor(id - 1, ids))
      ensures other in ids
    {
      assert other > id;
      assert ids != [] ==> Cursor(id - 1, ids) == Cursor(id, ids);
    }
  }

  // ---------- one connection ----------

  /** What a poll finds, and whether the query works and the client is still there after it. */
  datatype Poll = Poll(log: Log, now: int, ok: bool, open: bool)

  /** What a connection sends over its polls. */
  function Sent(after: int, polls: seq<Poll>): seq<nat>
    decreases |polls|
  {
    if polls == [] || !polls[0].ok then []
    else
      var batch := RecentEvents(polls[0].log, polls[0].now, after, PAGE);
      batch + (if polls[0].open then Sent(Cursor(after, batch), polls[1..]) else [])
  }

  function Cursor(start: int, ids: seq<nat>): int {
    if ids == [] then start else ids[|ids| - 1]
  }

  class Connection {
    var after: int
    var sent: seq<nat>

    /** A header that is no number counts as zero. */
    constructor (lastEventId: Option<int>)
      ensures after == (if lastEventId.None? then 0 else lastEventId.value) && sent == []
    {
      after := if lastEventId.None? then 0 else lastEventId.value;
      sent := [];
    }

    /** The loop over one batch. */
    method Deliver(batch: seq<nat>)
      modifies this
      ensures sent == old(sent) + batch && after == Cursor(old(after), batch)
    {
      for i := 0 to |batch|
        invariant sent == old(sent) + batch[..i] && after == Cursor(old(after), batch[..i])
      {
        sent := sent + [batch[i]];
        after := batch[i];
      }
      assert batch[..|batch|] == batch;
    }

    /** The handler, until a query fails, the client leaves, or the polls end. */
    method Events(polls: seq<Poll>)
      modifies this
      ensures sent == old(sent) + Sent(old(after), polls)
      ensures after == Cursor(old(after), Sent(old(after), polls))
    {
      ghost var start := after;
      var i := 0;
      while i < |polls|
        invariant 0 <= i <= |polls|
        invariant old(sent) + Sent(start, polls) == sent + Sent(after, polls[i..])
        invariant Cursor(start, Sent(start, polls)) == Cursor(after, Sent(after, polls[i..]))
      {
        if !polls[i].ok {
          return;
        }
        var batch := RecentEvents(polls[i].log, polls[i].now, after, PAGE);
        ghost var was := after;
        Deliver(batch);
        assert polls[i..][1..] == polls[i + 1..];
        if !polls[i].open {
          assert Sent(was, polls[i..]) == batch;
          return;
        }
        CursorAppend(was, batch, Sent(after, polls[i + 1..]));
        i := i + 1;
      }
    }
  }

  /** No query has failed and the client has not left. */
  predicate Alive(polls: seq<Poll>) {
    forall k :: 0 <= k < |polls| ==> polls[k].ok && polls[k].open
  }

  /** What poll `p` sends after the polls before it. */
  function Further(after: int, polls: seq<Poll>, p: Poll): seq<nat> {
    if Alive(polls) && p.ok then RecentEvents(p.log, p.now, Cursor(after, Sent(after, polls)), PAGE) else []
  }

  lemma {:induction false} SentGrows(after: int, polls: seq<Poll>, p: Poll)
    ensures Sent(after, polls + [p]) == Sent(after, polls) + Further(after, polls, p)
    decreases |polls|
  {
    if polls == [] {
      SentUnfolds(after, p, []);
      assert [] + [p] == [p] + [];
    } else {
      var first, rest := polls[0], polls[1..];
      assert polls == [first] + rest && polls + [p] == [first] + (rest + [p]);
      SentUnfolds(after, first, rest);
      SentUnfolds(after, first, rest + [p]);
      AliveUnfolds(polls);
      if first.ok && first.open {
        var batch := RecentEvents(first.log, first.now, after, PAGE);
        SentGrows(Cursor(after, batch), rest, p);
        CursorAppend(after, batch, Sent(Cursor(after, batch), rest));
      }
    }
  }

  lemma SentUnfolds(after: int, first: Poll, rest: seq<Poll>)
    ensures var batch := RecentEvents(first.log, first.now, after, PAGE);
            Sent(after, [first] + rest) ==
            if !first.ok then [] else if first.open then batch + Sent(Cursor(after, batch), rest) else batch
  {
    assert ([first] + rest)[1..] == rest;
  }

  /** A further poll of a live connection sends what is recent behind the last event sent; a dead one sends nothing. */
  lemma SentAppends(after: int, polls: seq<Poll>, p: Poll)
    ensures var sent := Sent(after, polls);
            Sent(after, polls + [p]) ==
            sent + (if Alive(polls) && p.ok then
                      RecentEvents(p.log, p.now, if sent == [] then after else sent[|sent| - 1], 100)
                    else [])
  {
    SentGrows(after, polls, p);
  }

  lemma AliveUnfolds(polls: seq<Poll>)
    requires polls != []
    ensures Alive(polls) <==> polls[0].ok && polls[0].open && Alive(polls[1..])
  {
    assert forall k :: 0 < k < |polls| ==> polls[k] == polls[1..][k - 1];
  }

  lemma CursorAppend(start: int, a: seq<nat>, b: seq<nat>)
    ensures Cursor(start, a + b) == Cursor(Cursor(start, a), b)
  {
  }

  // ---------- the log and a client, over any run ----------

  /** `after` is the cursor of the current connection; `received` is what reached the client. */
  datatype State = State(log: Log, now: int, start: int, after: int, open: bool, received: seq<nat>)

  /** A poll reaches the client up to its first `got` events; fewer than all of them means the connection broke. */
  datatype Move =
    | Allocate
    | Commit(id: nat, at: int)
    | Elapse(seconds: nat)
    | Deliver(got: nat)
    | Reconnect

  function Batch(s: State): seq<nat> {
    RecentEvents(s.log, s.now, s.after, PAGE)
  }

  predicate Enabled(s: State, m: Move) {
    match m
    case Allocate => true
    case Commit(id, at) => id < |s.log| && s.log[id].None?
    case Elapse(_) => true
    case Deliver(got) => s.open && got <= |Batch(s)|
    case Reconnect => true
  }

  function Next(s: State, m: Move): State
    requires Enabled(s, m)
  {
    match m
    case Allocate => s.(log := s.log + [None])
    case Commit(id, at) => s.(log := s.log[id := Some(at)])
    case Elapse(seconds) => s.(now := s.now + seconds)
    case Deliver(got) =>
      s.(after := Cursor(s.after, Batch(s)), open := got == |Batch(s)|, received := s.received + Batch(s)[..got])
    case Reconnect => s.(after := Cursor(s.start, s.received), open := true)
  }

  function Opened(log: Log, now: int, start: int): State {
    State(log, now, start, start, true, [])
  }

  ghost predicate IsRun(s: State, moves: seq<Move>)
    decreases |moves|
  {
    moves == [] || (Enabled(s, moves[0]) && IsRun(Next(s, moves[0]), moves[1..]))
  }

  ghost function Final(s: State, moves: seq<Move>): State
    requires IsRun(s, moves)
    decreases |moves|
  {
    if moves == [] then s else Final(Next(s, moves[0]), moves[1..])
  }

  /** In order, without repetition, and only committed events after the starting one. */
  ghost predicate Inv(s: State) {
    && Ascending(s.received)
    && (forall i :: 0 <= i < |s.received| ==> s.received[i] > s.start && Committed(s.log, s.received[i]))
    && (s.open ==> s.after == Cursor(s.start, s.received))
  }

  lemma DeliveryKeepsInv(s: State, got: nat)
    requires Inv(s) && Enabled(s, Deliver(got))
    ensures Inv(Next(s, Deliver(got)))
  {
    RecentEventsAreBatch(s.log, s.now, s.after, PAGE);
    var batch := Batch(s);
    CursorAppend(s.start, s.received, batch);
    assert batch[..|batch|] == batch;
    forall i | 0 <= i < |s.received| ensures s.received[i] <= s.after {
    }
  }

  lemma NextKeepsInv(s: State, m: Move)
    requires Inv(s) && Enabled(s, m)
    ensures Inv(Next(s, m))
  {
    if m.Deliver? { DeliveryKeepsInv(s, m.got); }
  }

  lemma {:induction false} RunKeepsInv(s: State, moves: seq<Move>)
    requires Inv(s) && IsRun(s, moves)
    ensures Inv(Final(s, moves))
    decreases |moves|
  {
    if moves != [] {
      NextKeepsInv(s, moves[0]);
      RunKeepsInv(Next(s, moves[0]), moves[1..]);
    }
  }

  /** Whatever commits late, ages out or disconnects, the client sees ascending identifiers: nothing twice. */
  lemma DeliveredInOrderOnce(log: Log, now: int, start: int, moves: seq<Move>)
    requires IsRun(Opened(log, now, start), moves)
    ensures Ascending(Final(Opened(log, now, start), moves).received)
  {
    RunKeepsInv(Opened(log, now, start), moves);
  }

  // ---------- nothing skipped ----------

  function Position(s: State): int {
    Cursor(s.start, s.received)
  }

  predicate Missed(s: State, id: nat) {
    s.start < id <= Position(s) && Committed(s.log, id) && id !in s.received
  }

  ghost predicate SkipsNothing(s: State) {
    forall id: nat :: !Missed(s, id)
  }

  /** An event was there to be sent, but is too old for this poll. */
  predicate AgedOut(s: State, id: nat) {
    s.after < id && Committed(s.log, id) && s.log[id].value <= s.now - 86400
  }

  /**
   * The two ways an event is lost: it commits when the client is already past its identifier, or it ages
   * out and a later one is delivered.
   */
  ghost predicate Loses(s: State, m: Move) {
    match m
    case Commit(id, _) => s.start < id <= Position(s)
    case Deliver(got) => 0 < got <= |Batch(s)| && exists id: nat :: AgedOut(s, id) && id < Batch(s)[got - 1]
    case _ => false
  }

  /** What is recent up to the last event received is among those received. */
  lemma BatchCovers(s: State, got: nat, id: nat)
    requires 0 < got <= |Batch(s)| && s.after < id <= Batch(s)[got - 1] && Committed(s.log, id) && !AgedOut(s, id)
    ensures id in Batch(s)[..got]
  {
    var batch := Batch(s);
    RecentEventsAreBatch(s.log, s.now, s.after, PAGE);
    assert id in batch;
    var k :| 0 <= k < |batch| && batch[k] == id;
    assert k < got && batch[..got][k] == id;
  }

  /** What a delivery receives, and how far. */
  lemma DeliveryMeans(s: State, got: nat)
    requires Inv(s) && Enabled(s, Deliver(got))
    ensures var t, batch := Next(s, Deliver(got)), Batch(s);
            && Position(t) == (if got == 0 then Position(s) else batch[got - 1])
            && (forall id :: id in t.received <==> id in s.received || id in batch[..got])
            && (forall id :: id in batch[..got] ==> id > s.after) && Position(t) >= Position(s)
  {
    RecentEventsAreBatch(s.log, s.now, s.after, PAGE);
    DeliveryKeepsInv(s, got);
  }

  lemma DeliverySkippedBefore(s: State, got: nat)
    requires Inv(s) && Enabled(s, Deliver(got)) && SkipsNothing(Next(s, Deliver(got)))
    ensures SkipsNothing(s) && !Loses(s, Deliver(got))
  {
    var t, batch := Next(s, Deliver(got)), Batch(s);
    DeliveryMeans(s, got);
    forall id: nat ensures !Missed(s, id) {
      assert !Missed(t, id);
    }
    if got > 0 {
      forall id: nat | AgedOut(s, id) ensures id >= batch[got - 1] {
        assert !Missed(t, id);
        ReceivedBehind(s, id);
        AgedIsNotSent(s, got, id);
      }
    }
  }

  lemma AgedIsNotSent(s: State, got: nat, id: nat)
    requires got <= |Batch(s)| && AgedOut(s, id)
    ensures id !in Batch(s)[..got]
  {
    RecentEventsAreBatch(s.log, s.now, s.after, PAGE);
  }

  lemma DeliverySkipsNothing(s: State, got: nat)
    requires Inv(s) && Enabled(s, Deliver(got)) && SkipsNothing(s) && !Loses(s, Deliver(got))
    ensures SkipsNothing(Next(s, Deliver(got)))
  {
    var t, batch := Next(s, Deliver(got)), Batch(s);
    DeliveryMeans(s, got);
    forall id: nat ensures !Missed(t, id) {
      assert !Missed(s, id);
      if got > 0 && s.after < id <= batch[got - 1] && Committed(s.log, id) {
        if AgedOut(s, id) {
          AgedIsNotSent(s, got, id);
          LastIsSent(batch, got);
        } else {
          BatchCovers(s, got, id);
        }
      }
    }
  }

  lemma LastIsSent(batch: seq<nat>, got: nat)
    requires 0 < got <= |batch|
    ensures batch[got - 1] in batch[..got]
  {
    assert batch[..got][got - 1] == batch[got - 1];
  }

  lemma DeliverySkips(s: State, got: nat)
    requires Inv(s) && Enabled(s, Deliver(got))
    ensures SkipsNothing(Next(s, Deliver(got))) <==> SkipsNothing(s) && !Loses(s, Deliver(got))
  {
    if SkipsNothing(Next(s, Deliver(got))) {
      DeliverySkippedBefore(s, got);
    }
    if SkipsNothing(s) && !Loses(s, Deliver(got)) {
      DeliverySkipsNothing(s, got);
    }
  }

  lemma ReceivedBehind(s: State, id: nat)
    requires Inv(s) && s.open && id > s.after
    ensures id !in s.received
  {
  }

  lemma CommitSkips(s: State, id: nat, at: int)
    requires Inv(s) && Enabled(s, Commit(id, at))
    ensures SkipsNothing(Next(s, Commit(id, at))) <==> SkipsNothing(s) && !Loses(s, Commit(id, at))
  {
    var t := Next(s, Commit(id, at));
    assert id !in s.received;
    assert forall other: nat :: other != id ==> (Missed(t, other) <==> Missed(s, other));
    assert !Missed(s, id);
    assert Missed(t, id) <==> Loses(s, Commit(id, at));
  }

  lemma NextSkips(s: State, m: Move)
    requires Inv(s) && Enabled(s, m)
    ensures SkipsNothing(Next(s, m)) <==> SkipsNothing(s) && !Loses(s, m)
  {
    match m
    case Deliver(got) => DeliverySkips(s, got);
    case Commit(id, at) => CommitSkips(s, id, at);
    case _ => assert forall id: nat :: Missed(Next(s, m), id) <==> Missed(s, id);
  }

  ghost predicate RunLoses(s: State, moves: seq<Move>)
    requires IsRun(s, moves)
    decreases |moves|
  {
    moves != [] && (Loses(s, moves[0]) || RunLoses(Next(s, moves[0]), moves[1..]))
  }

  /** A client has received every committed event up to its position exactly when no step of the run lost one. */
  lemma {:induction false} NothingSkippedIff(s: State, moves: seq<Move>)
    requires Inv(s) && IsRun(s, moves)
    ensures SkipsNothing(Final(s, moves)) <==> SkipsNothing(s) && !RunLoses(s, moves)
    decreases |moves|
  {
    if moves != [] {
      NextKeepsInv(s, moves[0]);
      NextSkips(s, moves[0]);
      NothingSkippedIff(Next(s, moves[0]), moves[1..]);
    }
  }

  // ---------- in-order commits that do not age ----------

  /** Identifiers commit in order, and no event behind the cursor has aged out at a poll. */
  ghost predicate Orderly(s: State, m: Move) {
    match m
    case Commit(id, _) => forall other: nat :: Committed(s.log, other) ==> other < id
    case Deliver(_) => forall id: nat :: !AgedOut(s, id)
    case _ => true
  }

  ghost predicate OrderlyRun(s: State, moves: seq<Move>)
    requires IsRun(s, moves)
    decreases |moves|
  {
    moves == [] || (Orderly(s, moves[0]) && OrderlyRun(Next(s, moves[0]), moves[1..]))
  }

  lemma {:induction false} OrderlyRunsLoseNothing(s: State, moves: seq<Move>)
    requires Inv(s) && IsRun(s, moves) && OrderlyRun(s, moves)
    ensures !RunLoses(s, moves)
    decreases |moves|
  {
    if moves != [] {
      NextKeepsInv(s, moves[0]);
      assert s.received != [] ==> Committed(s.log, Position(s));
      OrderlyRunsLoseNothing(Next(s, moves[0]), moves[1..]);
    }
  }

  /** Then the client has received exactly the log entries after its start, up to its position and in order. */
  lemma OrderlyRunsDeliverExactly(log: Log, now: int, start: int, moves: seq<Move>)
    requires IsRun(Opened(log, now, start), moves) && OrderlyRun(Opened(log, now, start), moves)
    ensures var s := Final(Opened(log, now, start), moves);
            && Ascending(s.received)
            && forall id: nat :: id in s.received <==> start < id <= Position(s) && Committed(s.log, id)
  {
    var first := Opened(log, now, start);
    RunKeepsInv(first, moves);
    OrderlyRunsLoseNothing(first, moves);
    NothingSkippedIff(first, moves);
    StartStays(first, moves);
    var s := Final(first, moves);
    forall id: nat ensures id in s.received <==> start < id <= Position(s) && Committed(s.log, id) {
      assert !Missed(s, id);
    }
  }

  lemma {:induction false} StartStays(s: State, moves: seq<Move>)
    requires IsRun(s, moves)
    ensures Final(s, moves).start == s.start
    decreases |moves|
  {
    if moves != [] {
      StartStays(Next(s, moves[0]), moves[1..]);
    }
  }

  /** A fully received batch that is not full leaves no recent event unreceived, unless it was missed before. */
  lemma ShortBatchCatchesUp(s: State, id: nat)
    requires Inv(s) && s.open && SkipsNothing(s) && |Batch(s)| < 100
    requires id > s.start && Recent(s.log, s.now, id)
    ensures id in Next(s, Deliver(|Batch(s)|)).received
  {
    RecentEventsAreBatch(s.log, s.now, s.after, PAGE);
    assert Batch(s)[..|Batch(s)|] == Batch(s);
    assert !Missed(s, id);
  }

  /** A full batch moves the position: no batch boundary holds the stream up. */
  lemma EveryBatchAdvances(s: State, id: nat)
    requires Inv(s) && s.open && id > s.after && Recent(s.log, s.now, id)
    ensures var t := Next(s, Deliver(|Batch(s)|));
            Position(t) > Position(s) && (id in t.received || |t.received| == |s.received| + 100)
  {
    RecentEventsAreBatch(s.log, s.now, s.after, PAGE);
    assert Batch(s)[..|Batch(s)|] == Batch(s);
  }

  /** Two writers: the second identifier commits and is delivered, then the first one commits. */
  lemma LateCommitIsSkipped(now: int)
    ensures var moves := [Commit(2, now), Deliver(1), Commit(1, now)];
            var first := Opened([None, None, None], now, 0);
            && IsRun(first, moves) && Final(first, moves).received == [2]
            && Missed(Final(first, moves), 1)
  {
    var first := Opened([None, None, None], now, 0);
    var second := Next(first, Commit(2, now));
    assert RecentFrom(second.log, now, 3, 99) == [];
    assert RecentFrom(second.log, now, 2, 100) == [2];
    assert Batch(second) == [2];
    var third := Next(second, Deliver(1));
    var moves := [Commit(2, now), Deliver(1), Commit(1, now)];
    assert moves[1..] == [Deliver(1), Commit(1, now)] && moves[1..][1..] == [Commit(1, now)];
    assert moves[1..][1..][1..] == [];
    assert third.received == [2];
    var fourth := Next(third, Commit(1, now));
    assert IsRun(fourth, []);
    assert IsRun(third, [Commit(1, now)]) && Final(third, [Commit(1, now)]) == fourth;
  }
}
