/**
 * Overlapping handlers.  A request handler reads the active provider, then chooses its transaction, then
 * commits it; a provider switch reads the setting, then counts, then writes.  Others move in between, and a
 * handler may stop anywhere.
 */
module Races {
  import opened Domain
  import opened Database
  import opened History
  import opened Handlers
  import Evolution

  datatype Stage =
    | Heard(call: Call, active: Provider)
    | Chosen(call: Call, txn: Txn)
    | Counting(to: Provider, current: Provider)
    | Writing(to: Provider)

  /** A transaction a request handler committed, for which call and with which reply. */
  datatype Entry = Entry(call: Call, txn: Txn, reply: Reply)

  datatype Server = Server(db: Db, handlers: map<nat, Stage>, served: seq<Entry>)

  datatype Move =
    | Hear(h: nat, call: Call)
    | Choose(h: nat)
    | Commit(h: nat)
    | Stop(h: nat)
    | ReadSetting(h: nat, to: Provider)
    | Count(h: nat)
    | Write(h: nat)
    | Initialize(p: Provider)
    | Work(t: Txn)

  function Leave(s: Server, h: nat): Server {
    s.(handlers := s.handlers - {h})
  }

  /** A move that does not fit the handler's stage does nothing. */
  function Step(s: Server, parse: Parsers, m: Move): Server {
    match m
    case Hear(h, call) =>
      if h in s.handlers || !IsRequest(call) then s else s.(handlers := s.handlers[h := Heard(call, Active(s.db))])
    case Choose(h) =>
      if h !in s.handlers || !s.handlers[h].Heard? || !IsRequest(s.handlers[h].call) then s
      else
        var t := ChosenTxn(s.handlers[h].active, s.db, parse, s.handlers[h].call);
        if t.None? then Leave(s, h) else s.(handlers := s.handlers[h := Chosen(s.handlers[h].call, t.value)])
    case Commit(h) =>
      if h !in s.handlers || !s.handlers[h].Chosen? then s
      else
        var (d, reply) := Execute(s.db, s.handlers[h].txn);
        Server(d, s.handlers - {h}, s.served + [Entry(s.handlers[h].call, s.handlers[h].txn, reply)])
    case Stop(h) => Leave(s, h)
    case ReadSetting(h, to) =>
      if h in s.handlers || !ValidProvider(to) || !ValidProvider(Active(s.db)) || Active(s.db) == to then s
      else s.(handlers := s.handlers[h := Counting(to, Active(s.db))])
    case Count(h) =>
      if h !in s.handlers || !s.handlers[h].Counting? then s
      else if HasUnfinished(s.db.ops, s.handlers[h].current) then Leave(s, h)
      else s.(handlers := s.handlers[h := Writing(s.handlers[h].to)])
    case Write(h) =>
      if h !in s.handlers || !s.handlers[h].Writing? then s
      else Leave(s, h).(db := After(s.db, WriteSetting(s.handlers[h].to)))
    case Initialize(p) => s.(db := After(s.db, InitProvider(p)))
    case Work(t) => if IsBackground(t) then s.(db := After(s.db, t)) else s
  }

  function Open(users: set<Id>, now: nat): Server {
    Server(EmptyDb(users, now), map[], [])
  }

  function Race(s: Server, parse: Parsers, moves: seq<Move>): Server {
    if moves == [] then s else Step(Race(s, parse, moves[..|moves| - 1]), parse, moves[|moves| - 1])
  }

  // ---------- the invariant ----------

  /** Some state, however old, made the handler choose this transaction for this call. */
  ghost predicate Chooses(parse: Parsers, c: Call, t: Txn) {
    IsRequest(c) && exists active, db :: ChosenTxn(active, db, parse, c) == Some(t)
  }

  ghost predicate StageSound(db: Db, parse: Parsers, g: Stage) {
    match g
    case Heard(call, _) => IsRequest(call)
    case Chosen(call, t) => Chooses(parse, call, t) && MayRun(db, call, t)
    case Counting(to, _) => ValidProvider(to)
    case Writing(to) => ValidProvider(to)
  }

  /** A committed request left its row, a committed decision its mark, and the caller was allowed to. */
  ghost predicate Accounted(db: Db, parse: Parsers, e: Entry) {
    && Chooses(parse, e.call, e.txn)
    && (e.reply.Created? ==> e.reply.id < |db.ops| && Created(e, db.ops[e.reply.id]))
    && (e.reply.Done? ==> e.txn.Decision? && e.txn.id < |db.ops| && Decided(e, db.ops[e.txn.id]))
  }

  /** The row is the one the call asked for, with the permission for its application. */
  ghost predicate Created(e: Entry, o: Operation) {
    && IsRequest(e.call) && e.txn.Request?
    && (o.requester, o.kind, o.env, o.image, o.revision, o.key)
       == (e.txn.requester, e.txn.kind, e.txn.target, e.txn.image, e.txn.revision, e.txn.key)
    && Origin(o.provider, o.conversation, o.event) == e.txn.origin
    && Caller(e.call) == Some(o.requester) && PrincipalAllows(Permissions(e.call), ActionFor(o.kind), o.app)
  }

  ghost predicate Decided(e: Entry, o: Operation) {
    && IsRequest(e.call) && e.txn.Decision? && o.status != PendingApproval
    && Caller(e.call) == Some(e.txn.approver) && PrincipalAllows(Permissions(e.call), ApproveAction, o.app)
  }

  ghost predicate OperationServed(served: seq<Entry>, i: Id) {
    exists k :: 0 <= k < |served| && served[k].reply == Reply.Created(i)
  }

  ghost predicate ApprovalServed(served: seq<Entry>, a: Approval) {
    exists k :: 0 <= k < |served| && Approves(served[k], a)
  }

  predicate Approves(e: Entry, a: Approval) {
    e.reply.Done? && e.txn == Decision(a.operation, a.approver, a.decision, a.comment)
  }

  ghost predicate Inv(s: Server, parse: Parsers) {
    && Sound(s.db) && ValidProvider(Active(s.db))
    && (forall i :: 0 <= i < |s.db.ops| ==> OriginSound(s.db.ops[i]))
    && (forall h :: h in s.handlers ==> StageSound(s.db, parse, s.handlers[h]))
    && (forall k :: 0 <= k < |s.served| ==> Accounted(s.db, parse, s.served[k]))
    && (forall i :: 0 <= i < |s.db.ops| ==> OperationServed(s.served, i))
    && (forall k :: 0 <= k < |s.db.approvals| ==> ApprovalServed(s.served, s.db.approvals[k]))
  }

  // ---------- every step keeps it ----------

  lemma StageFrame(db: Db, d: Db, parse: Parsers, g: Stage)
    requires StageSound(db, parse, g) && Evolution.Evolves(db, d)
    ensures StageSound(d, parse, g)
  {
    if g.Chosen? && g.txn.Decision? {
      assert Evolution.RowStep(db.ops[g.txn.id], d.ops[g.txn.id]);
    }
  }

  lemma EntryFrame(db: Db, d: Db, parse: Parsers, e: Entry)
    requires Accounted(db, parse, e) && Evolution.Evolves(db, d)
    ensures Accounted(d, parse, e)
  {
    if e.reply.Created? { assert Evolution.RowStep(db.ops[e.reply.id], d.ops[e.reply.id]); }
    if e.reply.Done? { assert Evolution.RowStep(db.ops[e.txn.id], d.ops[e.txn.id]); }
  }

  /** A change of the database that adds no operation and no approval. */
  lemma DatabaseKeepsInv(s: Server, parse: Parsers, d: Db)
    requires Inv(s, parse) && Evolution.Evolves(s.db, d) && Sound(d) && ValidProvider(Active(d))
    requires |d.ops| == |s.db.ops| && d.approvals == s.db.approvals
    ensures Inv(s.(db := d), parse)
  {
    forall i | 0 <= i < |d.ops| ensures OriginSound(d.ops[i]) {
      assert Evolution.RowStep(s.db.ops[i], d.ops[i]) && OriginSound(s.db.ops[i]);
    }
    forall h | h in s.handlers ensures StageSound(d, parse, s.handlers[h]) {
      StageFrame(s.db, d, parse, s.handlers[h]);
    }
    forall k | 0 <= k < |s.served| ensures Accounted(d, parse, s.served[k]) {
      EntryFrame(s.db, d, parse, s.served[k]);
    }
  }

  lemma WorkAddsNoRecords(db: Db, t: Txn)
    requires IsBackground(t) || t.InitProvider?
    ensures |After(db, t).ops| == |db.ops| && After(db, t).approvals == db.approvals
    ensures IsBackground(t) ==> After(db, t).setting == db.setting
  {
    if t.CreateEnvironment? { Evolution.CreateEnvironmentEvolves(db, t); }
    else if t.Claim? { Evolution.ClaimEvolves(db, t); }
    else if t.Finish? { Evolution.FinishEvolves(db, t); }
    else { Evolution.OtherEvolves(db, t); }
    if IsBackground(t) { SameSetting(db, t); }
  }

  lemma InitializedIsValid(db: Db, p: Provider)
    requires ValidProvider(Active(db))
    ensures ValidProvider(Active(After(db, InitProvider(p))))
  {
  }

  lemma SettingKeepsInv(s: Server, parse: Parsers, to: Provider)
    requires Inv(s, parse) && ValidProvider(to)
    ensures Inv(s.(db := s.db.(setting := Some(to))), parse)
  {
    var d := s.db.(setting := Some(to));
    SameOperationsKeepSound(s.db, d);
    DatabaseKeepsInv(s, parse, d);
  }

  lemma TransactionKeepsInv(s: Server, parse: Parsers, t: Txn)
    requires Inv(s, parse) && (IsBackground(t) || t.InitProvider?)
    ensures Inv(s.(db := After(s.db, t)), parse)
  {
    StepKeepsSound(s.db, t);
    Evolution.StepEvolves(s.db, t);
    WorkAddsNoRecords(s.db, t);
    if t.InitProvider? { InitializedIsValid(s.db, t.provider); }
    DatabaseKeepsInv(s, parse, After(s.db, t));
  }

  /** What a chosen transaction adds: the asked row, or the approval, or nothing at all. */
  lemma CommitMeans(db: Db, parse: Parsers, c: Call, t: Txn)
    requires Sound(db) && Chooses(parse, c, t) && MayRun(db, c, t)
    ensures var (d, r) := Execute(db, t);
            var e := Entry(c, t, r);
            && d.setting == db.setting && Accounted(d, parse, e)
            && (|d.ops| == |db.ops| || (d.ops[..|db.ops|] == db.ops && r == Reply.Created(|db.ops|)
                                        && |d.ops| == |db.ops| + 1 && OriginSound(d.ops[|db.ops|])))
            && (d.approvals == db.approvals
                || exists a :: d.approvals == db.approvals + [a] && Approves(e, a))
  {
    var active, seen :| ChosenTxn(active, seen, parse, c) == Some(t);
    HandlersChooseKeyed(active, seen, parse, c);
    if t.Request? {
      NewRow(db, t);
      RequestReply(db, t);
      Evolution.RequestEvolves(db, t);
      RequestSucceedsIff(db, t.requester, t.kind, t.target, t.image, t.revision, t.key, t.origin, t.logged);
    } else {
      var (d, r) := Execute(db, t);
      Evolution.DecisionEffect(db, t);
      DecisionReply(db, t);
      Evolution.DecisionEvolves(db, t);
      if r.Done? {
        var a := Approval(t.id, t.approver, t.decision, t.comment);
        assert d.approvals == db.approvals + [a] && Approves(Entry(c, t, r), a);
      }
    }
  }

  lemma DecisionReply(db: Db, t: Txn)
    requires t.Decision?
    ensures Execute(db, t).1.Done? || Execute(db, t).1.Failure?
  {
  }

  lemma ServedGrows(served: seq<Entry>, e: Entry)
    ensures forall i: Id :: OperationServed(served, i) ==> OperationServed(served + [e], i)
    ensures forall a :: ApprovalServed(served, a) ==> ApprovalServed(served + [e], a)
    ensures forall i: Id :: e.reply == Reply.Created(i) ==> OperationServed(served + [e], i)
    ensures forall a :: Approves(e, a) ==> ApprovalServed(served + [e], a)
  {
    var more := served + [e];
    assert more[|served|] == e;
    forall i: Id | OperationServed(served, i) ensures OperationServed(more, i) {
      var k :| 0 <= k < |served| && served[k].reply == Reply.Created(i);
      assert more[k] == served[k];
    }
    forall a | ApprovalServed(served, a) ensures ApprovalServed(more, a) {
      var k :| 0 <= k < |served| && Approves(served[k], a);
      assert more[k] == served[k];
    }
  }

  lemma CommitKeepsInv(s: Server, parse: Parsers, h: nat)
    requires Inv(s, parse) && h in s.handlers && s.handlers[h].Chosen?
    ensures Inv(Step(s, parse, Commit(h)), parse)
  {
    var t := s.handlers[h].txn;
    assert StageSound(s.db, parse, s.handlers[h]);
    CommitMeans(s.db, parse, s.handlers[h].call, t);
    StepKeepsSound(s.db, t);
    Evolution.StepEvolves(s.db, t);
    var e := Entry(s.handlers[h].call, t, Execute(s.db, t).1);
    RecordKeepsInv(s, parse, After(s.db, t), e, s.handlers - {h});
  }

  lemma RecordKeepsInv(s: Server, parse: Parsers, d: Db, e: Entry, handlers: map<nat, Stage>)
    requires Inv(s, parse) && Evolution.Evolves(s.db, d) && Sound(d) && d.setting == s.db.setting
    requires handlers.Keys <= s.handlers.Keys && forall h :: h in handlers ==> handlers[h] == s.handlers[h]
    requires Accounted(d, parse, e)
    requires |d.ops| == |s.db.ops|
             || (d.ops[..|s.db.ops|] == s.db.ops && e.reply == Reply.Created(|s.db.ops|)
                 && |d.ops| == |s.db.ops| + 1 && OriginSound(d.ops[|s.db.ops|]))
    requires d.approvals == s.db.approvals || exists a :: d.approvals == s.db.approvals + [a] && Approves(e, a)
    ensures Inv(Server(d, handlers, s.served + [e]), parse)
  {
    var served := s.served + [e];
    ServedGrows(s.served, e);
    forall i | 0 <= i < |d.ops| ensures OriginSound(d.ops[i]) && OperationServed(served, i) {
      if i < |s.db.ops| {
        assert Evolution.RowStep(s.db.ops[i], d.ops[i]) && OriginSound(s.db.ops[i]) && OperationServed(s.served, i);
      }
    }
    forall h | h in handlers ensures StageSound(d, parse, handlers[h]) {
      StageFrame(s.db, d, parse, s.handlers[h]);
    }
    forall k | 0 <= k < |served| ensures Accounted(d, parse, served[k]) {
      if k < |s.served| { EntryFrame(s.db, d, parse, s.served[k]); }
    }
    forall k | 0 <= k < |d.approvals| ensures ApprovalServed(served, d.approvals[k]) {
      if k < |s.db.approvals| {
        assert d.approvals[k] == s.db.approvals[k] && ApprovalServed(s.served, s.db.approvals[k]);
      }
    }
  }

  lemma ChooseKeepsInv(s: Server, parse: Parsers, h: nat)
    requires Inv(s, parse) && h in s.handlers && s.handlers[h].Heard?
    ensures Inv(Step(s, parse, Choose(h)), parse)
  {
    assert StageSound(s.db, parse, s.handlers[h]);
    var call, active := s.handlers[h].call, s.handlers[h].active;
    if ChosenTxn(active, s.db, parse, call).Some? {
      HandlersAreAuthorized(active, s.db, parse, call);
      assert Chooses(parse, call, ChosenTxn(active, s.db, parse, call).value);
    }
  }

  lemma WriteKeepsInv(s: Server, parse: Parsers, h: nat)
    requires Inv(s, parse) && h in s.handlers && s.handlers[h].Writing?
    ensures Inv(Step(s, parse, Write(h)), parse)
  {
    assert StageSound(s.db, parse, s.handlers[h]);
    SettingKeepsInv(Leave(s, h), parse, s.handlers[h].to);
  }

  /** Moves that leave the database alone. */
  lemma StageMoveKeepsInv(s: Server, parse: Parsers, m: Move)
    requires Inv(s, parse) && (m.Hear? || m.Stop? || m.ReadSetting? || m.Count?)
    ensures Inv(Step(s, parse, m), parse)
  {
    if m.Count? && m.h in s.handlers {
      assert StageSound(s.db, parse, s.handlers[m.h]);
    }
  }

  lemma HandlerMoveKeepsInv(s: Server, parse: Parsers, m: Move)
    requires Inv(s, parse) && (m.Choose? || m.Commit? || m.Write?)
    ensures Inv(Step(s, parse, m), parse)
  {
    if m.h in s.handlers {
      if m.Choose? && s.handlers[m.h].Heard? { ChooseKeepsInv(s, parse, m.h); }
      if m.Commit? && s.handlers[m.h].Chosen? { CommitKeepsInv(s, parse, m.h); }
      if m.Write? && s.handlers[m.h].Writing? { WriteKeepsInv(s, parse, m.h); }
    }
  }

  lemma DatabaseMoveKeepsInv(s: Server, parse: Parsers, m: Move)
    requires Inv(s, parse) && (m.Initialize? || m.Work?)
    ensures Inv(Step(s, parse, m), parse)
  {
    if m.Initialize? {
      TransactionKeepsInv(s, parse, InitProvider(m.p));
    } else if IsBackground(m.t) {
      TransactionKeepsInv(s, parse, m.t);
    }
  }

  lemma StepKeepsInv(s: Server, parse: Parsers, m: Move)
    requires Inv(s, parse)
    ensures Inv(Step(s, parse, m), parse)
  {
    if m.Initialize? || m.Work? {
      DatabaseMoveKeepsInv(s, parse, m);
    } else if m.Choose? || m.Commit? || m.Write? {
      HandlerMoveKeepsInv(s, parse, m);
    } else {
      StageMoveKeepsInv(s, parse, m);
    }
  }

  lemma {:induction false} RacesKeepInv(users: set<Id>, now: nat, parse: Parsers, moves: seq<Move>)
    ensures Inv(Race(Open(users, now), parse, moves), parse)
  {
    if moves != [] {
      RacesKeepInv(users, now, parse, moves[..|moves| - 1]);
      StepKeepsInv(Race(Open(users, now), parse, moves[..|moves| - 1]), parse, moves[|moves| - 1]);
    }
  }

  // ---------- authorization, and one operation for one event ----------

  /**
   * However handlers overlap, every operation was created by the commit of a transaction that some call with
   * the permission to chose, and is as that transaction says; and every approval was given by the commit of a
   * decision that some call with the permission to approve for the application chose.
   */
  lemma {:induction false} EveryRowIsAuthorized(users: set<Id>, now: nat, parse: Parsers, moves: seq<Move>)
    ensures var s := Race(Open(users, now), parse, moves);
            && (forall i :: 0 <= i < |s.db.ops| ==> CreatedByCall(s, parse, i))
            && (forall k :: 0 <= k < |s.db.approvals| ==> ApprovedByCall(s, parse, s.db.approvals[k]))
  {
    var s := Race(Open(users, now), parse, moves);
    RacesKeepInv(users, now, parse, moves);
    forall i | 0 <= i < |s.db.ops| ensures CreatedByCall(s, parse, i) {
      assert OperationServed(s.served, i);
      var k :| 0 <= k < |s.served| && s.served[k].reply == Reply.Created(i);
      assert Accounted(s.db, parse, s.served[k]);
    }
    forall k | 0 <= k < |s.db.approvals| ensures ApprovedByCall(s, parse, s.db.approvals[k]) {
      assert ApprovalServed(s.served, s.db.approvals[k]);
      var j :| 0 <= j < |s.served| && Approves(s.served[j], s.db.approvals[k]);
      assert Accounted(s.db, parse, s.served[j]);
    }
  }

  ghost predicate CreatedByCall(s: Server, parse: Parsers, i: Id)
    requires i < |s.db.ops|
  {
    exists k :: 0 <= k < |s.served| && s.served[k].reply == Reply.Created(i)
                && Chooses(parse, s.served[k].call, s.served[k].txn) && Created(s.served[k], s.db.ops[i])
  }

  ghost predicate ApprovedByCall(s: Server, parse: Parsers, a: Approval) {
    && a.operation < |s.db.ops|
    && exists k :: 0 <= k < |s.served| && Approves(s.served[k], a)
                   && Chooses(parse, s.served[k].call, s.served[k].txn) && Decided(s.served[k], s.db.ops[a.operation])
  }

  /** However deliveries overlap, no two operations stem from one event of one provider. */
  lemma {:induction false} RacesCreateOnePerEvent(
      users: set<Id>, now: nat, parse: Parsers, moves: seq<Move>, i: Id, j: Id)
    requires var ops := Race(Open(users, now), parse, moves).db.ops;
             i < |ops| && j < |ops| && ops[i].provider == ops[j].provider != Web && ops[i].event == ops[j].event
    ensures i == j
  {
    var ops := Race(Open(users, now), parse, moves).db.ops;
    RacesKeepInv(users, now, parse, moves);
    assert OriginSound(ops[i]) && OriginSound(ops[j]);
    EventsAreUnique(ops, i, j);
  }

  /** Once a delivery has committed, committing another delivery of the same event changes nothing. */
  lemma {:induction false} SecondDeliveryChangesNothing(
      users: set<Id>, now: nat, parse: Parsers, moves: seq<Move>, k: nat, h: nat)
    requires var s := Race(Open(users, now), parse, moves);
             && k < |s.served| && (s.served[k].reply.Done? || s.served[k].reply.Created?)
             && h in s.handlers && s.handlers[h].Chosen? && SameDelivery(s.served[k].call, s.handlers[h].call)
    ensures var s := Race(Open(users, now), parse, moves);
            Step(s, parse, Commit(h)).db == s.db
  {
    var s := Race(Open(users, now), parse, moves);
    RacesKeepInv(users, now, parse, moves);
    var e, g := s.served[k], s.handlers[h];
    assert Accounted(s.db, parse, e) && StageSound(s.db, parse, g);
    var a, seen :| ChosenTxn(a, seen, parse, e.call) == Some(e.txn);
    var b, seenAgain :| ChosenTxn(b, seenAgain, parse, g.call) == Some(g.txn);
    CallbackIsDetermined(a, seen, b, seenAgain, parse, e.call, g.call);
    if e.reply.Created? {
      assert s.db.ops[e.reply.id].key == g.txn.key;
      TakenKeyBlocksRequest(s.db, g.txn);
    } else {
      Evolution.DecisionEffect(s.db, g.txn);
    }
  }

  // ---------- the active provider ----------

  /**
   * The two ways to leave an unfinished operation on a provider that is not active: a callback commits
   * after its provider was switched away, or a switch writes after an operation appeared.
   */
  ghost predicate Breaks(s: Server, m: Move) {
    match m
    case Commit(h) =>
      h in s.handlers && s.handlers[h].Chosen? && s.handlers[h].txn.Request?
      && var t := s.handlers[h].txn;
         Execute(s.db, t).1.Created? && t.origin.conversation != "" && t.origin.provider != Active(s.db)
    case Write(h) =>
      h in s.handlers && s.handlers[h].Writing?
      && s.handlers[h].to != Active(s.db) && HasUnfinished(s.db.ops, Active(s.db))
    case _ => false
  }

  lemma CommitBreaksIff(s: Server, parse: Parsers, h: nat)
    requires Inv(s, parse) && OnActiveProvider(s.db) && h in s.handlers && s.handlers[h].Chosen?
    ensures OnActiveProvider(Step(s, parse, Commit(h)).db) <==> !Breaks(s, Commit(h))
  {
    var c, t := s.handlers[h].call, s.handlers[h].txn;
    assert StageSound(s.db, parse, s.handlers[h]);
    var active, seen :| ChosenTxn(active, seen, parse, c) == Some(t);
    HandlersChooseKeyed(active, seen, parse, c);
    assert ProviderSound(s.db);
    if t.Request? {
      NewRow(s.db, t);
      if Execute(s.db, t).1.Created? {
        RequestKeepsProviderIff(s.db, t);
        CommitKeepsInv(s, parse, h);
      }
    } else {
      ForwardKeepsProvider(s.db, t);
    }
  }

  lemma WriteBreaksIff(s: Server, parse: Parsers, h: nat)
    requires Inv(s, parse) && OnActiveProvider(s.db) && h in s.handlers && s.handlers[h].Writing?
    ensures OnActiveProvider(Step(s, parse, Write(h)).db) <==> !Breaks(s, Write(h))
  {
    WriteMove(s, parse, h);
    SettingBreaksIff(s.db, s.handlers[h].to);
  }

  lemma WriteMove(s: Server, parse: Parsers, h: nat)
    requires h in s.handlers && s.handlers[h].Writing?
    ensures Step(s, parse, Write(h)).db == s.db.(setting := Some(s.handlers[h].to))
  {
  }

  lemma SettingBreaksIff(db: Db, to: Provider)
    requires OnActiveProvider(db)
    ensures OnActiveProvider(db.(setting := Some(to))) <==> to == Active(db) || !HasUnfinished(db.ops, Active(db))
  {
    var d := db.(setting := Some(to));
    if to != Active(db) && HasUnfinished(db.ops, Active(db)) {
      var i :| 0 <= i < |db.ops| && db.ops[i].provider == Active(db)
               && db.ops[i].conversation != "" && Unfinished(db.ops[i].status);
      assert d.ops[i].provider != Active(d);
    }
  }

  /** The exact step condition, in every reachable state. */
  lemma StepBreaksIff(s: Server, parse: Parsers, m: Move)
    requires Inv(s, parse) && OnActiveProvider(s.db)
    ensures OnActiveProvider(Step(s, parse, m).db) <==> !Breaks(s, m)
  {
    assert ProviderSound(s.db);
    match m
    case Commit(h) => if h in s.handlers && s.handlers[h].Chosen? { CommitBreaksIff(s, parse, h); }
    case Write(h) => if h in s.handlers && s.handlers[h].Writing? { WriteBreaksIff(s, parse, h); }
    case Initialize(p) => SwitchKeepsProvider(s.db, InitProvider(p));
    case Work(t) => if IsBackground(t) { ForwardKeepsProvider(s.db, t); }
    case _ =>
  }

  /** After every move of the run, every unfinished operation is on the active provider. */
  ghost predicate AlwaysOnActive(s: Server, parse: Parsers, moves: seq<Move>) {
    && OnActiveProvider(Race(s, parse, moves).db)
    && (moves != [] ==> AlwaysOnActive(s, parse, moves[..|moves| - 1]))
  }

  ghost predicate NeverBreaks(s: Server, parse: Parsers, moves: seq<Move>) {
    moves != [] ==>
      && NeverBreaks(s, parse, moves[..|moves| - 1])
      && !Breaks(Race(s, parse, moves[..|moves| - 1]), moves[|moves| - 1])
  }

  /** Every unfinished operation is on the active provider throughout a run exactly when no step of it breaks that. */
  lemma {:induction false} AlwaysOnActiveIff(users: set<Id>, now: nat, parse: Parsers, moves: seq<Move>)
    ensures AlwaysOnActive(Open(users, now), parse, moves) <==> NeverBreaks(Open(users, now), parse, moves)
  {
    if moves != [] {
      var s, before := Open(users, now), moves[..|moves| - 1];
      AlwaysOnActiveIff(users, now, parse, before);
      RacesKeepInv(users, now, parse, before);
      if AlwaysOnActive(s, parse, before) {
        StepBreaksIff(Race(s, parse, before), parse, moves[|moves| - 1]);
      }
    }
  }

  // ---------- the two races ----------

  const ENV := Environment(0, "test", 0, "default", "demo", "app", "registry/", false, 600)
  const ALLOWED := [Permission(None, AdminAction)]
  const EVENT := Payload("event-1", "chat-1", "deploy", ["env", "registry/app:1"], "", "", "")
  const CALL := Callback(Feishu, Some(EVENT), Sender(Some(1), Some(ALLOWED)), true)
  const PARSE := Parsers(_ => Some(0), _ => None)
  const REQUEST :=
    Request(1, Deploy, 0, "registry/app:1", 0, EventKey(Feishu, "event-1"), Origin(Feishu, "chat-1", "event-1"), true)

  /** Handler 1 has a callback to commit, handler 2 has counted and will switch to WeCom. */
  const READY: seq<Move> := [
    Initialize(Feishu), Work(CreateEnvironment(ENV)), Hear(1, CALL), Choose(1), ReadSetting(2, WeCom), Count(2)]

  function Prepared(): Server {
    Server(OnFeishu(), map[1 := Chosen(CALL, REQUEST), 2 := Writing(WeCom)], [])
  }

  function OnFeishu(): Db {
    EmptyDb({1}, 0).(setting := Some(Feishu), envs := [ENV])
  }

  lemma Follows(k: nat)
    requires k < |READY|
    ensures Race(Open({1}, 0), PARSE, READY[..k + 1]) == Step(Race(Open({1}, 0), PARSE, READY[..k]), PARSE, READY[k])
  {
    assert READY[..k + 1][..k] == READY[..k];
  }

  lemma FirstTransactions(empty: Db)
    requires empty == EmptyDb({1}, 0)
    ensures After(empty, InitProvider(Feishu)) == empty.(setting := Some(Feishu))
    ensures After(empty.(setting := Some(Feishu)), CreateEnvironment(ENV))
            == empty.(setting := Some(Feishu), envs := [ENV])
  {
  }

  lemma ReadyOne()
    ensures Race(Open({1}, 0), PARSE, READY[..1]) == Server(EmptyDb({1}, 0).(setting := Some(Feishu)), map[], [])
  {
    Follows(0);
    FirstTransactions(EmptyDb({1}, 0));
  }

  lemma ReadyTwo()
    ensures Race(Open({1}, 0), PARSE, READY[..2]) == Server(OnFeishu(), map[], [])
  {
    ReadyOne();
    Follows(1);
    FirstTransactions(EmptyDb({1}, 0));
  }

  lemma ReadyFour()
    ensures Race(Open({1}, 0), PARSE, READY[..4]) == Server(OnFeishu(), map[1 := Chosen(CALL, REQUEST)], [])
  {
    ReadyTwo();
    Follows(2);
    Follows(3);
    CallIsChosen(OnFeishu());
    assert map[1 := Heard(CALL, Feishu)][1 := Chosen(CALL, REQUEST)] == map[1 := Chosen(CALL, REQUEST)];
  }

  lemma ReadyFive()
    ensures Race(Open({1}, 0), PARSE, READY[..5])
            == Server(OnFeishu(), map[1 := Chosen(CALL, REQUEST), 2 := Counting(WeCom, Feishu)], [])
  {
    ReadyFour();
    Follows(4);
  }

  lemma ReadyIsPrepared()
    ensures Race(Open({1}, 0), PARSE, READY) == Prepared()
  {
    ReadyFive();
    Follows(5);
    assert READY[..6] == READY;
  }

  lemma CallIsChosen(db: Db)
    requires db.envs == [ENV]
    ensures ChosenTxn(Feishu, db, PARSE, CALL) == Some(REQUEST)
  {
    assert PermissionAllows(ALLOWED[0], DeployAction, 0);
  }

  lemma RequestCommits(db: Db)
    requires db.envs == [ENV] && db.users == {1} && db.ops == []
    ensures Execute(db, REQUEST).1.Created? && After(db, REQUEST).setting == db.setting
    ensures var d := After(db, REQUEST);
            |d.ops| == 1 && d.ops[0].provider == Feishu && d.ops[0].conversation != "" && Unfinished(d.ops[0].status)
  {
    assert "registry/" <= "registry/app:1";
    NewRow(db, REQUEST);
  }

  lemma SwitchedState()
    ensures Step(Prepared(), PARSE, Write(2))
            == Server(OnFeishu().(setting := Some(WeCom)), map[1 := Chosen(CALL, REQUEST)], [])
  {
    assert map[1 := Chosen(CALL, REQUEST), 2 := Writing(WeCom)] - {2} == map[1 := Chosen(CALL, REQUEST)];
  }

  lemma CommittedState(db: Db, handlers: map<nat, Stage>)
    requires 1 in handlers && handlers[1] == Chosen(CALL, REQUEST)
    ensures var s := Step(Server(db, handlers, []), PARSE, Commit(1));
            s.db == After(db, REQUEST) && s.handlers == handlers - {1}
  {
  }

  lemma WrittenState(s: Server)
    requires 2 in s.handlers && s.handlers[2] == Writing(WeCom)
    ensures Step(s, PARSE, Write(2)).db == s.db.(setting := Some(WeCom))
  {
  }

  lemma TwoMore(a: Move, b: Move)
    ensures var moves, s := READY + [a, b], Step(Prepared(), PARSE, a);
            && Race(Open({1}, 0), PARSE, moves[..7]) == s
            && Race(Open({1}, 0), PARSE, moves) == Step(s, PARSE, b)
  {
    var moves := READY + [a, b];
    ReadyIsPrepared();
    assert moves[..7] == READY + [a] && moves[..7][..6] == READY && moves[..|moves| - 1] == moves[..7];
  }

  /** The switch writes, then the callback commits. */
  lemma LateCallbackBreaks()
    ensures var moves := READY + [Write(2), Commit(1)];
            !OnActiveProvider(Race(Open({1}, 0), PARSE, moves).db)
  {
    TwoMore(Write(2), Commit(1));
    SwitchedState();
    var switched := OnFeishu().(setting := Some(WeCom));
    CommittedState(switched, map[1 := Chosen(CALL, REQUEST)]);
    RequestCommits(switched);
    assert After(switched, REQUEST).ops[0].provider != Active(After(switched, REQUEST));
  }

  /** The callback commits, on the provider active at that moment, then the switch writes. */
  lemma LateSwitchBreaks()
    ensures var moves := READY + [Commit(1), Write(2)];
            && OnActiveProvider(Race(Open({1}, 0), PARSE, moves[..7]).db)
            && !OnActiveProvider(Race(Open({1}, 0), PARSE, moves).db)
  {
    TwoMore(Commit(1), Write(2));
    RequestCommits(OnFeishu());
    CommittedState(OnFeishu(), map[1 := Chosen(CALL, REQUEST), 2 := Writing(WeCom)]);
    var created := Step(Prepared(), PARSE, Commit(1));
    WrittenState(created);
    assert created.db.(setting := Some(WeCom)).ops[0].provider != WeCom;
  }
}
