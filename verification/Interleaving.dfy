/**
 * The operation-row transactions statement by statement: any number of open transactions, row locks
 * that a second writer waits for or skips, writes only their own transaction sees, and commit or
 * rollback at any point.  The main result is that every interleaving ends in a state, and gives
 * replies, that running each transaction alone would give.
 */
module Interleaving {
  import opened Domain
  import opened Database
  import Evolution
  import History

  type TxnId = nat

  /** An open transaction: its program, the next statement, the locked row and the unpublished writes. */
  datatype Session = Session(
    program: Txn, pc: nat, target: Option<Id>, row: Option<Operation>,
    approvals: seq<Approval>, writes: seq<StatusWrite>, events: seq<Event>, outbox: seq<OutboxRow>)

  datatype Entry = Entry(txn: Txn, reply: Reply)

  /** `log` lists the transactions in the order they ended, with what each returned to its caller. */
  datatype Config = Config(db: Db, locks: map<Id, TxnId>, open: map<TxnId, Session>, log: seq<Entry>)

  datatype Move =
    | Begin(t: TxnId, program: Txn)
    | Advance(t: TxnId)
    | Abort(t: TxnId)
    | Autocommit(txn: Txn)

  predicate IsProgram(t: Txn) {
    t.Decision? || t.Claim? || t.Finish?
  }

  /**
   * Transactions that lock no existing operation row, taken as one step each.  Some are several statements:
   * a request reads an environment, which never changes, inserts its row, and then its event; the
   * outbox claim selects rows and updates them under the locks of its own table.
   */
  predicate IsStatement(t: Txn) {
    t.Request? || t.CreateEnvironment? || (Evolution.LeavesOperationsAlone(t) && !t.SwitchProvider?)
  }

  function Fresh(program: Txn): Session {
    Session(program, 0, None, None, [], [], [], [])
  }

  datatype Progress = Blocked | Continue(s: Session) | Stop(error: Error) | Commit

  /** SELECT ... FOR UPDATE, the two checks, INSERT, UPDATE, and a second UPDATE when approved. */
  function DecisionStatement(c: Config, t: TxnId): Progress
    requires t in c.open && c.open[t].program.Decision?
  {
    var s := c.open[t];
    var p := s.program;
    var to := DecisionStatus(p.decision);
    if s.pc == 0 then
      if p.decision != "approved" && p.decision != "rejected" then Stop(InvalidInput)
      else if p.id >= |c.db.ops| then Stop(NotFound)
      else if p.id in c.locks then Blocked
      else Continue(s.(pc := 1, target := Some(p.id), row := Some(c.db.ops[p.id])))
    else if s.row.None? then Stop(Unavailable)
    else if s.pc == 1 then
      if s.row.value.requester == p.approver then Stop(SelfApproval)
      else if !CanTransitionTo(s.row.value.status, to) then Stop(InvalidState)
      else Continue(s.(pc := 2))
    else if s.pc == 2 then
      var a := Approval(p.id, p.approver, p.decision, p.comment);
      if InsertWaits(c, t, p.id) then Blocked
      else if ApprovalRefusal(c.db, a).Some? then Stop(ApprovalRefusal(c.db, a).value)
      else Continue(s.(pc := 3, approvals := s.approvals + [a]))
    else if s.pc == 3 then
      Continue(s.(pc := 4, row := Some(s.row.value.(status := to)),
                  writes := s.writes + [StatusWrite(p.id, s.row.value.status, to)]))
    else if s.pc == 4 then
      if to == Approved then
        Continue(s.(pc := 5, row := Some(s.row.value.(status := Queued)),
                    writes := s.writes + [StatusWrite(p.id, s.row.value.status, Queued)]))
      else Continue(s.(pc := 5))
    else Commit
  }

  /** A unique index makes an insert wait for another open transaction that inserted the same key. */
  predicate InsertWaits(c: Config, t: TxnId, id: Id) {
    exists u :: u in c.open && u != t && HasApproval(c.open[u].approvals, id)
  }

  /** SELECT ... FOR UPDATE SKIP LOCKED LIMIT 1, then Save, which writes the whole row back. */
  function ClaimStatement(c: Config, t: TxnId): Progress
    requires t in c.open && c.open[t].program.Claim?
  {
    var s := c.open[t];
    if s.pc == 0 then
      match OldestClaimable(c.db.ops, c.db.now, c.locks.Keys, |c.db.ops|)
      case None => Stop(NotFound)
      case Some(i) => Continue(s.(pc := 1, target := Some(i), row := Some(c.db.ops[i])))
    else if s.row.None? || s.target.None? then Stop(Unavailable)
    else if s.pc == 1 then
      Continue(s.(pc := 2, row := Some(s.row.value.(status := Running, claimedBy := Some(s.program.owner))),
                  writes := s.writes + [StatusWrite(s.target.value, s.row.value.status, Running)]))
    else Commit
  }

  /** UPDATE ... WHERE id AND status, which waits only for a row that matches; event; outbox row. */
  function FinishStatement(c: Config, t: TxnId): Progress
    requires t in c.open && c.open[t].program.Finish?
  {
    var s := c.open[t];
    var p := s.program;
    var to := FinalStatus(p.succeeded);
    if s.pc == 0 then
      if p.id >= |c.db.ops| || c.db.ops[p.id].status != Running then Stop(Conflict)
      else if p.id in c.locks then Blocked
      else
        var row := c.db.ops[p.id].(status := to, errorCode := p.code, errorMessage := p.message);
        Continue(s.(pc := 1, target := Some(p.id), row := Some(row),
                    writes := s.writes + [StatusWrite(p.id, c.db.ops[p.id].status, to)]))
    else if s.pc == 1 then Continue(s.(pc := 2, events := s.events + [OperationStatus(p.id, to)]))
    else if s.pc == 2 then
      match NotificationFor(p.id, p.copy, p.text)
      case None => Continue(s.(pc := 3))
      case Some(note) =>
        Continue(s.(pc := 3, outbox := s.outbox +
                      [OutboxRow(p.copy.provider, note.destination, note, 0, ZERO_TIME, None, "", p.at)]))
    else Commit
  }

  function Statement(c: Config, t: TxnId): Progress
    requires t in c.open
  {
    if c.open[t].program.Decision? then DecisionStatement(c, t)
    else if c.open[t].program.Claim? then ClaimStatement(c, t)
    else if c.open[t].program.Finish? then FinishStatement(c, t)
    else Stop(Unavailable)
  }

  function Close(c: Config, t: TxnId): Config {
    c.(open := c.open - {t}, locks := map i | i in c.locks && c.locks[i] != t :: c.locks[i])
  }

  /** Commit makes the private writes visible. */
  function Publish(db: Db, s: Session): Db {
    db.(ops := if s.target.Some? && s.row.Some? && s.target.value < |db.ops|
               then db.ops[s.target.value := s.row.value] else db.ops,
        approvals := db.approvals + s.approvals, writes := db.writes + s.writes,
        events := db.events + s.events, outbox := db.outbox + s.outbox)
  }

  /** The claimable rows created no later than row `i`: what a claim of row `i` passes over. */
  function PassedOver(db: Db, i: Id): set<Id> {
    set j: nat | j < |db.ops| && i < |db.ops| && j != i
                 && Claimable(db.ops[j], db.now) && db.ops[j].createdAt <= db.ops[i].createdAt
  }

  /** A claim's transaction names the rows it did not take: those locked, or those it passed over. */
  function Attempted(c: Config, s: Session): Txn {
    if s.program.Claim? then
      Claim(s.program.owner, if s.target.None? then c.locks.Keys else PassedOver(c.db, s.target.value))
    else s.program
  }

  function CommitReply(s: Session): Reply {
    if s.program.Claim? && s.target.Some? && s.row.Some? then Claimed(s.target.value, s.row.value) else Done
  }

  function Step(c: Config, m: Move): Config {
    match m
    case Begin(t, program) =>
      if t in c.open || !IsProgram(program) then c else c.(open := c.open[t := Fresh(program)])
    case Abort(t) => Close(c, t)
    case Autocommit(txn) =>
      if !IsStatement(txn) then c
      else c.(db := After(c.db, txn), log := c.log + [Entry(txn, Execute(c.db, txn).1)])
    case Advance(t) =>
      if t !in c.open then c
      else
        var s := c.open[t];
        match Statement(c, t)
        case Blocked => c
        case Continue(s') =>
          c.(open := c.open[t := s'], locks := if s'.target.Some? then c.locks[s'.target.value := t] else c.locks)
        case Stop(error) => Close(c, t).(log := c.log + [Entry(Attempted(c, s), Failure(error))])
        case Commit => Close(c, t).(db := Publish(c.db, s), log := c.log + [Entry(Attempted(c, s), CommitReply(s))])
  }

  function Start(db: Db): Config {
    Config(db, map[], map[], [])
  }

  function Interleave(db: Db, moves: seq<Move>): Config {
    if moves == [] then Start(db) else Step(Interleave(db, moves[..|moves| - 1]), moves[|moves| - 1])
  }

  // ---------- what an open transaction knows ----------

  function LastPc(p: Txn): nat {
    if p.Decision? then 5 else if p.Claim? then 2 else 3
  }

  /**
   * The session that holds row `i`, as a function of the committed row `o`.  Because nobody else may
   * write the row, it stays this function of whatever is committed there.
   */
  function Ahead(p: Txn, i: Id, o: Operation, pc: nat): Session {
    if p.Decision? then
      var to := DecisionStatus(p.decision);
      var first := [StatusWrite(i, o.status, to)];
      Session(p, pc, Some(i),
              Some(if pc < 4 then o else if pc == 4 || to != Approved then o.(status := to) else o.(status := Queued)),
              if pc < 3 then [] else [Approval(p.id, p.approver, p.decision, p.comment)],
              if pc < 4 then [] else if pc == 4 || to != Approved then first
              else first + [StatusWrite(i, Approved, Queued)],
              [], [])
    else if p.Claim? then
      Session(p, pc, Some(i), Some(if pc < 2 then o else o.(status := Running, claimedBy := Some(p.owner))),
              [], if pc < 2 then [] else [StatusWrite(i, o.status, Running)], [], [])
    else if p.Finish? then
      var to := FinalStatus(p.succeeded);
      Session(p, pc, Some(i), Some(o.(status := to, errorCode := p.code, errorMessage := p.message)),
              [], [StatusWrite(i, o.status, to)], if pc < 2 then [] else [OperationStatus(i, to)],
              if pc < 3 then []
              else match NotificationFor(p.id, p.copy, p.text)
                   case None => []
                   case Some(note) =>
                     [OutboxRow(p.copy.provider, note.destination, note, 0, ZERO_TIME, None, "", p.at)])
    else Fresh(p)
  }

  /** What the statements already executed have checked, and still holds of the committed state. */
  ghost predicate Checked(db: Db, p: Txn, i: Id, pc: nat)
    requires i < |db.ops|
  {
    match p
    case Decision(id, approver, decision, comment) =>
      && id == i && decision in {"approved", "rejected"}
      && (pc >= 2 ==> db.ops[i].requester != approver && CanTransitionTo(db.ops[i].status, DecisionStatus(decision)))
      && (pc >= 3 ==> ApprovalRefusal(db, Approval(id, approver, decision, comment)).None?)
    case Claim(_, _) => Claimable(db.ops[i], db.now)
    case Finish(id, _, _, _, _, _, _) => id == i && db.ops[i].status == Running
    case _ => false
  }

  ghost predicate SessionSound(db: Db, s: Session) {
    && IsProgram(s.program)
    && if s.target.None? then s == Fresh(s.program)
       else
         var i := s.target.value;
         && i < |db.ops| && 1 <= s.pc <= LastPc(s.program)
         && s == Ahead(s.program, i, db.ops[i], s.pc)
         && Checked(db, s.program, i, s.pc)
  }

  ghost predicate LocksSound(c: Config) {
    && (forall t :: t in c.open && c.open[t].target.Some? ==>
          c.open[t].target.value in c.locks && c.locks[c.open[t].target.value] == t)
    && (forall i :: i in c.locks ==> c.locks[i] in c.open && c.open[c.locks[i]].target == Some(i))
  }

  function Programs(log: seq<Entry>): seq<Txn> {
    seq(|log|, i requires 0 <= i < |log| => log[i].txn)
  }

  ghost predicate Answers(db: Db, before: seq<Txn>, e: Entry) {
    Execute(Run(db, before), e.txn).1 == e.reply
  }

  /** Every entry's reply is the one its transaction gives when run alone after the entries before it. */
  ghost predicate Replays(db: Db, log: seq<Entry>) {
    forall k :: 0 <= k < |log| ==> Answers(db, Programs(log)[..k], log[k])
  }

  ghost predicate Serialized(start: Db, c: Config) {
    c.db == Run(start, Programs(c.log)) && Replays(start, c.log)
  }

  ghost predicate Inv(start: Db, c: Config) {
    && Serialized(start, c)
    && LocksSound(c)
    && forall t :: t in c.open ==> SessionSound(c.db, c.open[t])
  }

  // ---------- the steps keep it ----------

  lemma LogEntry(start: Db, c: Config, txn: Txn, reply: Reply, d: Db)
    requires Serialized(start, c) && Execute(c.db, txn).0 == d && Execute(c.db, txn).1 == reply
    ensures Run(start, Programs(c.log + [Entry(txn, reply)])) == d
    ensures Replays(start, c.log + [Entry(txn, reply)])
  {
    var log := c.log + [Entry(txn, reply)];
    assert Programs(log) == Programs(c.log) + [txn];
    Evolution.RunAppend(start, Programs(c.log), txn);
    forall k | 0 <= k < |log| ensures Answers(start, Programs(log)[..k], log[k]) {
      if k < |c.log| {
        assert Programs(log)[..k] == Programs(c.log)[..k];
      } else {
        assert Programs(log)[..k] == Programs(c.log);
      }
    }
  }

  /** A session does not notice changes to other rows, or approvals of other operations. */
  lemma SessionFrame(db: Db, d: Db, s: Session)
    requires SessionSound(db, s)
    requires d.users == db.users && db.now <= d.now
    requires s.target.Some? ==>
               && s.target.value < |d.ops| && d.ops[s.target.value] == db.ops[s.target.value]
               && HasApproval(d.approvals, s.target.value) == HasApproval(db.approvals, s.target.value)
    ensures SessionSound(d, s)
  {
  }

  lemma DecisionContinues(c: Config, t: TxnId)
    requires t in c.open && SessionSound(c.db, c.open[t]) && c.open[t].program.Decision?
    requires DecisionStatement(c, t).Continue?
    ensures SessionSound(c.db, DecisionStatement(c, t).s)
  {
  }

  lemma ClaimContinues(c: Config, t: TxnId)
    requires t in c.open && SessionSound(c.db, c.open[t]) && c.open[t].program.Claim?
    requires ClaimStatement(c, t).Continue?
    ensures SessionSound(c.db, ClaimStatement(c, t).s)
  {
  }

  lemma FinishContinues(c: Config, t: TxnId)
    requires t in c.open && SessionSound(c.db, c.open[t]) && c.open[t].program.Finish?
    requires FinishStatement(c, t).Continue?
    ensures SessionSound(c.db, FinishStatement(c, t).s)
  {
  }

  /** A statement only ever locks a row nobody else holds, and never lets go of one. */
  lemma LocksGrow(c: Config, t: TxnId)
    requires t in c.open && LocksSound(c) && SessionSound(c.db, c.open[t]) && Statement(c, t).Continue?
    ensures var s := c.open[t]; var s' := Statement(c, t).s;
            && s'.target.Some?
            && (if s.target.Some? then s'.target == s.target else s'.target.value !in c.locks)
  {
  }

  lemma ContinuedSessionIsSound(c: Config, t: TxnId)
    requires t in c.open && SessionSound(c.db, c.open[t]) && Statement(c, t).Continue?
    ensures SessionSound(c.db, Statement(c, t).s)
  {
    var s := c.open[t];
    if s.program.Decision? { DecisionContinues(c, t); }
    else if s.program.Claim? { ClaimContinues(c, t); }
    else { FinishContinues(c, t); }
  }

  lemma InstallKeepsInv(start: Db, c: Config, t: TxnId, s: Session)
    requires Inv(start, c) && t in c.open && SessionSound(c.db, s) && s.target.Some?
    requires if c.open[t].target.Some? then s.target == c.open[t].target else s.target.value !in c.locks
    ensures Inv(start, c.(open := c.open[t := s], locks := c.locks[s.target.value := t]))
  {
    var d := c.(open := c.open[t := s], locks := c.locks[s.target.value := t]);
    assert Serialized(start, d);
    forall u | u in d.open ensures SessionSound(d.db, d.open[u]) {
      assert u != t ==> SessionSound(c.db, c.open[u]);
    }
    InstallKeepsLocks(c, t, s);
  }

  lemma InstallKeepsLocks(c: Config, t: TxnId, s: Session)
    requires LocksSound(c) && t in c.open && s.target.Some?
    requires if c.open[t].target.Some? then s.target == c.open[t].target else s.target.value !in c.locks
    ensures LocksSound(c.(open := c.open[t := s], locks := c.locks[s.target.value := t]))
  {
  }

  lemma ContinueKeepsInv(start: Db, c: Config, t: TxnId)
    requires Inv(start, c) && t in c.open && Statement(c, t).Continue?
    ensures Inv(start, Step(c, Advance(t)))
  {
    ContinuedSessionIsSound(c, t);
    LocksGrow(c, t);
    InstallKeepsInv(start, c, t, Statement(c, t).s);
  }

  lemma DecisionCommits(db: Db, s: Session)
    requires SessionSound(db, s) && s.program.Decision? && s.pc == 5
    ensures Execute(db, s.program) == (Publish(db, s), Done)
  {
    var p := s.program;
    var i := p.id;
    var a := Approval(p.id, p.approver, p.decision, p.comment);
    var to := DecisionStatus(p.decision);
    assert ApprovalRefusal(db, a).None?;
    var d := SetStatus(db.(approvals := db.approvals + [a]), i, to);
    if to == Approved {
      assert SetStatus(d, i, Queued).ops == db.ops[i := db.ops[i].(status := Queued)];
      assert SetStatus(d, i, Queued).writes == db.writes + s.writes;
    }
    assert db.events + [] == db.events && db.outbox + [] == db.outbox;
  }

  /** The row a claim holds is the oldest but for those it passed over. */
  lemma OldestOfTheRest(db: Db, i: Id)
    requires i < |db.ops| && Claimable(db.ops[i], db.now)
    ensures OldestClaimable(db.ops, db.now, PassedOver(db, i), |db.ops|) == Some(i)
  {
    var r := OldestClaimable(db.ops, db.now, PassedOver(db, i), |db.ops|);
    assert i !in PassedOver(db, i);
    assert r.Some? && r.value !in PassedOver(db, i);
  }

  lemma ClaimCommits(c: Config, s: Session)
    requires SessionSound(c.db, s) && s.program.Claim? && s.pc == 2
    ensures Execute(c.db, Attempted(c, s)) == (Publish(c.db, s), CommitReply(s))
  {
    var db, i := c.db, s.target.value;
    OldestOfTheRest(db, i);
    assert ClaimRow(db, i, s.program.owner).ops == db.ops[i := s.row.value];
    assert db.events + [] == db.events && db.outbox + [] == db.outbox && db.approvals + [] == db.approvals;
  }

  lemma FinishCommits(db: Db, s: Session)
    requires SessionSound(db, s) && s.program.Finish? && s.pc == 3
    ensures Execute(db, s.program) == (Publish(db, s), Done)
  {
    Evolution.FinishEffect(db, s.program);
    assert db.approvals + [] == db.approvals;
  }

  lemma CommitIsExecute(c: Config, t: TxnId)
    requires t in c.open && SessionSound(c.db, c.open[t]) && Statement(c, t).Commit?
    ensures Execute(c.db, Attempted(c, c.open[t])) == (Publish(c.db, c.open[t]), CommitReply(c.open[t]))
  {
    var s := c.open[t];
    if s.program.Decision? { DecisionCommits(c.db, s); }
    else if s.program.Claim? { ClaimCommits(c, s); }
    else { FinishCommits(c.db, s); }
  }

  /** A transaction that stops with an error would have stopped with it alone. */
  lemma StopIsExecute(c: Config, t: TxnId)
    requires t in c.open && SessionSound(c.db, c.open[t]) && Statement(c, t).Stop?
    ensures Execute(c.db, Attempted(c, c.open[t])) == (c.db, Failure(Statement(c, t).error))
  {
    var s := c.open[t];
    if s.program.Finish? {
      Evolution.FinishEffect(c.db, s.program);
    }
  }

  lemma CloseKeepsLocks(c: Config, t: TxnId)
    requires LocksSound(c)
    ensures LocksSound(Close(c, t))
  {
  }

  lemma AppendedApprovals(approvals: seq<Approval>, more: seq<Approval>, id: Id)
    requires forall k :: 0 <= k < |more| ==> more[k].operation != id
    ensures HasApproval(approvals + more, id) ==> HasApproval(approvals, id)
  {
    forall k | |approvals| <= k < |approvals + more| ensures (approvals + more)[k].operation != id {
      assert (approvals + more)[k] == more[k - |approvals|];
    }
  }

  /** Publishing one session leaves every other session's row and approvals as they were. */
  lemma PublishKeepsOthers(c: Config, t: TxnId, u: TxnId)
    requires LocksSound(c) && t in c.open && u in c.open && u != t
    requires SessionSound(c.db, c.open[t]) && SessionSound(c.db, c.open[u])
    ensures SessionSound(Publish(c.db, c.open[t]), c.open[u])
  {
    var s, v := c.open[t], c.open[u];
    var d := Publish(c.db, s);
    if v.target.Some? {
      var i := v.target.value;
      assert s.target != Some(i);
      assert forall k :: 0 <= k < |s.approvals| ==> s.approvals[k].operation != i;
      if HasApproval(c.db.approvals, i) {
        var k :| 0 <= k < |c.db.approvals| && c.db.approvals[k].operation == i;
        assert d.approvals[k].operation == i;
      }
      AppendedApprovals(c.db.approvals, s.approvals, i);
    }
    SessionFrame(c.db, d, v);
  }

  lemma CommitIsSerialized(start: Db, c: Config, t: TxnId)
    requires Inv(start, c) && t in c.open && Statement(c, t).Commit?
    ensures var s := c.open[t];
            Serialized(start, c.(db := Publish(c.db, s), log := c.log + [Entry(Attempted(c, s), CommitReply(s))]))
  {
    CommitIsExecute(c, t);
    LogEntry(start, c, Attempted(c, c.open[t]), CommitReply(c.open[t]), Publish(c.db, c.open[t]));
  }

  lemma PublishKeepsInv(start: Db, c: Config, t: TxnId, log: seq<Entry>)
    requires Inv(start, c) && t in c.open && Serialized(start, c.(db := Publish(c.db, c.open[t]), log := log))
    ensures Inv(start, Close(c, t).(db := Publish(c.db, c.open[t]), log := log))
  {
    CloseKeepsLocks(c, t);
    forall u | u in c.open && u != t ensures SessionSound(Publish(c.db, c.open[t]), c.open[u]) {
      PublishKeepsOthers(c, t, u);
    }
  }

  lemma CommitMove(c: Config, t: TxnId)
    requires t in c.open && Statement(c, t).Commit?
    ensures var s := c.open[t];
            Step(c, Advance(t))
            == Close(c, t).(db := Publish(c.db, s), log := c.log + [Entry(Attempted(c, s), CommitReply(s))])
  {
  }

  lemma CommitKeepsInv(start: Db, c: Config, t: TxnId)
    requires Inv(start, c) && t in c.open && Statement(c, t).Commit?
    ensures Inv(start, Step(c, Advance(t)))
  {
    CommitIsSerialized(start, c, t);
    PublishKeepsInv(start, c, t, c.log + [Entry(Attempted(c, c.open[t]), CommitReply(c.open[t]))]);
    CommitMove(c, t);
  }

  lemma StopIsSerialized(start: Db, c: Config, t: TxnId)
    requires Inv(start, c) && t in c.open && Statement(c, t).Stop?
    ensures Serialized(start, c.(log := c.log + [Entry(Attempted(c, c.open[t]), Failure(Statement(c, t).error))]))
  {
    StopIsExecute(c, t);
    LogEntry(start, c, Attempted(c, c.open[t]), Failure(Statement(c, t).error), c.db);
  }

  lemma StopKeepsInv(start: Db, c: Config, t: TxnId)
    requires Inv(start, c) && t in c.open && Statement(c, t).Stop?
    ensures Inv(start, Step(c, Advance(t)))
  {
    StopIsSerialized(start, c, t);
    CloseKeepsLocks(c, t);
  }

  /** A single statement leaves the existing rows, the users and the approvals as they are. */
  lemma StatementEffect(db: Db, txn: Txn)
    requires IsStatement(txn)
    ensures var d := After(db, txn);
            && d.users == db.users && db.now <= d.now && d.approvals == db.approvals
            && |db.ops| <= |d.ops| && forall i :: 0 <= i < |db.ops| ==> d.ops[i] == db.ops[i]
  {
    var d := After(db, txn);
    if txn.Request? {
      Evolution.RequestEvolves(db, txn);
      assert forall i :: 0 <= i < |db.ops| ==> d.ops[..|db.ops|][i] == d.ops[i];
    } else if txn.CreateEnvironment? {
      Evolution.CreateEnvironmentEvolves(db, txn);
    } else {
      Evolution.OtherEvolves(db, txn);
    }
  }

  lemma AutocommitKeepsInv(start: Db, c: Config, txn: Txn)
    requires Inv(start, c) && IsStatement(txn)
    ensures Inv(start, Step(c, Autocommit(txn)))
  {
    var d := After(c.db, txn);
    LogEntry(start, c, txn, Execute(c.db, txn).1, d);
    StatementKeepsSessions(c, txn);
  }

  lemma StatementKeepsSessions(c: Config, txn: Txn)
    requires IsStatement(txn) && forall u :: u in c.open ==> SessionSound(c.db, c.open[u])
    ensures forall u :: u in c.open ==> SessionSound(After(c.db, txn), c.open[u])
  {
    StatementEffect(c.db, txn);
    forall u | u in c.open ensures SessionSound(After(c.db, txn), c.open[u]) {
      SessionFrame(c.db, After(c.db, txn), c.open[u]);
    }
  }

  lemma BeginKeepsInv(start: Db, c: Config, m: Move)
    requires Inv(start, c) && m.Begin?
    ensures Inv(start, Step(c, m))
  {
  }

  lemma AbortKeepsInv(start: Db, c: Config, m: Move)
    requires Inv(start, c) && m.Abort?
    ensures Inv(start, Step(c, m))
  {
    CloseKeepsLocks(c, m.t);
  }

  lemma AdvanceKeepsInv(start: Db, c: Config, m: Move)
    requires Inv(start, c) && m.Advance?
    ensures Inv(start, Step(c, m))
  {
    if m.t in c.open {
      if Statement(c, m.t).Continue? { ContinueKeepsInv(start, c, m.t); }
      else if Statement(c, m.t).Commit? { CommitKeepsInv(start, c, m.t); }
      else if Statement(c, m.t).Stop? { StopKeepsInv(start, c, m.t); }
    }
  }

  lemma StepKeepsInv(start: Db, c: Config, m: Move)
    requires Inv(start, c)
    ensures Inv(start, Step(c, m))
  {
    if m.Begin? {
      BeginKeepsInv(start, c, m);
    } else if m.Abort? {
      AbortKeepsInv(start, c, m);
    } else if m.Advance? {
      AdvanceKeepsInv(start, c, m);
    } else if IsStatement(m.txn) {
      AutocommitKeepsInv(start, c, m.txn);
    }
  }

  lemma {:induction false} InterleavingsKeepInv(start: Db, moves: seq<Move>)
    ensures Inv(start, Interleave(start, moves))
  {
    if moves != [] {
      InterleavingsKeepInv(start, moves[..|moves| - 1]);
      StepKeepsInv(start, Interleave(start, moves[..|moves| - 1]), moves[|moves| - 1]);
    }
  }

  // ---------- the results ----------

  /**
   * Refinement.  Whatever the interleaving, the committed state is the one reached by running the
   * ended transactions one at a time in the order they ended, and each returned what it
   * returns there.
   */
  lemma {:induction false} InterleavingsAreSerializable(start: Db, moves: seq<Move>)
    ensures var c := Interleave(start, moves);
            c.db == Run(start, Programs(c.log)) && Replays(start, c.log)
  {
    InterleavingsKeepInv(start, moves);
  }

  /** So no other transaction ever sees `approved`, and the approval table is exact at every commit. */
  lemma InterleavingsAreSound(users: set<Id>, now: nat, moves: seq<Move>)
    ensures History.Sound(Interleave(EmptyDb(users, now), moves).db)
  {
    var start := EmptyDb(users, now);
    InterleavingsAreSerializable(start, moves);
    History.RunsAreSound(users, now, Programs(Interleave(start, moves).log));
  }

  /** The row lock already keeps two decisions on one operation apart. */
  lemma InsertNeverWaits(start: Db, c: Config, t: TxnId)
    requires Inv(start, c) && t in c.open && c.open[t].target.Some? && c.open[t].program.Decision?
    ensures !InsertWaits(c, t, c.open[t].program.id)
  {
  }

  /** Past its first statement a transaction can only wait for another's insert. */
  lemma StartedRuns(c: Config, t: TxnId)
    requires t in c.open && c.open[t].pc > 0
    requires c.open[t].program.Decision? ==> !InsertWaits(c, t, c.open[t].program.id)
    ensures !Statement(c, t).Blocked?
  {
  }

  lemma HolderRuns(start: Db, c: Config, t: TxnId)
    requires Inv(start, c) && t in c.open && c.open[t].target.Some?
    ensures !Statement(c, t).Blocked?
  {
    assert SessionSound(c.db, c.open[t]);
    if c.open[t].program.Decision? {
      InsertNeverWaits(start, c, t);
    }
    StartedRuns(c, t);
  }

  /** No deadlock: a transaction waits only for one that can take its next statement. */
  lemma WaitingEndsAtARunner(start: Db, moves: seq<Move>, t: TxnId)
    requires t in Interleave(start, moves).open && Statement(Interleave(start, moves), t).Blocked?
    ensures var c := Interleave(start, moves);
            var p := c.open[t].program;
            && c.open[t].pc == 0 && (p.Decision? || p.Finish?) && p.id in c.locks
            && c.locks[p.id] in c.open && !Statement(c, c.locks[p.id]).Blocked?
  {
    var c := Interleave(start, moves);
    InterleavingsKeepInv(start, moves);
    if c.open[t].target.Some? {
      HolderRuns(start, c, t);
    }
    HolderRuns(start, c, c.locks[c.open[t].program.id]);
  }

  /** FOR UPDATE SKIP LOCKED hands each operation to at most one claim, over any interleaving. */
  lemma EachOperationIsClaimedOnce(start: Db, moves: seq<Move>, j: nat, k: nat)
    requires j < k < |Interleave(start, moves).log|
    requires var log := Interleave(start, moves).log; log[j].reply.Claimed? && log[k].reply.Claimed?
    ensures var log := Interleave(start, moves).log; log[j].reply.id != log[k].reply.id
  {
    var log := Interleave(start, moves).log;
    InterleavingsAreSerializable(start, moves);
    assert Answers(start, Programs(log)[..j], log[j]) && Answers(start, Programs(log)[..k], log[k]);
    SerialClaimsDiffer(start, Programs(log), j, k);
  }

  lemma SerialClaimsDiffer(start: Db, ts: seq<Txn>, j: nat, k: nat)
    requires j < k < |ts|
    requires Execute(Run(start, ts[..j]), ts[j]).1.Claimed? && Execute(Run(start, ts[..k]), ts[k]).1.Claimed?
    ensures Execute(Run(start, ts[..j]), ts[j]).1.id != Execute(Run(start, ts[..k]), ts[k]).1.id
  {
    var before, later, between := Run(start, ts[..j]), Run(start, ts[..k]), ts[j + 1..k];
    ClaimReplyMeans(before, ts[j]);
    ClaimReplyMeans(later, ts[k]);
    LaterState(start, ts, j, k);
    RunningIsNeverQueuedAgain(After(before, ts[j]), between, Execute(before, ts[j]).1.id);
  }

  lemma LaterState(start: Db, ts: seq<Txn>, j: nat, k: nat)
    requires j < k < |ts|
    ensures Run(start, ts[..k]) == Run(After(Run(start, ts[..j]), ts[j]), ts[j + 1..k])
  {
    assert ts[..k] == ts[..j] + [ts[j]] + ts[j + 1..k];
    RunOfThree(start, ts[..k], ts[..j], ts[j], ts[j + 1..k]);
  }

  lemma RunOfThree(start: Db, ts: seq<Txn>, a: seq<Txn>, t: Txn, b: seq<Txn>)
    requires ts == a + [t] + b
    ensures Run(start, ts) == Run(After(Run(start, a), t), b)
  {
    Evolution.RunSplits(start, a + [t], b);
    Evolution.RunAppend(start, a, t);
  }

  lemma RunningIsNeverQueuedAgain(db: Db, ts: seq<Txn>, id: Id)
    requires id < |db.ops| && db.ops[id].status == Running
    ensures id < |Run(db, ts).ops| && Run(db, ts).ops[id].status != Queued
  {
    Evolution.RunDescends(db, ts);
  }

  lemma ClaimReplyMeans(db: Db, t: Txn)
    requires Execute(db, t).1.Claimed?
    ensures var id := Execute(db, t).1.id;
            id < |db.ops| && db.ops[id].status == Queued
            && id < |After(db, t).ops| && After(db, t).ops[id].status == Running
            && After(db, t).ops[id] == Execute(db, t).1.row
  {
  }

  // ---------- which rows a claim passes over ----------

  lemma StepAppends(c: Config, m: Move)
    ensures c.log <= Step(c, m).log
  {
  }

  lemma OneMoreMove(start: Db, all: seq<Move>, before: seq<Move>, m: Move)
    requires all == before + [m]
    ensures Interleave(start, all) == Step(Interleave(start, before), m)
  {
    assert all[..|all| - 1] == before;
  }

  lemma PrefixGrows(moves: seq<Move>, later: seq<Move>, k: nat)
    requires k < |later|
    ensures moves + later[..k + 1] == moves + later[..k] + [later[k]]
  {
  }

  /** The state after `k + 1` of the later moves. */
  lemma MoveAt(start: Db, moves: seq<Move>, later: seq<Move>, k: nat)
    requires k < |later|
    ensures Interleave(start, moves + later[..k + 1]) == Step(Interleave(start, moves + later[..k]), later[k])
  {
    PrefixGrows(moves, later, k);
    OneMoreMove(start, moves + later[..k + 1], moves + later[..k], later[k]);
  }

  lemma {:induction false} LogGrowsTo(start: Db, moves: seq<Move>, later: seq<Move>, k: nat)
    requires k <= |later|
    ensures Interleave(start, moves).log <= Interleave(start, moves + later[..k]).log
  {
    if k == 0 {
      assert moves + later[..0] == moves;
    } else {
      LogGrowsTo(start, moves, later, k - 1);
      MoveAt(start, moves, later, k - 1);
      StepAppends(Interleave(start, moves + later[..k - 1]), later[k - 1]);
    }
  }

  lemma LogGrows(start: Db, moves: seq<Move>, later: seq<Move>)
    ensures Interleave(start, moves).log <= Interleave(start, moves + later).log
  {
    LogGrowsTo(start, moves, later, |later|);
    assert later[..|later|] == later;
  }

  lemma ProgramsSplit(a: seq<Entry>, b: seq<Entry>)
    requires a <= b
    ensures Programs(b) == Programs(a) + Programs(b[|a|..])
  {
  }

  /** Of two serialized states with one log behind the other, the later one is a run from the earlier. */
  lemma LaterRuns(start: Db, c: Config, d: Config)
    requires Serialized(start, c) && Serialized(start, d) && c.log <= d.log
    ensures d.db == Run(c.db, Programs(d.log[|c.log|..]))
  {
    ProgramsSplit(c.log, d.log);
    RunOfTwo(start, Programs(d.log), Programs(c.log), Programs(d.log[|c.log|..]));
  }

  lemma RunOfTwo(start: Db, ts: seq<Txn>, a: seq<Txn>, b: seq<Txn>)
    requires ts == a + b
    ensures Run(start, ts) == Run(Run(start, a), b)
  {
    Evolution.RunSplits(start, a, b);
  }

  /** What the rows of an earlier state have become in a later one. */
  lemma LaterDescends(start: Db, moves: seq<Move>, later: seq<Move>)
    ensures Evolution.Descends(Interleave(start, moves).db, Interleave(start, moves + later).db)
  {
    var c, d := Interleave(start, moves), Interleave(start, moves + later);
    LogGrows(start, moves, later);
    InterleavingsAreSerializable(start, moves);
    InterleavingsAreSerializable(start, moves + later);
    SerializedDescends(start, c, d);
  }

  lemma SerializedDescends(start: Db, c: Config, d: Config)
    requires Serialized(start, c) && Serialized(start, d) && c.log <= d.log
    ensures Evolution.Descends(c.db, d.db)
  {
    LaterRuns(start, c, d);
    Evolution.RunDescends(c.db, Programs(d.log[|c.log|..]));
  }

  /**
   * A claim that selected row `i` passes over an older claimable row `j`, at whatever time it commits, only if `j`
   * was locked when it selected, or was not there or not claimable then.
   */
  lemma ClaimsPassOverLockedRows(start: Db, moves: seq<Move>, later: seq<Move>, t: TxnId, i: Id, j: Id)
    requires var c := Interleave(start, moves);
             && t in c.open && c.open[t].program.Claim? && c.open[t].pc == 0
             && OldestClaimable(c.db.ops, c.db.now, c.locks.Keys, |c.db.ops|) == Some(i)
    requires var d := Interleave(start, moves + later);
             i < |d.db.ops| && j in PassedOver(d.db, i) && d.db.ops[j].createdAt < d.db.ops[i].createdAt
    ensures var c := Interleave(start, moves);
            && Statement(c, t).Continue? && Statement(c, t).s.target == Some(i)
            && (j in c.locks || j >= |c.db.ops| || !Claimable(c.db.ops[j], c.db.now))
  {
    LaterDescends(start, moves, later);
    PassesOverLocked(Interleave(start, moves), Interleave(start, moves + later).db, t, i, j);
  }

  lemma PassesOverLocked(c: Config, d: Db, t: TxnId, i: Id, j: Id)
    requires t in c.open && c.open[t].program.Claim? && c.open[t].pc == 0 && Evolution.Descends(c.db, d)
    requires OldestClaimable(c.db.ops, c.db.now, c.locks.Keys, |c.db.ops|) == Some(i)
    requires i < |d.ops| && j in PassedOver(d, i) && d.ops[j].createdAt < d.ops[i].createdAt
    ensures Statement(c, t).Continue? && Statement(c, t).s.target == Some(i)
    ensures j in c.locks || j >= |c.db.ops| || !Claimable(c.db.ops[j], c.db.now)
  {
  }
}
