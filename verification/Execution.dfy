/**
 * The whole system: the database, any number of workers that can crash between any two statements,
 * and the log of the calls that reach Kubernetes.
 */
module Execution {
  import opened Domain
  import opened Database
  import opened History
  import Evolution

  /** A call to Kubernetes, and how it ended. */
  datatype Call = Call(id: Id, kind: Kind, env: Environment, image: string, revision: int, ok: bool)

  /** Where a worker is inside one turn of its loop. */
  datatype Phase = Idle | Holding(id: Id, copy: Operation) | Performed(id: Id, copy: Operation, ok: bool)

  datatype System = System(db: Db, workers: map<nat, Phase>, calls: seq<Call>)

  /**
   * `answered` and `committed` are false when the connection drops: the claim may have committed
   * without the worker learning of it, the finish may not commit.  `envRead` and `ok` are
   * the outcomes of reading the environment and of the Kubernetes call.
   */
  datatype Act =
    | Transact(t: Txn)
    | Take(w: nat, owner: string, skip: set<Id>, answered: bool)
    | Perform(w: nat, envRead: bool, ok: bool)
    | Report(w: nat, message: string, text: string, at: nat, committed: bool)
    | Crash(w: nat)

  function PhaseOf(s: System, w: nat): Phase {
    if w in s.workers then s.workers[w] else Idle
  }

  function ReportTxn(p: Phase, message: string, text: string, at: nat): Txn
    requires p.Performed?
  {
    Finish(p.id, p.copy, p.ok, if p.ok then "" else "kubernetes_failed", if p.ok then "" else message, text, at)
  }

  function Apply(s: System, a: Act): System {
    match a
    case Transact(t) => if t.Claim? || t.Finish? then s else s.(db := After(s.db, t))
    case Take(w, owner, skip, answered) =>
      if !PhaseOf(s, w).Idle? then s
      else
        var (d, r) := Execute(s.db, Claim(owner, skip));
        System(d, if r.Claimed? && answered then s.workers[w := Holding(r.id, r.row)] else s.workers, s.calls)
    case Perform(w, envRead, ok) =>
      var p := PhaseOf(s, w);
      if !p.Holding? then s
      else if !envRead || p.copy.env >= |s.db.envs| then s.(workers := s.workers[w := Performed(p.id, p.copy, false)])
      else s.(workers := s.workers[w := Performed(p.id, p.copy, ok)],
              calls := s.calls + [Call(p.id, p.copy.kind, s.db.envs[p.copy.env], p.copy.image, p.copy.revision, ok)])
    case Report(w, message, text, at, committed) =>
      var p := PhaseOf(s, w);
      if !p.Performed? then s
      else
        var d := if committed then After(s.db, ReportTxn(p, message, text, at)) else s.db;
        System(d, s.workers[w := Idle], s.calls)
    case Crash(w) => s.(workers := s.workers[w := Idle])
  }

  function Start(users: set<Id>, now: nat): System {
    System(EmptyDb(users, now), map[], [])
  }

  function Exec(s: System, acts: seq<Act>): System {
    if acts == [] then s else Apply(Exec(s, acts[..|acts| - 1]), acts[|acts| - 1])
  }

  // ---------- the invariant ----------

  /** A busy worker holds a running row, still as it read it. */
  ghost predicate HoldsRow(db: Db, p: Phase) {
    p.Idle? || (p.id < |db.ops| && db.ops[p.id] == p.copy && p.copy.status == Running)
  }

  /** No two busy workers hold the same row. */
  ghost predicate WorkersSound(db: Db, workers: map<nat, Phase>) {
    && (forall w :: w in workers ==> HoldsRow(db, workers[w]))
    && (forall v, w :: v in workers && w in workers && v != w && !workers[v].Idle? && !workers[w].Idle? ==>
          workers[v].id != workers[w].id)
  }

  ghost predicate CallSound(db: Db, c: Call) {
    && c.id < |db.ops|
    && db.ops[c.id].status in {Running, Succeeded, Failed}
    && db.ops[c.id].kind == c.kind && db.ops[c.id].image == c.image && db.ops[c.id].revision == c.revision
    && db.ops[c.id].env < |db.envs| && db.envs[db.ops[c.id].env] == c.env
  }

  ghost predicate NotCalled(calls: seq<Call>, id: Id) {
    forall k :: 0 <= k < |calls| ==> calls[k].id != id
  }

  /** Each call matches its operation, no operation has two, and a worker about to call has none yet. */
  ghost predicate CallsSound(db: Db, workers: map<nat, Phase>, calls: seq<Call>) {
    && (forall k :: 0 <= k < |calls| ==> CallSound(db, calls[k]))
    && (forall j, k :: 0 <= j < k < |calls| ==> calls[j].id != calls[k].id)
    && (forall w :: w in workers && workers[w].Holding? ==> NotCalled(calls, workers[w].id))
  }

  predicate Notifiable(o: Operation) {
    Finished(o.status) && o.conversation != "" && o.provider != Web
  }

  ghost predicate RowAnswers(db: Db, r: OutboxRow) {
    && r.note.operation < |db.ops|
    && Notifiable(db.ops[r.note.operation])
    && r.provider == db.ops[r.note.operation].provider
    && r.destination == r.note.destination == db.ops[r.note.operation].conversation
  }

  /** Outbox rows and finished, notifiable operations correspond one to one. */
  ghost predicate OutboxExact(db: Db) {
    && (forall r :: 0 <= r < |db.outbox| ==> RowAnswers(db, db.outbox[r]))
    && (forall q, r :: 0 <= q < r < |db.outbox| ==> db.outbox[q].note.operation != db.outbox[r].note.operation)
    && (forall i :: 0 <= i < |db.ops| && Notifiable(db.ops[i]) ==> Announced(db.outbox, i))
  }

  ghost predicate Announced(outbox: seq<OutboxRow>, id: Id) {
    exists r :: 0 <= r < |outbox| && outbox[r].note.operation == id
  }

  ghost predicate Inv(s: System) {
    Sound(s.db) && WorkersSound(s.db, s.workers) && CallsSound(s.db, s.workers, s.calls) && OutboxExact(s.db)
  }

  // ---------- the steps keep it ----------

  /** Outside claims and finishes, only waiting rows change, and none becomes finished. */
  lemma TransactKeepsActiveRows(db: Db, t: Txn)
    requires !t.Claim? && !t.Finish?
    ensures var d := After(db, t);
            && db.envs <= d.envs && |db.ops| <= |d.ops| && |d.outbox| == |db.outbox|
            && (forall i :: 0 <= i < |db.ops| && db.ops[i].status != PendingApproval ==> d.ops[i] == db.ops[i])
            && (forall i :: 0 <= i < |d.ops| && Finished(d.ops[i].status) ==> i < |db.ops| && d.ops[i] == db.ops[i])
  {
    if t.CreateEnvironment? { Evolution.CreateEnvironmentEvolves(db, t); }
    else if t.Request? { RequestIsUnfinished(db, t); }
    else if t.Decision? { Evolution.DecisionEffect(db, t); }
    else { Evolution.OtherEvolves(db, t); }
  }

  lemma RequestIsUnfinished(db: Db, t: Txn)
    requires t.Request?
    ensures var d := After(db, t);
            && d.envs == db.envs && d.outbox == db.outbox && |db.ops| <= |d.ops| <= |db.ops| + 1
            && (forall i :: 0 <= i < |db.ops| ==> d.ops[i] == db.ops[i])
            && (|d.ops| > |db.ops| ==> !Finished(d.ops[|db.ops|].status))
  {
  }

  lemma OutboxFrame(db: Db, d: Db)
    requires OutboxExact(db)
    requires |db.ops| <= |d.ops| && |d.outbox| == |db.outbox|
    requires forall i :: 0 <= i < |db.ops| && Finished(db.ops[i].status) ==> d.ops[i] == db.ops[i]
    requires forall i :: 0 <= i < |d.ops| && Finished(d.ops[i].status) ==> i < |db.ops| && d.ops[i] == db.ops[i]
    requires forall r :: 0 <= r < |db.outbox| ==>
               d.outbox[r].note == db.outbox[r].note && d.outbox[r].provider == db.outbox[r].provider
               && d.outbox[r].destination == db.outbox[r].destination
    ensures OutboxExact(d)
  {
    forall r | 0 <= r < |d.outbox| ensures RowAnswers(d, d.outbox[r]) {
      assert RowAnswers(db, db.outbox[r]);
    }
    forall i | 0 <= i < |d.ops| && Notifiable(d.ops[i]) ensures Announced(d.outbox, i) {
      assert Announced(db.outbox, i);
      var r :| 0 <= r < |db.outbox| && db.outbox[r].note.operation == i;
      assert d.outbox[r].note.operation == i;
    }
  }

  /** What a call reads of its operation survives: it stays started, in the same environment. */
  ghost predicate KeepsStarted(db: Db, d: Db) {
    && db.envs <= d.envs && |db.ops| <= |d.ops|
    && forall i :: 0 <= i < |db.ops| && db.ops[i].status in {Running, Succeeded, Failed} ==>
         && d.ops[i].status in {Running, Succeeded, Failed}
         && d.ops[i].kind == db.ops[i].kind && d.ops[i].image == db.ops[i].image
         && d.ops[i].revision == db.ops[i].revision && d.ops[i].env == db.ops[i].env
  }

  lemma CallsFrame(db: Db, d: Db, workers: map<nat, Phase>, calls: seq<Call>)
    requires CallsSound(db, workers, calls) && KeepsStarted(db, d)
    ensures CallsSound(d, workers, calls)
  {
    forall k | 0 <= k < |calls| ensures CallSound(d, calls[k]) {
      assert CallSound(db, calls[k]);
    }
  }

  lemma WorkersFrame(db: Db, d: Db, workers: map<nat, Phase>)
    requires WorkersSound(db, workers) && |db.ops| <= |d.ops|
    requires forall i :: 0 <= i < |db.ops| && db.ops[i].status == Running ==> d.ops[i] == db.ops[i]
    ensures WorkersSound(d, workers)
  {
    forall w | w in workers ensures HoldsRow(d, workers[w]) {
      assert HoldsRow(db, workers[w]);
    }
  }

  /** Moving one worker to a phase in which it holds nothing new. */
  lemma SetWorker(db: Db, workers: map<nat, Phase>, calls: seq<Call>, w: nat, p: Phase)
    requires WorkersSound(db, workers) && CallsSound(db, workers, calls)
    requires HoldsRow(db, p)
    requires p.Idle? || forall v :: v in workers && v != w && !workers[v].Idle? ==> workers[v].id != p.id
    requires p.Holding? ==> NotCalled(calls, p.id)
    ensures WorkersSound(db, workers[w := p]) && CallsSound(db, workers[w := p], calls)
  {
  }

  lemma TransactKeepsInv(s: System, t: Txn)
    requires Inv(s) && !t.Claim? && !t.Finish?
    ensures Inv(Apply(s, Transact(t)))
  {
    var d := After(s.db, t);
    StepKeepsSound(s.db, t);
    TransactKeepsActiveRows(s.db, t);
    CallsFrame(s.db, d, s.workers, s.calls);
    WorkersFrame(s.db, d, s.workers);
    TransactKeepsOutbox(s.db, t);
  }

  lemma TransactKeepsOutbox(db: Db, t: Txn)
    requires OutboxExact(db) && !t.Claim? && !t.Finish?
    ensures OutboxExact(After(db, t))
  {
    TransactKeepsActiveRows(db, t);
    Evolution.StepEvolves(db, t);
    OutboxFrame(db, After(db, t));
  }

  /** A claim moves one queued row to running, or nothing. */
  lemma ClaimEffect(db: Db, owner: string, skip: set<Id>)
    ensures var (d, r) := Execute(db, Claim(owner, skip));
            if r.Claimed? then
              && r.id < |db.ops| && db.ops[r.id].status == Queued
              && r.row == db.ops[r.id].(status := Running, claimedBy := Some(owner))
              && d == db.(ops := db.ops[r.id := r.row], writes := d.writes)
            else d == db
  {
  }

  lemma TakeKeepsInv(s: System, w: nat, owner: string, skip: set<Id>, answered: bool)
    requires Inv(s) && PhaseOf(s, w).Idle?
    ensures Inv(Apply(s, Take(w, owner, skip, answered)))
  {
    var (d, r) := Execute(s.db, Claim(owner, skip));
    StepKeepsSound(s.db, Claim(owner, skip));
    ClaimEffect(s.db, owner, skip);
    OutboxFrame(s.db, d);
    CallsFrame(s.db, d, s.workers, s.calls);
    WorkersFrame(s.db, d, s.workers);
    if r.Claimed? && answered {
      ClaimedRowIsNew(s, r.id);
      SetWorker(d, s.workers, s.calls, w, Holding(r.id, r.row));
    }
  }

  /** Nobody holds a queued row, and nobody has called for it. */
  lemma ClaimedRowIsNew(s: System, id: Id)
    requires Inv(s) && id < |s.db.ops| && s.db.ops[id].status == Queued
    ensures NotCalled(s.calls, id)
    ensures forall v :: v in s.workers && !s.workers[v].Idle? ==> s.workers[v].id != id
  {
    forall k | 0 <= k < |s.calls| ensures s.calls[k].id != id {
      assert CallSound(s.db, s.calls[k]);
    }
    forall v | v in s.workers && !s.workers[v].Idle? ensures s.workers[v].id != id {
      assert HoldsRow(s.db, s.workers[v]);
    }
  }

  /** The held row has never been called for, and is about to be, once. */
  lemma RecordCall(s: System, w: nat, ok: bool)
    requires Inv(s) && PhaseOf(s, w).Holding? && PhaseOf(s, w).copy.env < |s.db.envs|
    ensures var p := PhaseOf(s, w);
            var c := Call(p.id, p.copy.kind, s.db.envs[p.copy.env], p.copy.image, p.copy.revision, ok);
            CallsSound(s.db, s.workers[w := Performed(p.id, p.copy, ok)], s.calls + [c])
  {
    var p := PhaseOf(s, w);
    var c := Call(p.id, p.copy.kind, s.db.envs[p.copy.env], p.copy.image, p.copy.revision, ok);
    var workers := s.workers[w := Performed(p.id, p.copy, ok)];
    assert HoldsRow(s.db, p) && NotCalled(s.calls, p.id);
    assert CallSound(s.db, c);
    forall v | v in workers && workers[v].Holding? ensures NotCalled(s.calls + [c], workers[v].id) {
      assert v != w && NotCalled(s.calls, workers[v].id);
    }
  }

  lemma PerformKeepsInv(s: System, w: nat, envRead: bool, ok: bool)
    requires Inv(s)
    ensures Inv(Apply(s, Perform(w, envRead, ok)))
  {
    var p := PhaseOf(s, w);
    if p.Holding? {
      assert HoldsRow(s.db, p);
      SetWorker(s.db, s.workers, s.calls, w, Performed(p.id, p.copy, ok));
      SetWorker(s.db, s.workers, s.calls, w, Performed(p.id, p.copy, false));
      if p.copy.env < |s.db.envs| {
        RecordCall(s, w, ok);
      }
    }
  }

  /** An outbox row of another operation answers it after the finish as before. */
  lemma OtherRowsAnswer(db: Db, d: Db, id: Id, row: Operation, r: OutboxRow)
    requires RowAnswers(db, r) && id < |db.ops| && !Finished(db.ops[id].status) && d.ops == db.ops[id := row]
    ensures RowAnswers(d, r) && r.note.operation != id
  {
  }

  lemma AnnouncedGrows(outbox: seq<OutboxRow>, added: seq<OutboxRow>, id: Id)
    requires Announced(outbox, id) || (|added| == 1 && added[0].note.operation == id)
    ensures Announced(outbox + added, id)
  {
    if Announced(outbox, id) {
      var r :| 0 <= r < |outbox| && outbox[r].note.operation == id;
      assert (outbox + added)[r] == outbox[r];
    } else {
      assert (outbox + added)[|outbox|] == added[0];
    }
  }

  /** Finishing one row and appending at most its own notification keeps the correspondence. */
  lemma FinishKeepsOutbox(db: Db, d: Db, id: Id, row: Operation, added: seq<OutboxRow>)
    requires OutboxExact(db) && id < |db.ops| && !Finished(db.ops[id].status)
    requires d.ops == db.ops[id := row] && d.outbox == db.outbox + added
    requires if Notifiable(row) then |added| == 1 && added[0].note.operation == id && RowAnswers(d, added[0])
             else added == []
    ensures OutboxExact(d)
  {
    forall r | 0 <= r < |db.outbox| ensures RowAnswers(d, d.outbox[r]) && d.outbox[r].note.operation != id {
      OtherRowsAnswer(db, d, id, row, db.outbox[r]);
    }
    forall i | 0 <= i < |d.ops| && Notifiable(d.ops[i]) ensures Announced(d.outbox, i) {
      assert i != id ==> Announced(db.outbox, i);
      AnnouncedGrows(db.outbox, added, i);
    }
  }

  /** The finish of a held row succeeds and adds exactly the row's notification. */
  lemma ReportKeepsOutbox(s: System, w: nat, message: string, text: string, at: nat)
    requires Inv(s) && PhaseOf(s, w).Performed?
    ensures OutboxExact(After(s.db, ReportTxn(PhaseOf(s, w), message, text, at)))
  {
    var p := PhaseOf(s, w);
    var t := ReportTxn(p, message, text, at);
    var d := After(s.db, t);
    Evolution.FinishEffect(s.db, t);
    var added := d.outbox[|s.db.outbox|..];
    assert d.outbox == s.db.outbox + added;
    FinishKeepsOutbox(s.db, d, p.id, d.ops[p.id], added);
  }

  lemma ReportKeepsInv(s: System, w: nat, message: string, text: string, at: nat, committed: bool)
    requires Inv(s) && PhaseOf(s, w).Performed?
    ensures Inv(Apply(s, Report(w, message, text, at, committed)))
  {
    SetWorker(s.db, s.workers, s.calls, w, Idle);
    if committed {
      var t := ReportTxn(PhaseOf(s, w), message, text, at);
      StepKeepsSound(s.db, t);
      ReportKeepsOutbox(s, w, message, text, at);
      ReportKeepsWorkers(s, w, t);
    }
  }

  lemma ReportKeepsWorkers(s: System, w: nat, t: Txn)
    requires Inv(s) && PhaseOf(s, w).Performed? && t.Finish? && t.id == PhaseOf(s, w).id
    ensures WorkersSound(After(s.db, t), s.workers[w := Idle])
    ensures CallsSound(After(s.db, t), s.workers[w := Idle], s.calls)
  {
    SetWorker(s.db, s.workers, s.calls, w, Idle);
    Evolution.FinishEffect(s.db, t);
    CallsFrame(s.db, After(s.db, t), s.workers[w := Idle], s.calls);
    ReleasedRowIsFree(s, w, After(s.db, t));
  }

  /** After the reporting worker lets go, nobody else holds the row it finished. */
  lemma ReleasedRowIsFree(s: System, w: nat, d: Db)
    requires WorkersSound(s.db, s.workers) && !PhaseOf(s, w).Idle? && |d.ops| == |s.db.ops|
    requires forall i :: 0 <= i < |s.db.ops| && i != PhaseOf(s, w).id ==> d.ops[i] == s.db.ops[i]
    ensures WorkersSound(d, s.workers[w := Idle])
  {
    forall v | v in s.workers && v != w ensures HoldsRow(d, s.workers[v]) {
      assert HoldsRow(s.db, s.workers[v]);
    }
  }

  lemma ApplyKeepsInv(s: System, a: Act)
    requires Inv(s)
    ensures Inv(Apply(s, a))
  {
    match a
    case Transact(t) => if !t.Claim? && !t.Finish? { TransactKeepsInv(s, t); }
    case Take(w, owner, skip, answered) => if PhaseOf(s, w).Idle? { TakeKeepsInv(s, w, owner, skip, answered); }
    case Perform(w, envRead, ok) => PerformKeepsInv(s, w, envRead, ok);
    case Report(w, message, text, at, committed) =>
      if PhaseOf(s, w).Performed? { ReportKeepsInv(s, w, message, text, at, committed); }
    case Crash(_) =>
  }

  lemma {:induction false} RunsKeepInv(users: set<Id>, now: nat, acts: seq<Act>)
    ensures Inv(Exec(Start(users, now), acts))
  {
    if acts != [] {
      RunsKeepInv(users, now, acts[..|acts| - 1]);
      ApplyKeepsInv(Exec(Start(users, now), acts[..|acts| - 1]), acts[|acts| - 1]);
    }
  }

  // ---------- the results ----------

  /** What entitles an operation to reach Kubernetes. */
  ghost predicate Authorized(db: Db, c: Call) {
    && c.id < |db.ops|
    && (c.env.name == "production" ==> c.env.approvalRequired)
    && (c.kind == Deploy ==> c.env.imagePrefix <= c.image)
    && (c.env.approvalRequired ==>
          && |RowsFor(db.approvals, c.id)| == 1
          && RowsFor(db.approvals, c.id)[0].decision == "approved"
          && RowsFor(db.approvals, c.id)[0].approver != db.ops[c.id].requester)
  }

  lemma RunningIsAuthorized(db: Db, c: Call)
    requires Sound(db) && CallSound(db, c)
    ensures Authorized(db, c)
  {
    assert RequestSound(db, db.ops[c.id]) && ApprovalSound(db, c.id);
  }

  /**
   * Over every run, with any number of workers and any crashes, an operation reaches Kubernetes at
   * most once, with its own image or revision, in the environment it names.
   */
  lemma {:induction false} EachOperationExecutesAtMostOnce(users: set<Id>, now: nat, acts: seq<Act>)
    ensures var s := Exec(Start(users, now), acts);
            && (forall j, k :: 0 <= j < k < |s.calls| ==> s.calls[j].id != s.calls[k].id)
            && (forall k :: 0 <= k < |s.calls| ==> CallSound(s.db, s.calls[k]))
  {
    RunsKeepInv(users, now, acts);
  }

  /** A call that the next act makes is already authorized in the state before that act. */
  lemma {:induction false} CallsAreAlreadyAuthorized(users: set<Id>, now: nat, acts: seq<Act>, a: Act)
    requires var s := Exec(Start(users, now), acts); |Apply(s, a).calls| > |s.calls|
    ensures var s := Exec(Start(users, now), acts);
            var c := Apply(s, a).calls[|s.calls|];
            && Apply(s, a).calls == s.calls + [c]
            && c.id < |s.db.ops| && s.db.ops[c.id].status == Running
            && Authorized(s.db, c)
  {
    var s := Exec(Start(users, now), acts);
    RunsKeepInv(users, now, acts);
    assert a.Perform?;
    var c := Apply(s, a).calls[|s.calls|];
    assert RequestSound(s.db, s.db.ops[c.id]);
    RunningIsAuthorized(s.db, c);
  }

  /**
   * The outbox bijection: each row answers one finished operation with that operation's own provider
   * and conversation, and each finished operation with a conversation outside the web has one.
   */
  lemma {:induction false} OutboxMatchesFinishedOperations(users: set<Id>, now: nat, acts: seq<Act>)
    ensures OutboxExact(Exec(Start(users, now), acts).db)
  {
    RunsKeepInv(users, now, acts);
  }

  // ---------- outcomes ----------

  /** A call for the operation was made and succeeded. */
  ghost predicate CalledWell(calls: seq<Call>, id: Id) {
    exists k :: 0 <= k < |calls| && calls[k].id == id && calls[k].ok
  }

  /** A succeeded row had a good call and carries no error; a failed one had none and carries the failure's code. */
  ghost predicate TellsOutcome(o: Operation, calls: seq<Call>, id: Id) {
    && (o.status == Succeeded ==> CalledWell(calls, id) && o.errorCode == "" && o.errorMessage == "")
    && (o.status == Failed ==> !CalledWell(calls, id) && o.errorCode == "kubernetes_failed")
  }

  ghost predicate OutcomesSound(s: System) {
    && (forall i :: 0 <= i < |s.db.ops| ==> TellsOutcome(s.db.ops[i], s.calls, i))
    && (forall w :: w in s.workers && s.workers[w].Performed? ==>
          (s.workers[w].ok <==> CalledWell(s.calls, s.workers[w].id)))
  }

  /** Only the statuses of finished rows matter. */
  lemma OutcomesFrame(s: System, d: Db)
    requires OutcomesSound(s)
    requires forall i :: 0 <= i < |d.ops| && (d.ops[i].status == Succeeded || d.ops[i].status == Failed) ==>
               i < |s.db.ops| && d.ops[i] == s.db.ops[i]
    ensures OutcomesSound(s.(db := d))
  {
  }

  lemma TransactKeepsOutcomes(s: System, a: Act)
    requires Inv(s) && OutcomesSound(s) && a.Transact?
    ensures OutcomesSound(Apply(s, a))
  {
    if !a.t.Claim? && !a.t.Finish? {
      TransactKeepsActiveRows(s.db, a.t);
      OutcomesFrame(s, After(s.db, a.t));
    }
  }

  lemma TakeKeepsOutcomes(s: System, a: Act)
    requires Inv(s) && OutcomesSound(s) && a.Take?
    ensures OutcomesSound(Apply(s, a))
  {
    if PhaseOf(s, a.w).Idle? {
      ClaimEffect(s.db, a.owner, a.skip);
      OutcomesFrame(s, Execute(s.db, Claim(a.owner, a.skip)).0);
    }
  }

  lemma CallTells(calls: seq<Call>, c: Call, id: Id)
    ensures CalledWell(calls + [c], id) <==> CalledWell(calls, id) || (c.id == id && c.ok)
  {
    assert (calls + [c])[|calls|] == c;
    if CalledWell(calls, id) {
      var k :| 0 <= k < |calls| && calls[k].id == id && calls[k].ok;
      assert (calls + [c])[k] == calls[k];
    }
  }

  lemma UncalledIsNotWell(calls: seq<Call>, id: Id)
    requires NotCalled(calls, id)
    ensures !CalledWell(calls, id)
  {
  }

  lemma PerformKeepsOutcomes(s: System, a: Act)
    requires Inv(s) && OutcomesSound(s) && a.Perform?
    ensures OutcomesSound(Apply(s, a))
  {
    var p := PhaseOf(s, a.w);
    if p.Holding? {
      assert HoldsRow(s.db, p);
      UncalledIsNotWell(s.calls, p.id);
      if a.envRead && p.copy.env < |s.db.envs| {
        var c := Call(p.id, p.copy.kind, s.db.envs[p.copy.env], p.copy.image, p.copy.revision, a.ok);
        forall i: Id ensures CalledWell(s.calls + [c], i) <==> CalledWell(s.calls, i) || (p.id == i && a.ok) {
          CallTells(s.calls, c, i);
        }
      }
    }
  }

  lemma ReportKeepsOutcomes(s: System, a: Act)
    requires Inv(s) && OutcomesSound(s) && a.Report?
    ensures OutcomesSound(Apply(s, a))
  {
    if PhaseOf(s, a.w).Performed? && a.committed {
      Evolution.FinishEffect(s.db, ReportTxn(PhaseOf(s, a.w), a.message, a.text, a.at));
    }
  }

  lemma {:induction false} RunsKeepOutcomes(users: set<Id>, now: nat, acts: seq<Act>)
    ensures OutcomesSound(Exec(Start(users, now), acts))
  {
    if acts != [] {
      var s, a := Exec(Start(users, now), acts[..|acts| - 1]), acts[|acts| - 1];
      RunsKeepInv(users, now, acts[..|acts| - 1]);
      RunsKeepOutcomes(users, now, acts[..|acts| - 1]);
      if a.Transact? { TransactKeepsOutcomes(s, a); }
      else if a.Take? { TakeKeepsOutcomes(s, a); }
      else if a.Perform? { PerformKeepsOutcomes(s, a); }
      else if a.Report? { ReportKeepsOutcomes(s, a); }
    }
  }

  /** Over every run the final status tells how the call ended: succeeded after a good call, failed without one. */
  lemma {:induction false} StatusTellsOutcome(users: set<Id>, now: nat, acts: seq<Act>, id: Id)
    requires id < |Exec(Start(users, now), acts).db.ops|
    ensures var s := Exec(Start(users, now), acts);
            var o := s.db.ops[id];
            var well := exists k :: 0 <= k < |s.calls| && s.calls[k].id == id && s.calls[k].ok;
            && (o.status == Succeeded ==> well && o.errorCode == "" && o.errorMessage == "")
            && (o.status == Failed ==> !well && o.errorCode == "kubernetes_failed")
  {
    RunsKeepOutcomes(users, now, acts);
    var s := Exec(Start(users, now), acts);
    assert TellsOutcome(s.db.ops[id], s.calls, id);
  }

  /** A worker that crashes after its claim leaves the operation running for ever. */
  lemma {:induction false} AbandonedStaysRunning(users: set<Id>, now: nat, before: seq<Act>, id: Id, later: seq<Act>)
    requires var s := Exec(Start(users, now), before);
             id < |s.db.ops| && Abandoned(s, id, s.db.ops[id])
    ensures var s := Exec(Start(users, now), before);
            Abandoned(Exec(s, later), id, s.db.ops[id])
  {
    if later != [] {
      var n := |later| - 1;
      var s := Exec(Start(users, now), before);
      AbandonedStaysRunning(users, now, before, id, later[..n]);
      AbandonedByOneAct(Exec(s, later[..n]), id, s.db.ops[id], later[n]);
    }
  }

  /** Nobody is at work on operation `id`, which is running and still the given row. */
  ghost predicate Abandoned(s: System, id: Id, row: Operation) {
    && id < |s.db.ops| && s.db.ops[id] == row && row.status == Running
    && forall w :: w in s.workers && !s.workers[w].Idle? ==> s.workers[w].id != id
  }

  lemma AbandonedByTake(s: System, id: Id, row: Operation, a: Act)
    requires Abandoned(s, id, row) && a.Take?
    ensures Abandoned(Apply(s, a), id, row)
  {
    ClaimEffect(s.db, a.owner, a.skip);
  }

  lemma AbandonedByReport(s: System, id: Id, row: Operation, a: Act)
    requires Abandoned(s, id, row) && a.Report?
    ensures Abandoned(Apply(s, a), id, row)
  {
    if PhaseOf(s, a.w).Performed? {
      Evolution.FinishEffect(s.db, ReportTxn(PhaseOf(s, a.w), a.message, a.text, a.at));
    }
  }

  lemma AbandonedByOneAct(s: System, id: Id, row: Operation, a: Act)
    requires Abandoned(s, id, row)
    ensures Abandoned(Apply(s, a), id, row)
  {
    if a.Transact? {
      if !a.t.Claim? && !a.t.Finish? { TransactKeepsActiveRows(s.db, a.t); }
    } else if a.Take? {
      AbandonedByTake(s, id, row, a);
    } else if a.Report? {
      AbandonedByReport(s, id, row, a);
    }
  }
}
