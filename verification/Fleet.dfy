/**
 * Workers over the interleaved database: each turn claims, calls Kubernetes and reports, and the claim and the
 * report are sessions whose statements interleave with everybody else's.
 */
module Fleet {
  import opened Domain
  import opened Database
  import opened Execution
  import Interleaving

  type TxnId = Interleaving.TxnId

  /** `sessions` holds the session that a worker is in the middle of. */
  datatype State = State(
    c: Interleaving.Config, sessions: map<nat, TxnId>, workers: map<nat, Phase>, calls: seq<Call>)

  datatype Move =
    | Decide(t: TxnId, decision: Txn)
    | Other(t: TxnId)
    | Cancel(t: TxnId)
    | Statement(txn: Txn)
    | StartClaim(w: nat, t: TxnId, owner: string)
    | StartReport(w: nat, t: TxnId, message: string, text: string, at: nat)
    | Advance(w: nat, answered: bool)
    | Perform(w: nat, envRead: bool, ok: bool)
    | Lose(w: nat)
    | Crash(w: nat)

  /** The state as the model of atomic transactions sees it. */
  function View(s: State): System {
    System(s.c.db, s.workers, s.calls)
  }

  function Session(s: State, w: nat): Interleaving.Session
    requires w in s.sessions && s.sessions[w] in s.c.open
  {
    s.c.open[s.sessions[w]]
  }

  predicate InSession(s: State, w: nat) {
    w in s.sessions && s.sessions[w] in s.c.open
  }

  /** Drops the worker's session, and lets go of the operation when it was reporting it. */
  function Abandon(s: State, w: nat): State
    requires InSession(s, w)
  {
    State(Interleaving.Step(s.c, Interleaving.Abort(s.sessions[w])), s.sessions - {w},
          if Session(s, w).program.Claim? then s.workers else s.workers[w := Idle], s.calls)
  }

  /** The next statement of the worker's session; `answered` is false when the answer to its commit is lost. */
  function Proceed(s: State, w: nat, answered: bool): State
    requires InSession(s, w)
  {
    var t, session := s.sessions[w], Session(s, w);
    var c := Interleaving.Step(s.c, Interleaving.Advance(t));
    match Interleaving.Statement(s.c, t)
    case Blocked => s.(c := c)
    case Continue(_) => s.(c := c)
    case Stop(_) =>
      State(c, s.sessions - {w}, if session.program.Claim? then s.workers else s.workers[w := Idle], s.calls)
    case Commit =>
      var reply := Interleaving.CommitReply(session);
      State(c, s.sessions - {w},
            if session.program.Finish? then s.workers[w := Idle]
            else if reply.Claimed? && answered then s.workers[w := Holding(reply.id, reply.row)]
            else s.workers,
            s.calls)
  }

  /** The worker's call is made; the database is not touched. */
  function Call(s: State, e: System): State {
    s.(workers := e.workers, calls := e.calls)
  }

  function Stopped(s: State, workers: map<nat, Phase>): State {
    s.(workers := workers)
  }

  /** A move that does not fit the state does nothing. */
  function Step(s: State, m: Move): State {
    match m
    case Decide(t, decision) =>
      if t in s.c.open || !decision.Decision? then s
      else s.(c := Interleaving.Step(s.c, Interleaving.Begin(t, decision)))
    case Other(t) => if t in s.sessions.Values then s else s.(c := Interleaving.Step(s.c, Interleaving.Advance(t)))
    case Cancel(t) => if t in s.sessions.Values then s else s.(c := Interleaving.Step(s.c, Interleaving.Abort(t)))
    case Statement(txn) => s.(c := Interleaving.Step(s.c, Interleaving.Autocommit(txn)))
    case StartClaim(w, t, owner) =>
      if w in s.sessions || t in s.c.open || !PhaseOf(View(s), w).Idle? then s
      else s.(c := Interleaving.Step(s.c, Interleaving.Begin(t, Claim(owner, {}))), sessions := s.sessions[w := t])
    case StartReport(w, t, message, text, at) =>
      if w in s.sessions || t in s.c.open || !PhaseOf(View(s), w).Performed? then s
      else
        var report := ReportTxn(PhaseOf(View(s), w), message, text, at);
        s.(c := Interleaving.Step(s.c, Interleaving.Begin(t, report)), sessions := s.sessions[w := t])
    case Advance(w, answered) => if InSession(s, w) then Proceed(s, w, answered) else s
    case Perform(w, envRead, ok) => if w in s.sessions then s else Call(s, Apply(View(s), Act.Perform(w, envRead, ok)))
    case Lose(w) => if InSession(s, w) then Abandon(s, w) else s
    case Crash(w) => Stopped(if InSession(s, w) then Abandon(s, w) else s, s.workers[w := Idle])
  }

  function Open(users: set<Id>, now: nat): State {
    State(Interleaving.Start(EmptyDb(users, now)), map[], map[], [])
  }

  function Sail(s: State, moves: seq<Move>): State {
    if moves == [] then s else Step(Sail(s, moves[..|moves| - 1]), moves[|moves| - 1])
  }

  // ---------- the invariant ----------

  type Sessions = map<TxnId, Interleaving.Session>

  function PhaseIn(workers: map<nat, Phase>, w: nat): Phase {
    if w in workers then workers[w] else Idle
  }

  /** A claim belongs to an idle worker, a report to the worker whose call it reports. */
  ghost predicate Fits(p: Phase, program: Txn) {
    || (program.Claim? && p.Idle?)
    || (program.Finish? && p.Performed? && program == ReportTxn(p, program.message, program.text, program.at))
  }

  /** Every worker's session is open, its own, and fits its phase; all other sessions are decisions. */
  ghost predicate Owned(open: Sessions, sessions: map<nat, TxnId>, workers: map<nat, Phase>) {
    && (forall w :: w in sessions ==> sessions[w] in open && Fits(PhaseIn(workers, w), open[sessions[w]].program))
    && (forall v, w :: v in sessions && w in sessions && v != w ==> sessions[v] != sessions[w])
    && (forall t :: t in open && t !in sessions.Values ==> open[t].program.Decision?)
  }

  ghost predicate Inv(start: Db, s: State) {
    Interleaving.Inv(start, s.c) && Owned(s.c.open, s.sessions, s.workers)
  }

  lemma SessionCloses(open: Sessions, sessions: map<nat, TxnId>, workers: map<nat, Phase>, w: nat, p: Phase)
    requires Owned(open, sessions, workers) && w in sessions
    ensures Owned(open - {sessions[w]}, sessions - {w}, workers)
    ensures Owned(open - {sessions[w]}, sessions - {w}, workers[w := p])
  {
    var rest := sessions - {w};
    forall v | v in sessions && v != w ensures sessions[v] in rest.Values {
      assert rest[v] == sessions[v];
    }
  }

  lemma SessionContinues(
      open: Sessions, sessions: map<nat, TxnId>, workers: map<nat, Phase>, t: TxnId, next: Interleaving.Session)
    requires Owned(open, sessions, workers) && t in open && next.program == open[t].program
    ensures Owned(open[t := next], sessions, workers)
  {
  }

  lemma SessionBegins(
      open: Sessions, sessions: map<nat, TxnId>, workers: map<nat, Phase>, w: nat, t: TxnId, program: Txn)
    requires Owned(open, sessions, workers) && w !in sessions && t !in open && Fits(PhaseIn(workers, w), program)
    ensures Owned(open[t := Interleaving.Fresh(program)], sessions[w := t], workers)
  {
    var more := sessions[w := t];
    assert more[w] == t;
    forall v | v in sessions ensures sessions[v] in more.Values {
      assert more[v] == sessions[v];
    }
  }

  lemma DecisionBegins(open: Sessions, sessions: map<nat, TxnId>, workers: map<nat, Phase>, t: TxnId, program: Txn)
    requires Owned(open, sessions, workers) && t !in open && program.Decision?
    ensures Owned(open[t := Interleaving.Fresh(program)], sessions, workers)
  {
  }

  lemma DecisionCloses(open: Sessions, sessions: map<nat, TxnId>, workers: map<nat, Phase>, t: TxnId)
    requires Owned(open, sessions, workers) && t !in sessions.Values
    ensures Owned(open - {t}, sessions, workers)
  {
    forall w | w in sessions ensures sessions[w] != t {
      assert sessions[w] in sessions.Values;
    }
  }

  lemma ContinuationKeepsProgram(c: Interleaving.Config, t: TxnId)
    requires t in c.open && Interleaving.Statement(c, t).Continue?
    ensures Interleaving.Statement(c, t).s.program == c.open[t].program
  {
  }

  // ---------- every step is an act of the atomic model, or none ----------

  /** The invariant is kept, by an act of the atomic model or none. */
  ghost predicate Keeps(start: Db, s: State, e: State) {
    Inv(start, e) && Simulates(View(s), View(e))
  }

  ghost predicate Simulates(v: System, e: System) {
    e == v || exists a: Act :: e == Apply(v, a)
  }

  /** What an open session's next statement does to the configuration. */
  lemma AdvanceMeans(c: Interleaving.Config, t: TxnId)
    requires t in c.open
    ensures var d := Interleaving.Step(c, Interleaving.Advance(t));
            match Interleaving.Statement(c, t)
            case Blocked => d == c
            case Continue(next) => d.db == c.db && d.open == c.open[t := next]
            case Stop(_) => d.db == c.db && d.open == c.open - {t}
            case Commit => d.db == Interleaving.Publish(c.db, c.open[t]) && d.open == c.open - {t}
  {
  }

  /** The commit of a session, as one transaction on the committed state. */
  lemma CommitMeans(start: Db, c: Interleaving.Config, t: TxnId)
    requires Interleaving.Inv(start, c) && t in c.open && Interleaving.Statement(c, t).Commit?
    ensures var session := c.open[t];
            && Execute(c.db, Interleaving.Attempted(c, session))
               == (Interleaving.Publish(c.db, session), Interleaving.CommitReply(session))
            && (session.program.Claim? ==>
                  && Interleaving.Attempted(c, session).Claim?
                  && Interleaving.Attempted(c, session).owner == session.program.owner)
            && (!session.program.Claim? ==> Interleaving.Attempted(c, session) == session.program)
  {
    Interleaving.CommitIsExecute(c, t);
  }

  lemma ClaimActs(v: System, w: nat, claim: Txn, answered: bool)
    requires claim.Claim? && PhaseOf(v, w).Idle?
    ensures var (d, r) := Execute(v.db, claim);
            Apply(v, Take(w, claim.owner, claim.skip, answered))
            == System(d, if r.Claimed? && answered then v.workers[w := Holding(r.id, r.row)] else v.workers, v.calls)
  {
  }

  lemma ReportActs(v: System, w: nat, report: Txn, committed: bool)
    requires report.Finish? && PhaseOf(v, w).Performed?
    requires report == ReportTxn(PhaseOf(v, w), report.message, report.text, report.at)
    ensures Apply(v, Report(w, report.message, report.text, report.at, committed))
            == System(if committed then After(v.db, report) else v.db, v.workers[w := Idle], v.calls)
  {
  }

  lemma ProceedSimulates(start: Db, s: State, w: nat, answered: bool)
    requires Inv(start, s) && InSession(s, w)
    ensures Simulates(View(s), View(Proceed(s, w, answered)))
  {
    var t := s.sessions[w];
    var program := s.c.open[t].program;
    AdvanceMeans(s.c, t);
    if Interleaving.Statement(s.c, t).Commit? {
      CommitMeans(start, s.c, t);
      if program.Claim? {
        ClaimActs(View(s), w, Interleaving.Attempted(s.c, s.c.open[t]), answered);
      } else {
        ReportActs(View(s), w, program, true);
      }
    } else if Interleaving.Statement(s.c, t).Stop? && program.Finish? {
      ReportActs(View(s), w, program, false);
    }
  }

  lemma ProceedKeepsInv(start: Db, s: State, w: nat, answered: bool)
    requires Inv(start, s) && InSession(s, w)
    ensures Inv(start, Proceed(s, w, answered))
  {
    var t := s.sessions[w];
    Interleaving.AdvanceKeepsInv(start, s.c, Interleaving.Advance(t));
    AdvanceMeans(s.c, t);
    ProceedIsOwned(s, w, answered);
  }

  lemma ProceedIsOwned(s: State, w: nat, answered: bool)
    requires Owned(s.c.open, s.sessions, s.workers) && InSession(s, w)
    ensures var e := Proceed(s, w, answered); Owned(e.c.open, e.sessions, e.workers)
  {
    var t := s.sessions[w];
    AdvanceMeans(s.c, t);
    var next := Interleaving.Statement(s.c, t);
    if next.Continue? {
      ContinuationKeepsProgram(s.c, t);
      SessionContinues(s.c.open, s.sessions, s.workers, t, next.s);
    } else if !next.Blocked? {
      SessionCloses(s.c.open, s.sessions, s.workers, w, PhaseIn(Proceed(s, w, answered).workers, w));
    }
  }

  lemma AbandonMeans(start: Db, s: State, w: nat)
    requires Inv(start, s) && InSession(s, w)
    ensures Keeps(start, s, Abandon(s, w))
  {
    AbortMeans(start, s, w);
    if Session(s, w).program.Finish? {
      ReportActs(View(s), w, Session(s, w).program, false);
    }
  }

  lemma CrashMeans(start: Db, s: State, w: nat)
    requires Inv(start, s)
    ensures var e := Stopped(if InSession(s, w) then Abandon(s, w) else s, s.workers[w := Idle]);
            Inv(start, e) && View(e) == Apply(View(s), Act.Crash(w))
  {
    if InSession(s, w) {
      AbortMeans(start, s, w);
    } else {
      NoSessionStops(s.c.open, s.sessions, s.workers, w);
    }
  }

  /** Without a session nothing depends on the worker's phase. */
  lemma NoSessionStops(open: Sessions, sessions: map<nat, TxnId>, workers: map<nat, Phase>, w: nat)
    requires Owned(open, sessions, workers) && !(w in sessions && sessions[w] in open)
    ensures Owned(open, sessions, workers[w := Idle])
  {
  }

  /** The abort of a worker's session, whatever becomes of the worker. */
  lemma AbortMeans(start: Db, s: State, w: nat)
    requires Inv(start, s) && InSession(s, w)
    ensures var c := Interleaving.Step(s.c, Interleaving.Abort(s.sessions[w]));
            && c.db == s.c.db && Inv(start, State(c, s.sessions - {w}, s.workers, s.calls))
            && Inv(start, State(c, s.sessions - {w}, s.workers[w := Idle], s.calls))
  {
    Interleaving.AbortKeepsInv(start, s.c, Interleaving.Abort(s.sessions[w]));
    SessionCloses(s.c.open, s.sessions, s.workers, w, Idle);
  }

  lemma OtherMeans(start: Db, s: State, t: TxnId)
    requires Inv(start, s) && t !in s.sessions.Values && t in s.c.open
    ensures Keeps(start, s, s.(c := Interleaving.Step(s.c, Interleaving.Advance(t))))
  {
    Interleaving.AdvanceKeepsInv(start, s.c, Interleaving.Advance(t));
    AdvanceMeans(s.c, t);
    var next := Interleaving.Statement(s.c, t);
    if next.Continue? {
      ContinuationKeepsProgram(s.c, t);
      SessionContinues(s.c.open, s.sessions, s.workers, t, next.s);
    } else if !next.Blocked? {
      DecisionCloses(s.c.open, s.sessions, s.workers, t);
    }
    if next.Commit? {
      CommitMeans(start, s.c, t);
      TransactActs(View(s), s.c.open[t].program);
    }
  }

  lemma TransactActs(v: System, txn: Txn)
    requires !txn.Claim? && !txn.Finish?
    ensures Apply(v, Transact(txn)) == v.(db := After(v.db, txn))
  {
  }

  lemma BeginMeans(start: Db, s: State, w: nat, t: TxnId, program: Txn)
    requires Inv(start, s) && w !in s.sessions && t !in s.c.open && Fits(PhaseIn(s.workers, w), program)
    ensures var c := Interleaving.Step(s.c, Interleaving.Begin(t, program));
            Keeps(start, s, s.(c := c, sessions := s.sessions[w := t]))
  {
    Interleaving.BeginKeepsInv(start, s.c, Interleaving.Begin(t, program));
    SessionBegins(s.c.open, s.sessions, s.workers, w, t, program);
  }

  lemma DecideMeans(start: Db, s: State, t: TxnId, program: Txn)
    requires Inv(start, s) && t !in s.c.open && program.Decision?
    ensures Keeps(start, s, s.(c := Interleaving.Step(s.c, Interleaving.Begin(t, program))))
  {
    Interleaving.BeginKeepsInv(start, s.c, Interleaving.Begin(t, program));
    DecisionBegins(s.c.open, s.sessions, s.workers, t, program);
  }

  lemma CancelMeans(start: Db, s: State, t: TxnId)
    requires Inv(start, s) && t !in s.sessions.Values
    ensures Keeps(start, s, s.(c := Interleaving.Step(s.c, Interleaving.Abort(t))))
  {
    Interleaving.AbortKeepsInv(start, s.c, Interleaving.Abort(t));
    DecisionCloses(s.c.open, s.sessions, s.workers, t);
  }

  lemma StatementMeans(start: Db, s: State, txn: Txn)
    requires Inv(start, s) && Interleaving.IsStatement(txn)
    ensures Keeps(start, s, s.(c := Interleaving.Step(s.c, Interleaving.Autocommit(txn))))
  {
    Interleaving.AutocommitKeepsInv(start, s.c, txn);
    TransactActs(View(s), txn);
  }

  lemma PerformMeans(start: Db, s: State, w: nat, envRead: bool, ok: bool)
    requires Inv(start, s) && w !in s.sessions
    ensures Keeps(start, s, Call(s, Apply(View(s), Act.Perform(w, envRead, ok))))
  {
    var e := Apply(View(s), Act.Perform(w, envRead, ok));
    PerformLeavesOthers(View(s), w, envRead, ok);
    OwnedByPhases(s.c.open, s.sessions, s.workers, e.workers);
  }

  lemma PerformLeavesOthers(v: System, w: nat, envRead: bool, ok: bool)
    ensures var e := Apply(v, Act.Perform(w, envRead, ok));
            e.db == v.db && forall u :: u != w ==> PhaseIn(e.workers, u) == PhaseIn(v.workers, u)
  {
  }

  lemma OwnedByPhases(open: Sessions, sessions: map<nat, TxnId>, workers: map<nat, Phase>, changed: map<nat, Phase>)
    requires Owned(open, sessions, workers)
    requires forall w :: w in sessions ==> PhaseIn(changed, w) == PhaseIn(workers, w)
    ensures Owned(open, sessions, changed)
  {
  }

  // ---------- case by case ----------

  lemma SessionMove(start: Db, s: State, m: Move)
    requires Inv(start, s) && (m.Decide? || m.Other? || m.Cancel?)
    ensures Keeps(start, s, Step(s, m))
  {
    if m.Decide? {
      if m.t !in s.c.open && m.decision.Decision? { DecideMeans(start, s, m.t, m.decision); }
    } else if m.t !in s.sessions.Values {
      if m.Cancel? { CancelMeans(start, s, m.t); }
      else if m.t in s.c.open { OtherMeans(start, s, m.t); }
    }
  }

  lemma StatementMove(start: Db, s: State, m: Move)
    requires Inv(start, s) && m.Statement?
    ensures Keeps(start, s, Step(s, m))
  {
    if Interleaving.IsStatement(m.txn) { StatementMeans(start, s, m.txn); }
  }

  lemma StartMove(start: Db, s: State, m: Move)
    requires Inv(start, s) && (m.StartClaim? || m.StartReport?)
    ensures Keeps(start, s, Step(s, m))
  {
    var p := PhaseOf(View(s), m.w);
    if m.w !in s.sessions && m.t !in s.c.open {
      if m.StartClaim? && p.Idle? {
        BeginMeans(start, s, m.w, m.t, Claim(m.owner, {}));
      } else if m.StartReport? && p.Performed? {
        BeginMeans(start, s, m.w, m.t, ReportTxn(p, m.message, m.text, m.at));
      }
    }
  }

  lemma AdvanceMove(start: Db, s: State, m: Move)
    requires Inv(start, s) && m.Advance?
    ensures Keeps(start, s, Step(s, m))
  {
    if InSession(s, m.w) {
      ProceedSimulates(start, s, m.w, m.answered);
      ProceedKeepsInv(start, s, m.w, m.answered);
    }
  }

  lemma WorkerMove(start: Db, s: State, m: Move)
    requires Inv(start, s) && (m.Perform? || m.Lose? || m.Crash?)
    ensures Keeps(start, s, Step(s, m))
  {
    if m.Perform? {
      if m.w !in s.sessions { PerformMeans(start, s, m.w, m.envRead, m.ok); }
    } else if m.Lose? {
      if InSession(s, m.w) { AbandonMeans(start, s, m.w); }
    } else {
      CrashMeans(start, s, m.w);
    }
  }

  lemma StepMeans(start: Db, s: State, m: Move)
    requires Inv(start, s)
    ensures Keeps(start, s, Step(s, m))
  {
    if m.Decide? || m.Other? || m.Cancel? {
      SessionMove(start, s, m);
    } else if m.Statement? {
      StatementMove(start, s, m);
    } else if m.StartClaim? || m.StartReport? {
      StartMove(start, s, m);
    } else if m.Advance? {
      AdvanceMove(start, s, m);
    } else {
      WorkerMove(start, s, m);
    }
  }

  // ---------- the results ----------

  /** Every state of the interleaved fleet is a state of the atomic model, reached by some acts. */
  lemma {:induction false} FleetIsSimulated(users: set<Id>, now: nat, moves: seq<Move>) returns (acts: seq<Act>)
    ensures Inv(EmptyDb(users, now), Sail(Open(users, now), moves))
    ensures View(Sail(Open(users, now), moves)) == Exec(Start(users, now), acts)
  {
    if moves == [] {
      acts := [];
    } else {
      var n := |moves| - 1;
      var s := Sail(Open(users, now), moves[..n]);
      var before := FleetIsSimulated(users, now, moves[..n]);
      StepMeans(EmptyDb(users, now), s, moves[n]);
      if View(Step(s, moves[n])) == View(s) {
        acts := before;
      } else {
        var a :| View(Step(s, moves[n])) == Apply(View(s), a);
        acts := before + [a];
        assert acts[..|before|] == before;
      }
    }
  }

  /**
   * With any number of workers, whatever statements interleave and whatever is lost: an operation
   * reaches Kubernetes at most once, as it was requested, and the outbox is exact.
   */
  lemma {:induction false} FleetExecutesAtMostOnce(users: set<Id>, now: nat, moves: seq<Move>)
    ensures var s := Sail(Open(users, now), moves);
            && (forall j, k :: 0 <= j < k < |s.calls| ==> s.calls[j].id != s.calls[k].id)
            && (forall k :: 0 <= k < |s.calls| ==> CallSound(s.c.db, s.calls[k]))
            && OutboxExact(s.c.db)
  {
    var acts := FleetIsSimulated(users, now, moves);
    EachOperationExecutesAtMostOnce(users, now, acts);
    OutboxMatchesFinishedOperations(users, now, acts);
  }

  /** However the workers interleave, a row is succeeded only after a good call, and failed only without one. */
  lemma {:induction false} FleetStatusTellsOutcome(users: set<Id>, now: nat, moves: seq<Move>, id: Id)
    requires id < |Sail(Open(users, now), moves).c.db.ops|
    ensures var s := Sail(Open(users, now), moves);
            var o := s.c.db.ops[id];
            var well := exists k :: 0 <= k < |s.calls| && s.calls[k].id == id && s.calls[k].ok;
            && (o.status == Succeeded ==> well && o.errorCode == "" && o.errorMessage == "")
            && (o.status == Failed ==> !well && o.errorCode == "kubernetes_failed")
  {
    var acts := FleetIsSimulated(users, now, moves);
    StatusTellsOutcome(users, now, acts, id);
  }

  /** A call is already authorized by what is committed when it is made. */
  lemma {:induction false} FleetCallsAreAuthorized(users: set<Id>, now: nat, moves: seq<Move>, m: Move)
    requires var s := Sail(Open(users, now), moves); |Step(s, m).calls| > |s.calls|
    ensures var s := Sail(Open(users, now), moves);
            var call := Step(s, m).calls[|s.calls|];
            && Step(s, m).calls == s.calls + [call]
            && call.id < |s.c.db.ops| && s.c.db.ops[call.id].status == Running && Authorized(s.c.db, call)
  {
    var s := Sail(Open(users, now), moves);
    var acts := FleetIsSimulated(users, now, moves);
    StepMeans(EmptyDb(users, now), s, m);
    var a :| View(Step(s, m)) == Apply(View(s), a);
    CallsAreAlreadyAuthorized(users, now, acts, a);
  }
}
