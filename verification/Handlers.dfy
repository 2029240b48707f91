/**
 * The request handlers: which transaction a web request, a provider callback or a settings change
 * runs, what makes callbacks idempotent, and what keeps unfinished operations on the active
 * provider when handlers run one after another.  `Races` lets them overlap.
 */
module Handlers {
  import opened Domain
  import opened Database
  import opened History
  import Evolution
  import Text

  /** A decoded provider callback.  The adapter that decoded it stamps its own name as provider. */
  datatype Payload = Payload(
    event: string, conversation: string, command: string, arguments: seq<string>,
    operationId: string, decision: string, challenge: string)

  /** What looking up the sender found: a user, and that user's permissions unless the query failed. */
  datatype Sender = Sender(user: Option<Id>, permissions: Option<seq<Permission>>)

  /** uuid.Parse and strconv.ParseInt. */
  datatype Parsers = Parsers(id: string -> Option<Id>, revision: string -> Option<int>)

  datatype Call =
    | WebRequest(user: Option<Id>, permissions: seq<Permission>, requester: Option<Id>,
                 kind: Kind, target: Id, image: string, revision: int, key: string, logged: bool)
    | WebDecision(user: Option<Id>, permissions: seq<Permission>, approver: Option<Id>,
                  id: Id, decision: string, comment: string)
    | Callback(provider: Provider, payload: Option<Payload>, sender: Sender, logged: bool)
    | SelectProvider(provider: Provider, configured: bool, healthy: bool)
    | StartServer(provider: Provider)
    | Background(t: Txn)

  function EventKey(provider: Provider, event: string): string {
    ProviderName(provider) + ":" + event
  }

  /** A session's own user wins over the one the request body names. */
  function Acting(user: Option<Id>, named: Option<Id>): Option<Id> {
    if user.Some? then user else named
  }

  /** What a request needs permission for. */
  function ActionFor(kind: Kind): Action {
    if kind == Rollback then RollbackAction else DeployAction
  }

  function WebRequestTxn(db: Db, c: Call): Option<Txn>
    requires c.WebRequest?
  {
    var who := Acting(c.user, c.requester);
    if c.target >= |db.envs| then None
    else if !PrincipalAllows(c.permissions, ActionFor(c.kind), db.envs[c.target].app) then None
    else if who.None? then None
    else Some(Request(who.value, c.kind, c.target, c.image, c.revision, c.key, Origin(Web, "", ""), c.logged))
  }

  function DecisionTxn(
    db: Db, permissions: seq<Permission>, who: Option<Id>, id: Option<Id>, decision: string, comment: string)
    : Option<Txn>
  {
    if id.None? || id.value >= |db.ops| then None
    else if !PrincipalAllows(permissions, ApproveAction, db.ops[id.value].app) || who.None? then None
    else Some(Decision(id.value, who.value, decision, comment))
  }

  /** The chat commands that change something. */
  function CommandTxn(
    db: Db, parse: Parsers, provider: Provider, p: Payload, user: Id, permissions: seq<Permission>, logged: bool)
    : Option<Txn>
  {
    var origin := Origin(provider, p.conversation, p.event);
    var key := EventKey(provider, p.event);
    if p.command == "deploy" then
      if |p.arguments| != 2 then None
      else
        var env := parse.id(p.arguments[0]);
        if env.None? || env.value >= |db.envs| then None
        else if !PrincipalAllows(permissions, DeployAction, db.envs[env.value].app) then None
        else Some(Request(user, Deploy, env.value, p.arguments[1], 0, key, origin, logged))
    else if p.command == "rollback" then
      if |p.arguments| != 2 then None
      else
        var env, revision := parse.id(p.arguments[0]), parse.revision(p.arguments[1]);
        if env.None? || revision.None? || env.value >= |db.envs| then None
        else if !PrincipalAllows(permissions, RollbackAction, db.envs[env.value].app) then None
        else Some(Request(user, Rollback, env.value, "", revision.value, key, origin, logged))
    else if p.command == "approve" then
      if |p.arguments| != 2 || (p.arguments[1] != "approved" && p.arguments[1] != "rejected") then None
      else DecisionTxn(db, permissions, Some(user), parse.id(p.arguments[0]), p.arguments[1], "")
    else None
  }

  /** `active` is the provider the handler read first; the other queries may run later. */
  function CallbackTxn(active: Provider, db: Db, parse: Parsers, c: Call): Option<Txn>
    requires c.Callback?
  {
    if !ValidProvider(active) || active == Web || c.provider != active then None
    else if c.payload.None? then None
    else
      var p := c.payload.value;
      if p.challenge != "" then None
      else if p.operationId != "" then
        if c.sender.user.None? || c.sender.permissions.None? then None
        else DecisionTxn(db, c.sender.permissions.value, c.sender.user, parse.id(p.operationId), p.decision, "")
      else if p.command == "" || c.sender.user.None? || c.sender.permissions.None? then None
      else CommandTxn(db, parse, active, p, c.sender.user.value, c.sender.permissions.value, c.logged)
  }

  /** Calls that create or decide operations. */
  predicate IsRequest(c: Call) {
    c.WebRequest? || c.WebDecision? || c.Callback?
  }

  /** The transaction such a call chooses, when it read the active provider earlier. */
  function ChosenTxn(active: Provider, db: Db, parse: Parsers, c: Call): Option<Txn>
    requires IsRequest(c)
  {
    match c
    case WebRequest(_, _, _, _, _, _, _, _, _) => WebRequestTxn(db, c)
    case WebDecision(user, permissions, approver, id, decision, comment) =>
      DecisionTxn(db, permissions, Acting(user, approver), Some(id), decision, comment)
    case Callback(_, _, _, _) => CallbackTxn(active, db, parse, c)
  }

  predicate ChangesSetting(t: Txn) {
    t.SwitchProvider? || t.WriteSetting? || t.InitProvider?
  }

  /** Work no handler asks for: workers, delivery, environments, the clock. */
  predicate IsBackground(t: Txn) {
    !t.Request? && !t.Decision? && !ChangesSetting(t)
  }

  /** The transaction a handler runs, if it gets that far. */
  function HandlerTxn(db: Db, parse: Parsers, c: Call): Option<Txn> {
    match c
    case SelectProvider(p, configured, healthy) => if configured && healthy then Some(SwitchProvider(p)) else None
    case StartServer(p) => Some(InitProvider(p))
    case Background(t) => if IsBackground(t) then Some(t) else None
    case _ => ChosenTxn(Active(db), db, parse, c)
  }

  function Handle(db: Db, parse: Parsers, c: Call): Db {
    var t := HandlerTxn(db, parse, c);
    if t.None? then db else After(db, t.value)
  }

  /** Handlers one after another. */
  function Serve(db: Db, parse: Parsers, calls: seq<Call>): Db {
    if calls == [] then db else Handle(Serve(db, parse, calls[..|calls| - 1]), parse, calls[|calls| - 1])
  }

  // ---------- authorization ----------

  function Permissions(c: Call): seq<Permission>
    requires IsRequest(c)
  {
    if c.Callback? then (if c.sender.permissions.Some? then c.sender.permissions.value else []) else c.permissions
  }

  /** On whose behalf a call acts. */
  function Caller(c: Call): Option<Id>
    requires IsRequest(c)
  {
    match c
    case WebRequest(user, _, requester, _, _, _, _, _, _) => Acting(user, requester)
    case WebDecision(user, _, approver, _, _, _) => Acting(user, approver)
    case Callback(_, _, sender, _) => sender.user
  }

  /** The transaction is the caller's, who has the permission it needs on the application it is about. */
  predicate MayRun(db: Db, c: Call, t: Txn)
    requires IsRequest(c)
  {
    && (t.Request? || t.Decision?)
    && Caller(c) == Some(if t.Request? then t.requester else t.approver)
    && (t.Request? ==>
          t.target < |db.envs| && PrincipalAllows(Permissions(c), ActionFor(t.kind), db.envs[t.target].app))
    && (t.Decision? ==> t.id < |db.ops| && PrincipalAllows(Permissions(c), ApproveAction, db.ops[t.id].app))
  }

  lemma HandlersAreAuthorized(active: Provider, db: Db, parse: Parsers, c: Call)
    requires IsRequest(c) && ChosenTxn(active, db, parse, c).Some?
    ensures MayRun(db, c, ChosenTxn(active, db, parse, c).value)
  {
  }

  // ---------- idempotent callbacks ----------

  /** Distinct events, or events of distinct providers, never share an idempotency key. */
  lemma EventKeyIsInjective(p: Provider, e: string, q: Provider, f: string)
    requires ValidProvider(p) && ValidProvider(q) && EventKey(p, e) == EventKey(q, f)
    ensures p == q && e == f
  {
    Text.FirstColon(ProviderName(p), ProviderName(q), e, f);
    assert "web"[0] == 'w' && "web"[1] == 'e' && "web"[2] == 'b' && "wecom"[2] == 'c';
  }

  lemma KeysStayTaken(db: Db, ts: seq<Txn>, key: string)
    requires KeyTaken(db.ops, key)
    ensures KeyTaken(Run(db, ts).ops, key)
  {
    Evolution.RunDescends(db, ts);
    var i :| 0 <= i < |db.ops| && db.ops[i].key == key;
    assert Run(db, ts).ops[i].key == key;
  }

  lemma CommittedRequestTakesItsKey(db: Db, t: Txn)
    requires t.Request? && Execute(db, t).1.Created?
    ensures KeyTaken(After(db, t).ops, t.key)
  {
    assert After(db, t).ops[|db.ops|].key == t.key;
  }

  lemma TakenKeyBlocksRequest(db: Db, t: Txn)
    requires t.Request? && KeyTaken(db.ops, t.key)
    ensures After(db, t) == db
  {
  }

  lemma DecidedOperationStaysDecided(db: Db, t: Txn, ts: seq<Txn>, u: Txn)
    requires t.Decision? && Execute(db, t).1.Done? && u.Decision? && u.id == t.id
    ensures var d := Run(After(db, t), ts); After(d, u) == d
  {
    Evolution.DecisionEffect(db, t);
    Evolution.RunDescends(After(db, t), ts);
    Evolution.DecisionEffect(Run(After(db, t), ts), u);
  }

  /** Both are deliveries of one event. */
  predicate SameDelivery(c: Call, again: Call) {
    c.Callback? && again.Callback? && again.provider == c.provider && again.payload == c.payload
  }

  /** Which transaction a callback runs does not depend on the state, beyond whether it runs at all. */
  lemma CallbackIsDetermined(a: Provider, db: Db, b: Provider, d: Db, parse: Parsers, c: Call, again: Call)
    requires SameDelivery(c, again)
    requires ChosenTxn(a, db, parse, c).Some? && ChosenTxn(b, d, parse, again).Some?
    ensures SameTarget(ChosenTxn(a, db, parse, c).value, ChosenTxn(b, d, parse, again).value)
  {
  }

  /** Both create under one key, or both decide one operation. */
  predicate SameTarget(t: Txn, u: Txn) {
    (t.Request? && u.Request? && u.key == t.key) || (t.Decision? && u.Decision? && u.id == t.id)
  }

  /**
   * Once a callback has committed, delivering it again changes nothing, whoever the sender then is.
   * The first delivery chose its transaction on one database, `seen`, and committed it on another, `db`;
   * so did the second, on `seenAgain` and on any state the first one leads to.
   */
  lemma RedeliveryChangesNothing(
      a: Provider, seen: Db, db: Db, parse: Parsers, c: Call, later: seq<Txn>, b: Provider, seenAgain: Db, again: Call)
    requires SameDelivery(c, again)
    requires ChosenTxn(a, seen, parse, c).Some? && ChosenTxn(b, seenAgain, parse, again).Some?
    requires var r := Execute(db, ChosenTxn(a, seen, parse, c).value).1; r.Done? || r.Created?
    ensures var d := Run(After(db, ChosenTxn(a, seen, parse, c).value), later);
            After(d, ChosenTxn(b, seenAgain, parse, again).value) == d
  {
    var t, u := ChosenTxn(a, seen, parse, c).value, ChosenTxn(b, seenAgain, parse, again).value;
    CallbackIsDetermined(a, seen, b, seenAgain, parse, c, again);
    CommittedOnce(db, t, later, u);
  }

  lemma CommittedOnce(db: Db, t: Txn, later: seq<Txn>, u: Txn)
    requires SameTarget(t, u) && (Execute(db, t).1.Done? || Execute(db, t).1.Created?)
    ensures var d := Run(After(db, t), later); After(d, u) == d
  {
    if t.Request? {
      RequestReply(db, t);
      CommittedRequestTakesItsKey(db, t);
      KeysStayTaken(After(db, t), later, t.key);
      TakenKeyBlocksRequest(Run(After(db, t), later), u);
    } else {
      Evolution.DecisionEffect(db, t);
      DecidedOperationStaysDecided(db, t, later, u);
    }
  }

  lemma RequestReply(db: Db, t: Txn)
    requires t.Request?
    ensures Execute(db, t).1.Created? || Execute(db, t).1.Failure?
  {
  }

  // ---------- one operation for one event ----------

  /** A request from a provider is made under the key of its event. */
  ghost predicate Keyed(t: Txn) {
    t.Request? ==>
      ValidProvider(t.origin.provider)
      && (t.origin.provider != Web ==> t.key == EventKey(t.origin.provider, t.origin.event))
  }

  /** Whatever stale state a handler chooses on, its transaction is keyed. */
  lemma HandlersChooseKeyed(active: Provider, db: Db, parse: Parsers, c: Call)
    requires IsRequest(c) && ChosenTxn(active, db, parse, c).Some?
    ensures var t := ChosenTxn(active, db, parse, c).value;
            Keyed(t) && (t.Request? && t.origin.provider == Web ==> t.origin.conversation == "")
  {
  }

  lemma EventsAreUnique(ops: seq<Operation>, i: Id, j: Id)
    requires KeysUnique(ops) && i < |ops| && j < |ops| && KeyedRow(ops[i]) && KeyedRow(ops[j])
    requires ops[i].provider == ops[j].provider != Web && ops[i].event == ops[j].event
    ensures i == j
  {
  }

  lemma {:induction false} RowsAreKeyed(users: set<Id>, now: nat, ts: seq<Txn>)
    requires forall k :: 0 <= k < |ts| ==> Keyed(ts[k])
    ensures forall i :: 0 <= i < |Run(EmptyDb(users, now), ts).ops| ==> KeyedRow(Run(EmptyDb(users, now), ts).ops[i])
  {
    if ts != [] {
      var n := |ts| - 1;
      var db, d := Run(EmptyDb(users, now), ts[..n]), Run(EmptyDb(users, now), ts);
      RowsAreKeyed(users, now, ts[..n]);
      Evolution.StepEvolves(db, ts[n]);
      RowsAppear(db, ts[n]);
      forall i | 0 <= i < |d.ops| ensures KeyedRow(d.ops[i]) {
        assert i < |db.ops| ==> Evolution.RowStep(db.ops[i], d.ops[i]) && KeyedRow(db.ops[i]);
      }
    }
  }

  /** Only a request adds an operation row, and it is its own. */
  lemma RowsAppear(db: Db, t: Txn)
    requires Keyed(t)
    ensures var d := After(db, t);
            |d.ops| == |db.ops| || (|d.ops| == |db.ops| + 1 && KeyedRow(d.ops[|db.ops|]))
  {
    if t.Request? {
      NewRow(db, t);
    } else if !ChangesSetting(t) {
      SameSetting(db, t);
    } else {
      Evolution.OtherEvolves(db, t);
    }
  }

  /**
   * Two operations never stem from one event.  The transactions may come in any order from handlers
   * that chose them on states long past; it is enough that each is keyed, as every handler's is.
   */
  lemma {:induction false} OneOperationPerEvent(users: set<Id>, now: nat, ts: seq<Txn>, i: Id, j: Id)
    requires forall k :: 0 <= k < |ts| ==> Keyed(ts[k])
    requires var ops := Run(EmptyDb(users, now), ts).ops;
             i < |ops| && j < |ops| && ops[i].provider == ops[j].provider != Web && ops[i].event == ops[j].event
    ensures i == j
  {
    RunsAreSound(users, now, ts);
    RowsAreKeyed(users, now, ts);
    EventsAreUnique(Run(EmptyDb(users, now), ts).ops, i, j);
  }

  // ---------- the active provider ----------

  /**
   * Unfinished operations with a conversation are on the active provider; web operations have no
   * conversation; operations from a callback carry the callback's key.
   */
  ghost predicate ProviderSound(db: Db) {
    && ValidProvider(Active(db))
    && (forall i :: 0 <= i < |db.ops| ==> OriginSound(db.ops[i]))
    && OnActiveProvider(db)
  }

  /** An operation from a callback carries the callback's key. */
  ghost predicate KeyedRow(o: Operation) {
    ValidProvider(o.provider) && (o.provider != Web ==> o.key == EventKey(o.provider, o.event))
  }

  ghost predicate OriginSound(o: Operation) {
    KeyedRow(o) && (o.provider == Web ==> o.conversation == "")
  }

  ghost predicate OnActiveProvider(db: Db) {
    forall i :: 0 <= i < |db.ops| && db.ops[i].conversation != "" && Unfinished(db.ops[i].status) ==>
      db.ops[i].provider == Active(db)
  }

  /** Transactions that only move existing rows forward keep the invariant. */
  lemma ForwardKeepsProvider(db: Db, t: Txn)
    requires ProviderSound(db) && !t.Request? && !ChangesSetting(t)
    ensures ProviderSound(After(db, t))
  {
    var d := After(db, t);
    Evolution.StepEvolves(db, t);
    SameSetting(db, t);
    forall i | 0 <= i < |d.ops|
      ensures OriginSound(d.ops[i])
      ensures d.ops[i].conversation != "" && Unfinished(d.ops[i].status) ==> d.ops[i].provider == Active(d)
    {
      assert Evolution.RowStep(db.ops[i], d.ops[i]) && OriginSound(db.ops[i]);
    }
  }

  lemma SameSetting(db: Db, t: Txn)
    requires !t.Request? && !ChangesSetting(t)
    ensures After(db, t).setting == db.setting && |After(db, t).ops| == |db.ops|
  {
    if t.CreateEnvironment? { Evolution.CreateEnvironmentEvolves(db, t); }
    else if t.Decision? { Evolution.DecisionEvolves(db, t); }
    else if t.Claim? { Evolution.ClaimEvolves(db, t); }
    else if t.Finish? { Evolution.FinishEvolves(db, t); }
    else { Evolution.OtherEvolves(db, t); }
  }

  /** A new row keeps the invariant exactly when it is on the provider active at its commit. */
  lemma RequestKeepsProviderIff(db: Db, t: Txn)
    requires ProviderSound(db) && t.Request? && Execute(db, t).1.Created?
    requires ValidProvider(t.origin.provider)
    requires if t.origin.provider == Web then t.origin.conversation == ""
             else t.key == EventKey(t.origin.provider, t.origin.event)
    ensures ProviderSound(After(db, t)) <==> t.origin.conversation == "" || t.origin.provider == Active(db)
  {
    var d := After(db, t);
    var n := |db.ops|;
    NewRow(db, t);
    if t.origin.conversation == "" || t.origin.provider == Active(db) {
      forall i | 0 <= i < |d.ops| ensures OriginSound(d.ops[i]) {
        assert i < n ==> d.ops[i] == db.ops[i] && OriginSound(db.ops[i]);
      }
    }
  }

  lemma NewRow(db: Db, t: Txn)
    requires t.Request? && ValidProvider(t.origin.provider)
    ensures var (d, r) := Execute(db, t);
            && d.setting == db.setting
            && (!r.Created? ==> d == db)
            && (r.Created? ==>
                  && |d.ops| == |db.ops| + 1 && d.ops[..|db.ops|] == db.ops
                  && (forall i :: 0 <= i < |db.ops| ==> d.ops[i] == db.ops[i])
                  && d.ops[|db.ops|].provider == t.origin.provider
                  && d.ops[|db.ops|].conversation == t.origin.conversation
                  && d.ops[|db.ops|].event == t.origin.event && d.ops[|db.ops|].key == t.key
                  && Unfinished(d.ops[|db.ops|].status))
  {
  }

  lemma SwitchKeepsProvider(db: Db, t: Txn)
    requires ProviderSound(db) && (t.SwitchProvider? || t.InitProvider?)
    ensures ProviderSound(After(db, t))
  {
    var d := After(db, t);
    assert d.ops == db.ops;
    if Active(d) != Active(db) {
      assert !HasUnfinished(db.ops, Active(db));
    }
  }

  lemma HandlerKeepsProvider(db: Db, parse: Parsers, c: Call)
    requires ProviderSound(db)
    ensures ProviderSound(Handle(db, parse, c))
  {
    if HandlerTxn(db, parse, c).Some? {
      var t := HandlerTxn(db, parse, c).value;
      if t.Request? {
        HandlerRequestOrigin(db, parse, c);
        NewRow(db, t);
        if Execute(db, t).1.Created? { RequestKeepsProviderIff(db, t); }
      } else if t.SwitchProvider? || t.InitProvider? {
        SwitchKeepsProvider(db, t);
      } else {
        ForwardKeepsProvider(db, t);
      }
    }
  }

  /** Web requests have no conversation; callbacks run only on the active provider. */
  lemma HandlerRequestOrigin(db: Db, parse: Parsers, c: Call)
    requires HandlerTxn(db, parse, c).Some? && HandlerTxn(db, parse, c).value.Request?
    ensures var t := HandlerTxn(db, parse, c).value;
            || (t.origin.provider == Web && t.origin.conversation == "")
            || (t.origin.provider == Active(db) && ValidProvider(Active(db)) && t.origin.provider != Web
                && t.key == EventKey(t.origin.provider, t.origin.event))
  {
  }

  /** When handlers are serial steps, every unfinished operation with a conversation is on the active provider. */
  lemma {:induction false} ServingKeepsProvider(users: set<Id>, now: nat, parse: Parsers, calls: seq<Call>)
    ensures ProviderSound(Serve(EmptyDb(users, now), parse, calls))
  {
    if calls != [] {
      ServingKeepsProvider(users, now, parse, calls[..|calls| - 1]);
      HandlerKeepsProvider(Serve(EmptyDb(users, now), parse, calls[..|calls| - 1]), parse, calls[|calls| - 1]);
    }
  }
}
