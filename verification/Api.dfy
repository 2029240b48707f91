/** The handlers and the provider registry as the program writes them. */
module Api {
  import opened Domain
  import opened Database
  import opened Persistence
  import opened Handlers
  import History

  /** A provider adapter, as far as selection is concerned: configured, and what its last check would say. */
  datatype Adapter = Adapter(configured: bool, checkError: Option<string>)

  datatype Capabilities = Capabilities(provider: Provider, configured: bool, healthy: bool, reason: string)

  class Registry {
    const store: Store
    var providers: map<Provider, Adapter>
    var health: map<Provider, Capabilities>

    constructor (store: Store, providers: map<Provider, Adapter>)
      ensures this.store == store && this.providers == providers && health == map[]
    {
      this.store := store;
      this.providers := providers;
      health := map[];
    }

    method Active() returns (r: Result<Provider>)
      ensures r.Ok? <==> ValidProvider(Database.Active(store.DB)) && Database.Active(store.DB) in providers
      ensures r.Ok? ==> r.value == Database.Active(store.DB)
    {
      var name := store.GetActiveMessageProvider();
      if name.Err? {
        return Err(name.error);
      }
      if name.value !in providers {
        return Err(Unavailable);
      }
      return name;
    }

    /** A check is remembered whether it succeeds or fails. */
    method Check(name: Provider) returns (r: Result<Capabilities>)
      modifies this`health
      ensures name !in providers ==> r.Err? && health == old(health)
      ensures name in providers ==>
                && (var failure := providers[name].checkError;
                    health == old(health)[name := Capabilities(name, providers[name].configured, failure.None?,
                                                               if failure.Some? then failure.value else "")])
                && (r.Ok? <==> providers[name].checkError.None?)
                && (r.Ok? ==> r.value == health[name] && r.value.healthy)
    {
      if name !in providers {
        return Err(Unavailable);
      }
      var adapter := providers[name];
      var capabilities := Capabilities(name, adapter.configured, false, "");
      capabilities := capabilities.(healthy := adapter.checkError.None?);
      if adapter.checkError.Some? {
        capabilities := capabilities.(reason := adapter.checkError.value);
      } else {
        capabilities := capabilities.(reason := "");
      }
      health := health[name := capabilities];
      return if adapter.checkError.None? then Ok(capabilities) else Err(Unavailable);
    }

    /** The setting changes only to a configured provider whose check just succeeded. */
    method Select(name: Provider) returns (r: Reply)
      modifies this`health, store
      ensures store.DB == Handle(old(store.DB), Parsers(_ => None, _ => None),
                            SelectProvider(name, name in providers && providers[name].configured,
                                                 name in providers && providers[name].checkError.None?))
      ensures store.DB.setting != old(store.DB).setting ==>
                && store.DB.setting == Some(name)
                && name in health && health[name].healthy && health[name].configured
                && !HasUnfinished(store.DB.ops, Database.Active(old(store.DB)))
      ensures r.Done? <==>
                && name in providers && providers[name].configured && providers[name].checkError.None?
                && ValidProvider(name) && ValidProvider(Database.Active(old(store.DB)))
                && (Database.Active(old(store.DB)) == name
                    || !HasUnfinished(old(store.DB).ops, Database.Active(old(store.DB))))
      ensures r.Done? ==> Database.Active(store.DB) == name
    {
      if name !in providers {
        return Failure(Unavailable);
      }
      if !providers[name].configured {
        return Failure(Unavailable);
      }
      var checked := Check(name);
      if checked.Err? {
        return Failure(checked.error);
      }
      r := store.SetActiveMessageProvider(name);
    }
  }

  class API {
    const store: Store
    const app: Service
    const registry: Registry

    constructor (store: Store, app: Service, registry: Registry)
      requires app.store == store && registry.store == store
      ensures this.store == store && this.app == app && this.registry == registry
    {
      this.store := store;
      this.app := app;
      this.registry := registry;
    }

    ghost predicate Valid()
      reads this, registry
    {
      app.store == store && registry.store == store && {Web, Feishu, WeCom, DingTalk} <= registry.providers.Keys
    }

    /** The web console's request: exactly when it is accepted, and the row it then creates. */
    method RequestOperation(c: Call) returns (r: Reply)
      requires Valid() && c.WebRequest?
      modifies store
      ensures Valid()
      ensures var db := old(store.DB);
              var who := if c.user.Some? then c.user else c.requester;
              var permitted := c.target < |db.envs|
                               && Grants(c.permissions, if c.kind == Rollback then RollbackAction else DeployAction,
                                         db.envs[c.target].app);
              && (r.Created? <==>
                    && permitted && who.Some? && who.value in db.users
                    && !c.kind.UnknownKind? && (forall i :: 0 <= i < |db.ops| ==> db.ops[i].key != c.key)
                    && (c.kind == Deploy ==> db.envs[c.target].imagePrefix <= c.image))
              && (r.Created? ==>
                    && r.id == |db.ops| && Appended(db.ops, store.DB.ops)
                    && History.AsRequested(db, store.DB.ops[r.id], who.value, c.kind, c.target, c.image, c.revision,
                                           c.key, Origin(Web, "", "")))
              && (r == Failure(Error.Forbidden) <==> c.target < |db.envs| && !permitted)
              && (!r.Created? ==> store.DB == db)
      ensures c.target < |old(store.DB).envs|
              && (forall i :: 0 <= i < |c.permissions| ==>
                    && c.permissions[i].action != AdminAction
                    && c.permissions[i].action != (if c.kind == Rollback then RollbackAction else DeployAction)) ==>
                r == Failure(Error.Forbidden)
      ensures store.DB == Handle(old(store.DB), Parsers(_ => None, _ => None), c)
    {
      var environment := store.GetEnvironment(c.target);
      if environment.Err? {
        return Failure(environment.error);
      }
      var action := DeployAction;
      if c.kind == Rollback {
        action := RollbackAction;
      }
      if !PrincipalAllows(c.permissions, action, environment.value.app) {
        return Failure(Error.Forbidden);
      }
      var requester := c.requester;
      if c.user.Some? {
        requester := c.user;
      }
      if requester.None? {
        return Failure(InvalidInput);
      }
      var origin := Origin(Web, "", "");
      NeverForbidden(store.DB, requester.value, c.kind, c.target, c.image, c.revision, c.key, origin, c.logged);
      r := app.RequestOperationWithOrigin(
        requester.value, c.kind, c.target, c.image, c.revision, c.key, origin, c.logged);
    }

    /** A decision by somebody with the permission: exactly when it is accepted, and what it then decides. */
    method Approve(
        permissions: seq<Permission>, who: Option<Id>, id: Option<Id>, decision: string, comment: string)
      returns (r: Reply)
      requires Valid()
      modifies store
      ensures Valid()
      ensures var db := old(store.DB);
              && (r.Done? ==>
                    && id.Some? && who.Some? && id.value < |db.ops|
                    && ApprovedBy(db, store.DB, permissions, who.value, id.value, decision, comment))
              && (!r.Done? ==> store.DB == db)
              && (History.Sound(db) ==> (r.Done? <==> MayDecide(db, permissions, who, id, decision)))
              && (r == Failure(Error.Forbidden) <==>
                    && id.Some? && id.value < |db.ops|
                    && !Grants(permissions, ApproveAction, db.ops[id.value].app))
      ensures id.Some? && id.value < |old(store.DB).ops|
              && (forall i :: 0 <= i < |permissions| ==>
                    permissions[i].action != AdminAction && permissions[i].action != ApproveAction) ==>
                r == Failure(Error.Forbidden)
      ensures var t := DecisionTxn(old(store.DB), permissions, who, id, decision, comment);
              store.DB == if t.None? then old(store.DB) else After(old(store.DB), t.value)
    {
      if id.None? {
        return Failure(InvalidInput);
      }
      var operation := store.GetOperation(id.value);
      if operation.Err? {
        return Failure(operation.error);
      }
      if !PrincipalAllows(permissions, ApproveAction, operation.value.app) {
        return Failure(Error.Forbidden);
      }
      if who.None? {
        return Failure(InvalidInput);
      }
      r := app.Decide(id.value, who.value, decision, comment);
    }

    /** A provider callback changes nothing, or does one thing its sender is permitted to do. */
    method Webhook(c: Call, parse: Parsers)
      requires Valid() && c.Callback?
      modifies store
      ensures Valid()
      ensures store.DB != old(store.DB) ==>
                && Heeded(old(store.DB), c)
                && var p, user, permissions := c.payload.value, c.sender.user.value, c.sender.permissions.value;
                   if p.operationId != "" then
                     parse.id(p.operationId).Some?
                     && ApprovedBy(old(store.DB), store.DB, permissions, user, parse.id(p.operationId).value,
                                   p.decision, "")
                   else Served(old(store.DB), store.DB, parse, c.provider, p, user, permissions)
      ensures History.Sound(old(store.DB)) ==>
                (store.DB != old(store.DB) <==>
                   && Heeded(old(store.DB), c)
                   && var p, permissions := c.payload.value, c.sender.permissions.value;
                      if p.operationId != "" then
                        MayDecide(old(store.DB), permissions, c.sender.user, parse.id(p.operationId), p.decision)
                      else MayCommand(old(store.DB), parse, c.provider, p, c.sender.user.value, permissions))
      ensures store.DB == Handle(old(store.DB), parse, c)
    {
      var active := registry.Active();
      if active.Err? || active.value == Web || c.provider != active.value {
        return;
      }
      if c.payload.None? {
        return;
      }
      var incoming := c.payload.value;
      if incoming.challenge != "" {
        return;
      }
      if incoming.operationId != "" {
        if c.sender.user.Some? && c.sender.permissions.Some? {
          var id := parse.id(incoming.operationId);
          var reply := Approve(c.sender.permissions.value, c.sender.user, id, incoming.decision, "");
        }
        return;
      }
      if incoming.command == "" || c.sender.user.None? || c.sender.permissions.None? {
        return;
      }
      HandleIncomingCommand(
        active.value, incoming, c.sender.user.value, c.sender.permissions.value, parse, c.logged);
    }

    /** A chat command changes nothing, or does one thing its user is permitted to do. */
    method HandleIncomingCommand(
        provider: Provider, incoming: Payload, user: Id, permissions: seq<Permission>, parse: Parsers, logged: bool)
      requires Valid()
      modifies store
      ensures Valid()
      ensures store.DB != old(store.DB) ==>
                Served(old(store.DB), store.DB, parse, provider, incoming, user, permissions)
      ensures History.Sound(old(store.DB)) ==>
                (store.DB != old(store.DB) <==>
                   MayCommand(old(store.DB), parse, provider, incoming, user, permissions))
      ensures var t := CommandTxn(old(store.DB), parse, provider, incoming, user, permissions, logged);
              store.DB == if t.None? then old(store.DB) else After(old(store.DB), t.value)
    {
      if incoming.command == "deploy" || incoming.command == "rollback" {
        ChatRequest(provider, incoming, user, permissions, parse, logged);
      } else if incoming.command == "approve" {
        if |incoming.arguments| == 2 && (incoming.arguments[1] == "approved" || incoming.arguments[1] == "rejected") {
          var id := parse.id(incoming.arguments[0]);
          var reply := Approve(permissions, Some(user), id, incoming.arguments[1], "");
        }
      }
    }

    /** The deploy and rollback commands. */
    method ChatRequest(
        provider: Provider, incoming: Payload, user: Id, permissions: seq<Permission>, parse: Parsers, logged: bool)
      requires Valid() && (incoming.command == "deploy" || incoming.command == "rollback")
      modifies store
      ensures Valid()
      ensures store.DB != old(store.DB) ==>
                RequestedBy(old(store.DB), store.DB, parse, provider, incoming, permissions, user)
      ensures store.DB != old(store.DB) <==>
                MayRequest(old(store.DB), parse, provider, incoming, user, permissions)
      ensures var t := CommandTxn(old(store.DB), parse, provider, incoming, user, permissions, logged);
              store.DB == if t.None? then old(store.DB) else After(old(store.DB), t.value)
    {
      ChatRequestMeans(store.DB, parse, provider, incoming, user, permissions, logged);
      if |incoming.arguments| != 2 {
        return;
      }
      var deploy := incoming.command == "deploy";
      var env := parse.id(incoming.arguments[0]);
      var revision := if deploy then Some(0) else parse.revision(incoming.arguments[1]);
      if env.None? || revision.None? {
        return;
      }
      var environment := store.GetEnvironment(env.value);
      var action := if deploy then DeployAction else RollbackAction;
      if environment.Err? || !PrincipalAllows(permissions, action, environment.value.app) {
        return;
      }
      var origin := Origin(provider, incoming.conversation, incoming.event);
      var key := ProviderName(provider) + ":" + incoming.event;
      var kind := if deploy then Deploy else Rollback;
      var image := if deploy then incoming.arguments[1] else "";
      ghost var t := Request(user, kind, env.value, image, revision.value, key, origin, logged);
      assert CommandTxn(store.DB, parse, provider, incoming, user, permissions, logged) == Some(t);
      RequestRuns(store.DB, t);
      var reply := app.RequestOperationWithOrigin(user, kind, env.value, image, revision.value, key, origin, logged);
    }
  }

  /** What the transaction of a deploy or rollback command does, and when it does anything. */
  lemma ChatRequestMeans(db: Db, parse: Parsers, provider: Provider, p: Payload, user: Id,
                         permissions: seq<Permission>, logged: bool)
    requires p.command == "deploy" || p.command == "rollback"
    ensures var t := CommandTxn(db, parse, provider, p, user, permissions, logged);
            var d := if t.None? then db else After(db, t.value);
            && (d != db ==> RequestedBy(db, d, parse, provider, p, permissions, user))
            && (d != db <==> MayRequest(db, parse, provider, p, user, permissions))
  {
    var t := CommandTxn(db, parse, provider, p, user, permissions, logged);
    if t.Some? {
      RequestRuns(db, t.value);
      History.RequestSucceedsIff(db, t.value.requester, t.value.kind, t.value.target, t.value.image,
                                 t.value.revision, t.value.key, t.value.origin, logged);
    }
  }

  lemma RequestRuns(db: Db, t: Txn)
    requires t.Request?
    ensures After(db, t) ==
            RequestOperation(db, t.requester, t.kind, t.target, t.image, t.revision, t.key, t.origin, t.logged).0
    ensures After(db, t).approvals == db.approvals
  {
  }

  lemma NeverForbidden(db: Db, requester: Id, kind: Kind, env: Id, image: string, revision: int, key: string,
                       origin: Origin, logged: bool)
    ensures var r := RequestOperation(db, requester, kind, env, image, revision, key, origin, logged).1;
            r != Failure(Error.Forbidden)
  {
  }

  /** A callback is heeded from the active provider, decoded, no challenge, and from a known sender. */
  predicate Heeded(db: Db, c: Call)
    requires c.Callback?
  {
    && c.provider == Database.Active(db) && ValidProvider(c.provider) && c.provider != Web
    && c.payload.Some? && c.payload.value.challenge == "" && c.sender.user.Some? && c.sender.permissions.Some?
  }

  /** Some permission is an administrator's, or is for this very action on this very application. */
  ghost predicate Grants(permissions: seq<Permission>, action: Action, app: Id) {
    exists i :: 0 <= i < |permissions| &&
      (permissions[i].action == AdminAction
       || (permissions[i].action == action && permissions[i].app == Some(app)))
  }

  /** The caller may decide this operation: it is pending, somebody else's, and the decision is one of the two. */
  ghost predicate MayDecide(
      db: Db, permissions: seq<Permission>, who: Option<Id>, id: Option<Id>, decision: string)
  {
    && id.Some? && id.value < |db.ops| && db.ops[id.value].status == PendingApproval
    && Grants(permissions, ApproveAction, db.ops[id.value].app)
    && who.Some? && who.value in db.users && who.value != db.ops[id.value].requester
    && (decision == "approved" || decision == "rejected")
  }

  /** A deploy or rollback command that is well-formed, permitted, and the first of its event. */
  ghost predicate MayRequest(
      db: Db, parse: Parsers, provider: Provider, p: Payload, user: Id, permissions: seq<Permission>)
  {
    && |p.arguments| == 2 && parse.id(p.arguments[0]).Some? && parse.id(p.arguments[0]).value < |db.envs|
    && var e := db.envs[parse.id(p.arguments[0]).value];
       && user in db.users
       && (forall i :: 0 <= i < |db.ops| ==> db.ops[i].key != ProviderName(provider) + ":" + p.event)
       && (p.command == "deploy" ==> e.imagePrefix <= p.arguments[1] && Grants(permissions, DeployAction, e.app))
       && (p.command != "deploy" ==>
             parse.revision(p.arguments[1]).Some? && Grants(permissions, RollbackAction, e.app))
  }

  ghost predicate MayCommand(
      db: Db, parse: Parsers, provider: Provider, p: Payload, user: Id, permissions: seq<Permission>)
  {
    if p.command == "approve" then
      |p.arguments| == 2 && MayDecide(db, permissions, Some(user), parse.id(p.arguments[0]), p.arguments[1])
    else
      (p.command == "deploy" || p.command == "rollback") && MayRequest(db, parse, provider, p, user, permissions)
  }

  /**
   * The pending row is approved or rejected, as decided, by somebody else than its requester who may approve for
   * its application; one approval with that decision and comment is added, and no other row changes.
   */
  ghost predicate ApprovedBy(
      db: Db, d: Db, permissions: seq<Permission>, user: Id, id: Id, decision: string, comment: string)
  {
    && id < |db.ops| && db.ops[id].status == PendingApproval && db.ops[id].requester != user
    && Grants(permissions, ApproveAction, db.ops[id].app)
    && OnlyRow(db.ops, d.ops, id)
    && d.ops[id] == db.ops[id].(status := if decision == "rejected" then Rejected else Queued)
    && d.approvals == db.approvals + [Approval(id, user, decision, comment)]
  }

  /** The command's operation is created for the user, under the key of the event, by a user who may request it. */
  ghost predicate RequestedBy(
      db: Db, d: Db, parse: Parsers, provider: Provider, p: Payload, permissions: seq<Permission>, user: Id) {
    && Appended(db.ops, d.ops) && d.approvals == db.approvals
    && var o := d.ops[|db.ops|];
       && AsCommanded(o, parse, p)
       && Grants(permissions, if o.kind == Rollback then RollbackAction else DeployAction, o.app)
       && o.requester == user && o.conversation == p.conversation && o.event == p.event
       && o.key == ProviderName(provider) + ":" + p.event
       && o.provider == (if provider == UnknownProvider("") then Web else provider)
  }

  predicate AsCommanded(o: Operation, parse: Parsers, p: Payload) {
    && |p.arguments| == 2 && parse.id(p.arguments[0]) == Some(o.env)
    && if p.command == "deploy" then o.kind == Deploy && o.image == p.arguments[1] && o.revision == 0
       else
         && p.command == "rollback" && o.kind == Rollback && o.image == ""
         && parse.revision(p.arguments[1]) == Some(o.revision)
  }

  /** A command's request is created, or the decision it names is made. */
  ghost predicate Served(
      db: Db, d: Db, parse: Parsers, provider: Provider, p: Payload, user: Id, permissions: seq<Permission>) {
    if p.command == "approve" then
      && |p.arguments| == 2 && parse.id(p.arguments[0]).Some?
      && ApprovedBy(db, d, permissions, user, parse.id(p.arguments[0]).value, p.arguments[1], "")
    else RequestedBy(db, d, parse, provider, p, permissions, user)
  }
}
