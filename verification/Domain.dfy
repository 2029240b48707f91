/** The values every part of the program shares: providers, operation statuses, errors. */
module Domain {

  datatype Option<+T> = None | Some(value: T)

  datatype Result<+T> = Ok(value: T) | Err(error: Error)

  /** The sentinel errors of the domain, and the database's own refusals. */
  datatype Error =
    | NotFound
    | Conflict
    | Forbidden
    | InvalidState
    | SelfApproval
    | InvalidInput
    | UniqueViolation
    | ForeignKeyViolation
    | CheckViolation
    | Unavailable

  /** Rows are never deleted, so a row's identifier is its position in its table. */
  type Id = nat

  /** A column of type time.Time that the program never sets holds Go's zero time. */
  const ZERO_TIME: nat := 0

  datatype Provider = Web | Feishu | WeCom | DingTalk | UnknownProvider(name: string)

  predicate ValidProvider(p: Provider) {
    !p.UnknownProvider?
  }

  function ProviderName(p: Provider): string {
    match p
    case Web => "web"
    case Feishu => "feishu"
    case WeCom => "wecom"
    case DingTalk => "dingtalk"
    case UnknownProvider(name) => name
  }

  datatype Kind = Deploy | Rollback | UnknownKind(name: string)

  datatype Status = PendingApproval | Approved | Rejected | Expired | Queued | Running | Succeeded | Failed

  const LEGAL_TRANSITIONS: map<Status, set<Status>> := map[
    PendingApproval := {Approved, Rejected, Expired},
    Approved := {Queued},
    Queued := {Running},
    Running := {Succeeded, Failed}
  ]

  predicate CanTransitionTo(s: Status, next: Status) {
    s in LEGAL_TRANSITIONS && next in LEGAL_TRANSITIONS[s]
  }

  predicate Finished(s: Status) {
    s == Succeeded || s == Failed
  }

  /** The statuses that block a provider switch. */
  predicate Unfinished(s: Status) {
    s in {PendingApproval, Approved, Queued, Running}
  }

  datatype Environment = Environment(
    app: Id, name: string, cluster: Id, namespace: string, deployment: string, container: string,
    imagePrefix: string, approvalRequired: bool, rolloutTimeoutSeconds: int)

  datatype Origin = Origin(provider: Provider, conversation: string, event: string)

  datatype Action = ViewAction | DeployAction | RollbackAction | ApproveAction | AdminAction

  datatype Permission = Permission(app: Option<Id>, action: Action)

  predicate PermissionAllows(p: Permission, action: Action, app: Id) {
    p.action == AdminAction || (p.action == action && p.app == Some(app))
  }

  predicate PrincipalAllows(permissions: seq<Permission>, action: Action, app: Id) {
    exists i :: 0 <= i < |permissions| && PermissionAllows(permissions[i], action, app)
  }
}
