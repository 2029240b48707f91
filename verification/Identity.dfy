/** External identities: which subject a user is at each provider, and who a subject is. */
module Identity {
  import opened Domain
  import Text

  datatype User = User(name: string, enabled: bool)

  datatype Row = Row(user: Id, provider: Provider, subject: string, name: string)

  /** `grants` are the user_roles rows; `adminRole` is the role named admin, if there is one. */
  datatype Table = Table(users: seq<User>, rows: seq<Row>, adminRole: Option<Id>, grants: set<(Id, Id)>)

  const ADMIN_SUBJECT := "local-development-admin"
  const ADMIN_NAME := "Local Development Administrator"

  // ---------- queries ----------

  /** Whom the row of a subject names. */
  function UserOf(rows: seq<Row>, provider: Provider, subject: string): Option<Id> {
    if rows == [] then None
    else if rows[0].provider == provider && rows[0].subject == subject then Some(rows[0].user)
    else UserOf(rows[1..], provider, subject)
  }

  /** What a user's row for a provider names. */
  function SubjectOf(rows: seq<Row>, user: Id, provider: Provider): Option<string> {
    if rows == [] then None
    else if rows[0].user == user && rows[0].provider == provider then Some(rows[0].subject)
    else SubjectOf(rows[1..], user, provider)
  }

  function FindUser(t: Table, provider: Provider, subject: string): Result<Id> {
    if !ValidProvider(provider) then Err(InvalidInput)
    else
      var user := UserOf(t.rows, provider, Text.TrimSpace(subject));
      if user.Some? && user.value < |t.users| && t.users[user.value].enabled then Ok(user.value) else Err(NotFound)
  }

  predicate Holds(rows: seq<Row>, user: Id, provider: Provider, subject: string) {
    exists i :: 0 <= i < |rows| && rows[i].user == user && rows[i].provider == provider && rows[i].subject == subject
  }

  /** The two unique constraints. */
  predicate Unique(rows: seq<Row>) {
    forall i, j :: 0 <= i < j < |rows| && rows[i].provider == rows[j].provider ==>
      rows[i].user != rows[j].user && rows[i].subject != rows[j].subject
  }

  lemma HoldsUnfolds(rows: seq<Row>, user: Id, provider: Provider, subject: string)
    requires rows != []
    ensures Holds(rows, user, provider, subject) <==>
            || (rows[0].user == user && rows[0].provider == provider && rows[0].subject == subject)
            || Holds(rows[1..], user, provider, subject)
  {
    assert forall i :: 0 < i < |rows| ==> rows[i] == rows[1..][i - 1];
    if Holds(rows[1..], user, provider, subject) {
      var i :| 0 <= i < |rows[1..]| && rows[1..][i].user == user && rows[1..][i].provider == provider
               && rows[1..][i].subject == subject;
      assert rows[i + 1] == rows[1..][i];
    }
  }

  lemma {:induction false} UserOfMeans(rows: seq<Row>, user: Id, provider: Provider, subject: string)
    requires Unique(rows)
    ensures UserOf(rows, provider, subject) == Some(user) <==> Holds(rows, user, provider, subject)
  {
    if rows != [] {
      HoldsUnfolds(rows, user, provider, subject);
      UserOfMeans(rows[1..], user, provider, subject);
      if Holds(rows[1..], user, provider, subject) {
        var i :| 0 <= i < |rows[1..]| && rows[1..][i].user == user && rows[1..][i].provider == provider
                 && rows[1..][i].subject == subject;
        assert rows[i + 1] == rows[1..][i];
      }
    }
  }

  lemma {:induction false} SubjectOfMeans(rows: seq<Row>, user: Id, provider: Provider, subject: string)
    requires Unique(rows)
    ensures SubjectOf(rows, user, provider) == Some(subject) <==> Holds(rows, user, provider, subject)
  {
    if rows != [] {
      HoldsUnfolds(rows, user, provider, subject);
      SubjectOfMeans(rows[1..], user, provider, subject);
      if Holds(rows[1..], user, provider, subject) {
        var i :| 0 <= i < |rows[1..]| && rows[1..][i].user == user && rows[1..][i].provider == provider
                 && rows[1..][i].subject == subject;
        assert rows[i + 1] == rows[1..][i];
      }
    }
  }

  /** Subject of a user and user of a subject are inverse partial maps. */
  lemma InverseMaps(rows: seq<Row>, user: Id, provider: Provider, subject: string)
    requires Unique(rows)
    ensures SubjectOf(rows, user, provider) == Some(subject) <==> UserOf(rows, provider, subject) == Some(user)
  {
    UserOfMeans(rows, user, provider, subject);
    SubjectOfMeans(rows, user, provider, subject);
  }

  // ---------- statements ----------

  /** The position of a user's row for a provider, or the end. */
  function Place(rows: seq<Row>, user: Id, provider: Provider): (i: nat)
    ensures i <= |rows|
    ensures i < |rows| ==> rows[i].user == user && rows[i].provider == provider
    ensures forall j :: 0 <= j < i ==> !(rows[j].user == user && rows[j].provider == provider)
  {
    if rows == [] || (rows[0].user == user && rows[0].provider == provider) then 0
    else 1 + Place(rows[1..], user, provider)
  }

  /** INSERT ... ON CONFLICT (user_id, provider) DO UPDATE. */
  function InsertOrUpdate(t: Table, row: Row): (Table, Result<()>) {
    var i := Place(t.rows, row.user, row.provider);
    var holder := UserOf(t.rows, row.provider, row.subject);
    if holder.Some? && holder.value != row.user then (t, Err(UniqueViolation))
    else if row.user >= |t.users| then (t, Err(ForeignKeyViolation))
    else (t.(rows := if i < |t.rows| then t.rows[i := row] else t.rows + [row]), Ok(()))
  }

  function Upsert(t: Table, user: Option<Id>, provider: Provider, subject: string, name: string): (Table, Result<()>) {
    if !ValidProvider(provider) then (t, Err(InvalidInput))
    else if user.None? || Text.TrimSpace(subject) == "" then (t, Err(InvalidInput))
    else InsertOrUpdate(t, Row(user.value, provider, Text.TrimSpace(subject), Text.TrimSpace(name)))
  }

  function EnsureAdmin(t: Table): (Table, Result<Id>) {
    var found := FindUser(t, Web, ADMIN_SUBJECT);
    var user := if found.Ok? then found.value else |t.users|;
    if found.Err? && UserOf(t.rows, Web, ADMIN_SUBJECT).Some? then (t, Err(UniqueViolation))
    else if t.adminRole.None? then (t, Err(NotFound))
    else
      var created := if found.Ok? then t else
        t.(users := t.users + [User(ADMIN_NAME, true)], rows := t.rows + [Row(user, Web, ADMIN_SUBJECT, ADMIN_NAME)]);
      (created.(grants := created.grants + {(user, t.adminRole.value)}), Ok(user))
  }

  // ---------- the store ----------

  class Directory {
    var table: Table

    constructor (table: Table)
      ensures this.table == table
    {
      this.table := table;
    }

    method FindUserByIdentity(provider: Provider, subject: string) returns (r: Result<Id>)
      ensures Unique(table.rows) ==>
                forall u: Id :: r == Ok(u) <==>
                  && ValidProvider(provider) && Holds(table.rows, u, provider, Text.TrimSpace(subject))
                  && u < |table.users| && table.users[u].enabled
      ensures r.Err? ==> r.error == if ValidProvider(provider) then NotFound else InvalidInput
      ensures r == FindUser(table, provider, subject)
    {
      if Unique(table.rows) {
        forall u: Id ensures UserOf(table.rows, provider, Text.TrimSpace(subject)) == Some(u) <==>
                             Holds(table.rows, u, provider, Text.TrimSpace(subject)) {
          UserOfMeans(table.rows, u, provider, Text.TrimSpace(subject));
        }
      }
      if !ValidProvider(provider) {
        return Err(InvalidInput);
      }
      var trimmed := Text.TrimSpace(subject);
      var i := 0;
      while i < |table.rows|
        invariant 0 <= i <= |table.rows|
        invariant UserOf(table.rows, provider, trimmed) == UserOf(table.rows[i..], provider, trimmed)
      {
        var row := table.rows[i];
        if row.provider == provider && row.subject == trimmed {
          if row.user < |table.users| && table.users[row.user].enabled {
            return Ok(row.user);
          }
          return Err(NotFound);
        }
        assert table.rows[i..][1..] == table.rows[i + 1..];
        i := i + 1;
      }
      return Err(NotFound);
    }

    /** On success the user's subject is the new one and nobody else's changes; a failure changes nothing. */
    method UpsertExternalIdentity(user: Option<Id>, provider: Provider, subject: string, name: string)
      returns (r: Result<()>)
      requires Inv(table)
      modifies this
      ensures r.Ok? <==>
              && ValidProvider(provider) && user.Some? && user.value < |old(table).users| && !Text.Blank(subject)
              && forall other: Id :: Holds(old(table).rows, other, provider, Text.TrimSpace(subject)) ==>
                   other == user.value
      ensures r.Ok? ==> && Inv(table) && table.users == old(table).users
                        && Repointed(old(table).rows, table.rows, user.value, provider, Text.TrimSpace(subject))
      ensures r.Err? ==> table == old(table)
      ensures (table, r) == Upsert(old(table), user, provider, subject, name)
    {
      UpsertSucceedsIff(table, user, provider, subject, name);
      if !ValidProvider(provider) {
        return Err(InvalidInput);
      }
      if user.None? || Text.TrimSpace(subject) == "" {
        return Err(InvalidInput);
      }
      var row := Row(user.value, provider, Text.TrimSpace(subject), Text.TrimSpace(name));
      var after := InsertOrUpdate(table, row);
      if after.1.Ok? {
        InsertOrUpdateEffect(table, row);
      }
      table := after.0;
      return after.1;
    }

    /** INSERT of a user, and of an identity that must not violate a unique constraint. */
    method CreateUser(name: string) returns (id: Id)
      modifies this
      ensures id == |old(table).users| && table == old(table).(users := old(table).users + [User(name, true)])
    {
      id := |table.users|;
      table := table.(users := table.users + [User(name, true)]);
    }

    method CreateIdentity(row: Row) returns (ok: bool)
      modifies this
      ensures ok <==> && UserOf(old(table).rows, row.provider, row.subject).None?
                      && SubjectOf(old(table).rows, row.user, row.provider).None?
      ensures table == if ok then old(table).(rows := old(table).rows + [row]) else old(table)
    {
      ok := UserOf(table.rows, row.provider, row.subject).None? && SubjectOf(table.rows, row.user, row.provider).None?;
      if ok {
        table := table.(rows := table.rows + [row]);
      }
    }

    /** One transaction under an advisory lock: an error puts back the user and the identity just created. */
    method EnsureDevelopmentAdmin() returns (r: Result<Id>)
      requires KnownUsers(table)
      modifies this
      ensures r.Err? ==> table == old(table)
      ensures r.Ok? ==>
                && table.adminRole == old(table).adminRole && table.adminRole.Some?
                && table.grants == old(table).grants + {(r.value, table.adminRole.value)}
                && if FindUser(old(table), Web, "local-development-admin").Ok? then
                     && r == FindUser(old(table), Web, "local-development-admin")
                     && table.users == old(table).users && table.rows == old(table).rows
                   else
                     && r.value == |old(table).users|
                     && table.users == old(table).users + [User("Local Development Administrator", true)]
                     && table.rows == old(table).rows + [
                          Row(r.value, Web, "local-development-admin", "Local Development Administrator")]
      ensures (table, r) == EnsureAdmin(old(table))
    {
      var before := table;
      var found := FindUserByIdentity(Web, ADMIN_SUBJECT);
      var user;
      if found.Ok? {
        user := found.value;
      } else if found.error != NotFound {
        return found;
      } else {
        NoRowsOfNewUser(table.rows, |table.users|, Web);
        user := CreateUser(ADMIN_NAME);
        var inserted := CreateIdentity(Row(user, Web, ADMIN_SUBJECT, ADMIN_NAME));
        if !inserted {
          table := before;
          return Err(UniqueViolation);
        }
      }
      if table.adminRole.None? {
        table := before;
        return Err(NotFound);
      }
      table := table.(grants := table.grants + {(user, table.adminRole.value)});
      return Ok(user);
    }
  }

  /** The foreign key. */
  predicate KnownUsers(t: Table) {
    forall i :: 0 <= i < |t.rows| ==> t.rows[i].user < |t.users|
  }

  lemma {:induction false} NoRowsOfNewUser(rows: seq<Row>, user: Id, provider: Provider)
    requires forall i :: 0 <= i < |rows| ==> rows[i].user < user
    ensures SubjectOf(rows, user, provider).None?
  {
    if rows != [] {
      NoRowsOfNewUser(rows[1..], user, provider);
    }
  }

  // ---------- one upsert ----------

  ghost predicate Inv(t: Table) {
    Unique(t.rows) && KnownUsers(t)
  }

  /** The user's subject at the provider is the given one, and every other pair is what it was. */
  ghost predicate Repointed(before: seq<Row>, after: seq<Row>, user: Id, provider: Provider, subject: string) {
    forall u: Id, p, s :: Holds(after, u, p, s) <==>
      if u == user && p == provider then s == subject else Holds(before, u, p, s)
  }

  lemma InsertOrUpdateEffect(t: Table, row: Row)
    requires Inv(t) && InsertOrUpdate(t, row).1.Ok?
    ensures Inv(InsertOrUpdate(t, row).0)
    ensures Repointed(t.rows, InsertOrUpdate(t, row).0.rows, row.user, row.provider, row.subject)
  {
    var rows, now, i := t.rows, InsertOrUpdate(t, row).0.rows, Place(t.rows, row.user, row.provider);
    assert now[i] == row;
    forall j | 0 <= j < |rows| && j != i && rows[j].provider == row.provider
      ensures rows[j].user != row.user && rows[j].subject != row.subject
    {
      if rows[j].subject == row.subject {
        assert Holds(rows, rows[j].user, row.provider, row.subject);
        UserOfMeans(rows, rows[j].user, row.provider, row.subject);
      }
    }
    forall u: Id, p, s ensures Holds(now, u, p, s) <==>
                               if u == row.user && p == row.provider then s == row.subject else Holds(rows, u, p, s) {
      if Holds(rows, u, p, s) && !(u == row.user && p == row.provider) {
        var j :| 0 <= j < |rows| && rows[j].user == u && rows[j].provider == p && rows[j].subject == s;
        assert now[j] == rows[j];
      }
    }
  }

  /** Exactly when an upsert succeeds. */
  lemma UpsertSucceedsIff(t: Table, user: Option<Id>, provider: Provider, subject: string, name: string)
    requires Inv(t)
    ensures Upsert(t, user, provider, subject, name).1.Ok? <==>
            && ValidProvider(provider) && user.Some? && user.value < |t.users| && !Text.Blank(subject)
            && forall other: Id :: Holds(t.rows, other, provider, Text.TrimSpace(subject)) ==> other == user.value
    ensures Upsert(t, user, provider, subject, name).1.Err? ==> Upsert(t, user, provider, subject, name).0 == t
  {
    BlankTrims(subject);
    forall other: Id ensures Holds(t.rows, other, provider, Text.TrimSpace(subject)) <==>
                             UserOf(t.rows, provider, Text.TrimSpace(subject)) == Some(other) {
      UserOfMeans(t.rows, other, provider, Text.TrimSpace(subject));
    }
    var holder := UserOf(t.rows, provider, Text.TrimSpace(subject));
    assert holder.Some? ==> Holds(t.rows, holder.value, provider, Text.TrimSpace(subject));
  }

  lemma BlankTrims(s: string)
    ensures Text.TrimSpace(s) == "" <==> Text.Blank(s)
  {
    Text.FieldsOfTrimSpace(s);
    Text.InkIsFields(s);
    Text.InkIsFields(Text.TrimSpace(s));
    Text.InkOfBlank(s);
    Text.InkOfBlank(Text.TrimSpace(s));
    Text.TrimSpaceIsTrimmed(s);
  }

  /** The resolved user, as far as the lookup goes. */
  function Enabled(t: Table, user: Id): Result<Id> {
    if user < |t.users| && t.users[user].enabled then Ok(user) else Err(NotFound)
  }

  /** Any padded form of the new subject finds the user if enabled. */
  lemma UpsertedSubjectResolves(
      t: Table, user: Id, provider: Provider, subject: string, name: string, before: string, after: string)
    requires Inv(t) && Upsert(t, Some(user), provider, subject, name).1.Ok?
    requires Text.Blank(before) && Text.Blank(after)
    ensures var now := Upsert(t, Some(user), provider, subject, name).0;
            && FindUser(now, provider, before + Text.TrimSpace(subject) + after) == Enabled(t, user)
            && FindUser(now, provider, subject) == Enabled(t, user)
  {
    var row := Row(user, provider, Text.TrimSpace(subject), Text.TrimSpace(name));
    var now := Upsert(t, Some(user), provider, subject, name).0;
    InsertOrUpdateEffect(t, row);
    UserOfMeans(now.rows, user, provider, row.subject);
    Text.TrimSpaceIsTrimmed(subject);
    Text.TrimSpaceOfPadded(before, row.subject, after);
  }

  /** The subject the user had before no longer resolves, and every other subject resolves as it did. */
  lemma UpsertTouchesNothingElse(
      t: Table, user: Id, provider: Provider, subject: string, name: string, p: Provider, asked: string)
    requires Inv(t) && Upsert(t, Some(user), provider, subject, name).1.Ok?
    requires p != provider || Text.TrimSpace(asked) != Text.TrimSpace(subject)
    ensures var now := Upsert(t, Some(user), provider, subject, name).0;
            && now.users == t.users
            && FindUser(now, p, asked) ==
               (if p == provider && SubjectOf(t.rows, user, provider) == Some(Text.TrimSpace(asked)) then Err(NotFound)
                else FindUser(t, p, asked))
  {
    var row := Row(user, provider, Text.TrimSpace(subject), Text.TrimSpace(name));
    var now, key := Upsert(t, Some(user), provider, subject, name).0, Text.TrimSpace(asked);
    InsertOrUpdateEffect(t, row);
    InverseMaps(t.rows, user, provider, key);
    var was, is_ := UserOf(t.rows, p, key), UserOf(now.rows, p, key);
    if was.Some? { UserOfMeans(t.rows, was.value, p, key); UserOfMeans(now.rows, was.value, p, key); }
    if is_.Some? { UserOfMeans(t.rows, is_.value, p, key); UserOfMeans(now.rows, is_.value, p, key); }
  }

  // ---------- the development admin ----------

  /** A user is created exactly when nobody holds the subject and there is a role to grant. */
  lemma EnsureCreatesIff(t: Table)
    requires Inv(t)
    ensures |EnsureAdmin(t).0.users| == |t.users| + (if t.adminRole.Some? && !HasAdmin(t) then 1 else 0)
    ensures EnsureAdmin(t).1.Ok? ==> FindUser(EnsureAdmin(t).0, Web, ADMIN_SUBJECT) == EnsureAdmin(t).1
    ensures EnsureAdmin(t).1.Err? ==> EnsureAdmin(t).0 == t
    ensures EnsureAdmin(t).1.Ok? ==> HasAdmin(EnsureAdmin(t).0)
                                     && (EnsureAdmin(t).1.value, t.adminRole.value) in EnsureAdmin(t).0.grants
    ensures Inv(EnsureAdmin(t).0)
  {
    AdminSubjectIsTrimmed();
    var t' := EnsureAdmin(t).0;
    if UserOf(t.rows, Web, ADMIN_SUBJECT).Some? {
      UserOfMeans(t.rows, UserOf(t.rows, Web, ADMIN_SUBJECT).value, Web, ADMIN_SUBJECT);
    } else {
      forall i | 0 <= i < |t.rows| && t.rows[i].provider == Web ensures t.rows[i].subject != ADMIN_SUBJECT {
        if t.rows[i].subject == ADMIN_SUBJECT {
          UserOfMeans(t.rows, t.rows[i].user, Web, ADMIN_SUBJECT);
          assert Holds(t.rows, t.rows[i].user, Web, ADMIN_SUBJECT);
        }
      }
      if t' != t {
        assert t'.rows[|t.rows|] == Row(|t.users|, Web, ADMIN_SUBJECT, ADMIN_NAME);
        assert Unique(t'.rows);
        assert Holds(t'.rows, |t.users|, Web, ADMIN_SUBJECT);
        UserOfMeans(t'.rows, |t.users|, Web, ADMIN_SUBJECT);
      }
    }
  }

  lemma AdminSubjectIsTrimmed()
    ensures Text.TrimSpace(ADMIN_SUBJECT) == ADMIN_SUBJECT
  {
    Text.TrimSpaceOfPadded("", ADMIN_SUBJECT, "");
    assert "" + ADMIN_SUBJECT + "" == ADMIN_SUBJECT;
  }

  /** Somebody holds the admin's subject. */
  predicate HasAdmin(t: Table) {
    UserOf(t.rows, Web, ADMIN_SUBJECT).Some?
  }

  // ---------- any run ----------

  /** `SetEnabled` stands for an operator's own update of the users table. */
  datatype Move =
    | AddUser(name: string)
    | SetEnabled(who: Id, enabled: bool)
    | Put(user: Option<Id>, provider: Provider, subject: string, name: string)
    | Ensure

  function Next(t: Table, m: Move): Table {
    match m
    case AddUser(name) => t.(users := t.users + [User(name, true)])
    case SetEnabled(who, enabled) =>
      if who < |t.users| then t.(users := t.users[who := t.users[who].(enabled := enabled)]) else t
    case Put(user, provider, subject, name) => Upsert(t, user, provider, subject, name).0
    case Ensure => EnsureAdmin(t).0
  }

  function Run(t: Table, moves: seq<Move>): Table {
    if moves == [] then t else Next(Run(t, moves[..|moves| - 1]), moves[|moves| - 1])
  }

  lemma NextKeepsInv(t: Table, m: Move)
    requires Inv(t)
    ensures Inv(Next(t, m))
  {
    match m
    case Put(user, provider, subject, name) =>
      UpsertSucceedsIff(t, user, provider, subject, name);
      if Upsert(t, user, provider, subject, name).1.Ok? {
        InsertOrUpdateEffect(t, Row(user.value, provider, Text.TrimSpace(subject), Text.TrimSpace(name)));
      }
    case Ensure => EnsureCreatesIff(t);
    case _ =>
  }

  lemma {:induction false} RunKeepsInv(t: Table, moves: seq<Move>)
    requires Inv(t)
    ensures Inv(Run(t, moves))
    decreases |moves|
  {
    if moves != [] {
      RunKeepsInv(t, moves[..|moves| - 1]);
      NextKeepsInv(Run(t, moves[..|moves| - 1]), moves[|moves| - 1]);
    }
  }

  function Empty(adminRole: Option<Id>): Table {
    Table([], [], adminRole, {})
  }

  /** In every run, subject of a user and user of a subject are inverse. */
  lemma {:induction false} AlwaysInverse(
      adminRole: Option<Id>, moves: seq<Move>, user: Id, provider: Provider, subject: string)
    ensures var rows := Run(Empty(adminRole), moves).rows;
            SubjectOf(rows, user, provider) == Some(subject) <==> UserOf(rows, provider, subject) == Some(user)
  {
    RunKeepsInv(Empty(adminRole), moves);
    InverseMaps(Run(Empty(adminRole), moves).rows, user, provider, subject);
  }

  /** A successful upsert gives the holder of the admin's subject another web subject. */
  predicate Releases(t: Table, m: Move) {
    && m.Put? && m.provider == Web && Upsert(t, m.user, m.provider, m.subject, m.name).1.Ok?
    && HasAdmin(t) && m.user == UserOf(t.rows, Web, ADMIN_SUBJECT) && Text.TrimSpace(m.subject) != ADMIN_SUBJECT
  }

  /** A successful upsert gives the admin's subject, held by nobody, to a user. */
  predicate Seizes(t: Table, m: Move) {
    && m.Put? && m.provider == Web && Upsert(t, m.user, m.provider, m.subject, m.name).1.Ok?
    && !HasAdmin(t) && Text.TrimSpace(m.subject) == ADMIN_SUBJECT
  }

  predicate Creates(t: Table, m: Move) {
    m.Ensure? && t.adminRole.Some? && !HasAdmin(t)
  }

  function Bit(b: bool): nat {
    if b then 1 else 0
  }

  /** How many moves of a run are of a kind. */
  function Count(kind: (Table, Move) -> bool, t: Table, moves: seq<Move>): nat {
    if moves == [] then 0
    else
      var before := moves[..|moves| - 1];
      Count(kind, t, before) + Bit(kind(Run(t, before), moves[|moves| - 1]))
  }

  /** Somebody holds the admin's subject after a move: who held it was not released, or it was seized or created. */
  lemma AdminHeldIff(t: Table, m: Move)
    requires Inv(t)
    ensures HasAdmin(Next(t, m)) <==> (HasAdmin(t) && !Releases(t, m)) || Seizes(t, m) || Creates(t, m)
  {
    match m
    case Put(user, provider, subject, name) =>
      UpsertSucceedsIff(t, user, provider, subject, name);
      if Upsert(t, user, provider, subject, name).1.Ok? {
        var row := Row(user.value, provider, Text.TrimSpace(subject), Text.TrimSpace(name));
        InsertOrUpdateEffect(t, row);
        HolderAfter(t.rows, Next(t, m).rows, row.user, row.provider, row.subject);
      }
    case Ensure => EnsureCreatesIff(t); AdminSubjectIsTrimmed();
    case _ =>
  }

  /** Who holds the admin's subject once one user's subject changes. */
  lemma HolderAfter(before: seq<Row>, after: seq<Row>, user: Id, provider: Provider, subject: string)
    requires Unique(before) && Unique(after) && Repointed(before, after, user, provider, subject)
    ensures var (was, is_) := (UserOf(before, Web, ADMIN_SUBJECT), UserOf(after, Web, ADMIN_SUBJECT));
            is_ == if provider == Web && subject == ADMIN_SUBJECT then Some(user)
                   else if provider == Web && was == Some(user) then None else was
  {
    var was, is_ := UserOf(before, Web, ADMIN_SUBJECT), UserOf(after, Web, ADMIN_SUBJECT);
    UserOfMeans(after, user, Web, ADMIN_SUBJECT);
    if was.Some? {
      UserOfMeans(before, was.value, Web, ADMIN_SUBJECT);
      UserOfMeans(after, was.value, Web, ADMIN_SUBJECT);
    }
    if is_.Some? {
      UserOfMeans(before, is_.value, Web, ADMIN_SUBJECT);
      UserOfMeans(after, is_.value, Web, ADMIN_SUBJECT);
    }
  }

  /** A development admin is created for every release, and for the final holder, that no seizure accounts for. */
  lemma {:induction false} AdminsCreated(t: Table, moves: seq<Move>)
    requires Inv(t)
    ensures Count(Creates, t, moves) + Count(Seizes, t, moves) + Bit(HasAdmin(t))
            == Count(Releases, t, moves) + Bit(HasAdmin(Run(t, moves)))
    decreases |moves|
  {
    if moves != [] {
      var before, m := moves[..|moves| - 1], moves[|moves| - 1];
      AdminsCreated(t, before);
      RunKeepsInv(t, before);
      AdminHeldIff(Run(t, before), m);
    }
  }

  /** How many users the calls of EnsureDevelopmentAdmin add to the table. */
  function UsersAdded(t: Table, moves: seq<Move>): nat {
    if moves == [] then 0
    else
      var before := moves[..|moves| - 1];
      var grown := |Run(t, moves).users| > |Run(t, before).users|;
      UsersAdded(t, before) + Bit(moves[|moves| - 1].Ensure? && grown)
  }

  lemma {:induction false} UsersAddedAreCreated(t: Table, moves: seq<Move>)
    requires Inv(t)
    ensures UsersAdded(t, moves) == Count(Creates, t, moves)
    decreases |moves|
  {
    if moves != [] {
      var before := moves[..|moves| - 1];
      UsersAddedAreCreated(t, before);
      RunKeepsInv(t, before);
      EnsureCreatesIff(Run(t, before));
    }
  }

  /**
   * However often EnsureDevelopmentAdmin is called, it adds at most one user exactly when each release but
   * the first is met by a seizure, a holder at the end counting as one release more.
   */
  lemma {:induction false} AtMostOneAdminIff(adminRole: Option<Id>, moves: seq<Move>)
    ensures var t := Empty(adminRole);
            UsersAdded(t, moves) <= 1 <==>
            Count(Releases, t, moves) + Bit(HasAdmin(Run(t, moves))) <= 1 + Count(Seizes, t, moves)
    ensures Count(Releases, Empty(adminRole), moves) == 0 ==> UsersAdded(Empty(adminRole), moves) <= 1
  {
    AdminsCreated(Empty(adminRole), moves);
    UsersAddedAreCreated(Empty(adminRole), moves);
  }

  /** With a release, there can be two. */
  lemma {:induction false} ReleaseAllowsSecondAdmin(role: Id)
    ensures var moves := [Ensure, Put(Some(0), Web, "someone", ""), Ensure];
            |Run(Empty(Some(role)), moves).users| == 2 && Count(Releases, Empty(Some(role)), moves) == 1
  {
    var t := Empty(Some(role));
    var t1 := Next(t, Ensure);
    AdminSubjectIsTrimmed();
    assert t1.rows == [Row(0, Web, ADMIN_SUBJECT, ADMIN_NAME)];
    assert UserOf(t1.rows, Web, ADMIN_SUBJECT) == Some(0);
    var put := Put(Some(0), Web, "someone", "");
    Text.TrimSpaceOfPadded("", "someone", "");
    assert "" + "someone" + "" == "someone";
    assert UserOf(t1.rows[1..], Web, "someone") == None;
    assert Place(t1.rows, 0, Web) == 0;
    var t2 := Next(t1, put);
    assert t2.rows[0].subject == "someone" && |t2.rows| == 1;
    assert UserOf(t2.rows[1..], Web, ADMIN_SUBJECT) == None;
    var moves := [Ensure, put, Ensure];
    assert moves[..2] == [Ensure, put] && [Ensure, put][..1] == [Ensure] && [Ensure][..0] == [];
    assert Run(t, [Ensure]) == t1;
    assert Run(t, [Ensure, put]) == t2;
    assert Count(Releases, t, [Ensure]) == 0;
    assert Releases(t1, put);
    assert Count(Releases, t, [Ensure, put]) == 1;
  }
}
