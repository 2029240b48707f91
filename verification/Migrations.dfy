/** The schema migration runner: one transaction a call, one savepoint a file. */
module Migrations {

  // ---------- sort.Strings ----------

  /** Go's order on strings. */
  predicate AtMost(a: string, b: string) {
    a == "" || (b != "" && (a[0] < b[0] || (a[0] == b[0] && AtMost(a[1..], b[1..]))))
  }

  lemma {:induction false} AtMostIsTotal(a: string, b: string)
    ensures AtMost(a, b) || AtMost(b, a)
    ensures AtMost(a, b) && AtMost(b, a) ==> a == b
  {
    if a != "" && b != "" && a[0] == b[0] {
      AtMostIsTotal(a[1..], b[1..]);
      assert a == [a[0]] + a[1..] && b == [b[0]] + b[1..];
    }
  }

  lemma {:induction false} AtMostIsTransitive(a: string, b: string, c: string)
    requires AtMost(a, b) && AtMost(b, c)
    ensures AtMost(a, c)
  {
    if a != "" && a[0] == b[0] == c[0] {
      AtMostIsTransitive(a[1..], b[1..], c[1..]);
    }
  }

  predicate Sorted(names: seq<string>) {
    forall i, j :: 0 <= i < j < |names| ==> AtMost(names[i], names[j])
  }

  /** After a common prefix of length `k`, `a` has the smaller character. */
  ghost predicate SmallerAt(a: string, b: string, k: nat) {
    k < |a| && k < |b| && a[..k] == b[..k] && a[k] < b[k]
  }

  /** `a` comes before `b`: it is a proper prefix, or the first character in which they differ is smaller. */
  ghost predicate Precedes(a: string, b: string) {
    (a <= b && |a| < |b|) || exists k: nat :: SmallerAt(a, b, k)
  }

  ghost predicate Ascending(names: seq<string>) {
    forall i, j :: 0 <= i < j < |names| ==> Precedes(names[i], names[j])
  }

  /** The recursive order, by common prefix and first differing character. */
  lemma {:induction false} AtMostMeans(a: string, b: string)
    ensures AtMost(a, b) <==> a == b || Precedes(a, b)
    ensures !(Precedes(a, b) && Precedes(b, a))
  {
    if a == "" || b == "" {
      assert a == "" && b != "" ==> a <= b && |a| < |b|;
    } else {
      AtMostMeans(a[1..], b[1..]);
      assert a == [a[0]] + a[1..] && b == [b[0]] + b[1..];
      PrecedesUnfolds(a, b);
      PrecedesUnfolds(b, a);
    }
  }

  lemma FirstOfPrefix(a: string, b: string, k: nat)
    requires k <= |a| && k <= |b| && a[..k] == b[..k] && a != "" && b != ""
    ensures k == 0 || a[0] == b[0]
  {
    if k > 0 {
      assert a[..k][0] == a[0] && b[..k][0] == b[0];
    }
  }

  lemma PrecedesUnfolds(a: string, b: string)
    requires a != "" && b != ""
    ensures Precedes(a, b) <==> a[0] < b[0] || (a[0] == b[0] && Precedes(a[1..], b[1..]))
  {
    var x, y := a[1..], b[1..];
    assert a == [a[0]] + x && b == [b[0]] + y;
    if a[0] < b[0] {
      assert SmallerAt(a, b, 0);
    } else if a[0] == b[0] {
      assert a <= b <==> x <= y;
      forall k: nat | SmallerAt(x, y, k) ensures SmallerAt(a, b, k + 1) {
        assert a[..k + 1] == [a[0]] + x[..k] && b[..k + 1] == [b[0]] + y[..k];
      }
      forall k: nat | SmallerAt(a, b, k) ensures k > 0 && SmallerAt(x, y, k - 1) {
        assert x[..k - 1] == a[1..k] == a[..k][1..] && y[..k - 1] == b[1..k] == b[..k][1..];
      }
    } else {
      forall k: nat | SmallerAt(a, b, k) ensures false {
        FirstOfPrefix(a, b, k);
      }
    }
  }

  function Insert(names: seq<string>, name: string): seq<string> {
    if names == [] || AtMost(name, names[0]) then [name] + names else [names[0]] + Insert(names[1..], name)
  }

  function Sort(names: seq<string>): seq<string> {
    if names == [] then [] else Insert(Sort(names[1..]), names[0])
  }

  lemma {:induction false} InsertSorts(names: seq<string>, name: string)
    requires Sorted(names)
    ensures Sorted(Insert(names, name)) && multiset(Insert(names, name)) == multiset(names) + multiset{name}
  {
    if names == [] {
    } else if AtMost(name, names[0]) {
      forall i | 0 <= i < |names| ensures AtMost(name, names[i]) {
        if i > 0 { AtMostIsTransitive(name, names[0], names[i]); }
      }
    } else {
      InsertSorts(names[1..], name);
      AtMostIsTotal(name, names[0]);
      SmallestStaysFirst(names, name, Insert(names[1..], name));
      assert names == [names[0]] + names[1..];
    }
  }

  lemma SmallestStaysFirst(names: seq<string>, name: string, rest: seq<string>)
    requires Sorted(names) && names != [] && AtMost(names[0], name)
    requires multiset(rest) == multiset(names[1..]) + multiset{name}
    ensures forall i :: 0 <= i < |rest| ==> AtMost(names[0], rest[i])
  {
    forall i | 0 <= i < |rest| ensures AtMost(names[0], rest[i]) {
      assert rest[i] in multiset(rest);
      assert rest[i] == name || rest[i] in names[1..];
    }
  }

  lemma {:induction false} SortPermutes(names: seq<string>)
    ensures Sorted(Sort(names)) && multiset(Sort(names)) == multiset(names)
  {
    if names != [] {
      SortPermutes(names[1..]);
      InsertSorts(Sort(names[1..]), names[0]);
      assert names == [names[0]] + names[1..];
    }
  }

  /** The same names, each before or equal to all the later ones. */
  lemma SortSorts(names: seq<string>)
    ensures multiset(Sort(names)) == multiset(names)
    ensures Sorted(Sort(names))
    ensures forall i, j :: 0 <= i < j < |Sort(names)| ==>
              Sort(names)[i] == Sort(names)[j] || Precedes(Sort(names)[i], Sort(names)[j])
  {
    SortPermutes(names);
    var sorted := Sort(names);
    forall i, j | 0 <= i < j < |sorted| ensures sorted[i] == sorted[j] || Precedes(sorted[i], sorted[j]) {
      AtMostMeans(sorted[i], sorted[j]);
    }
  }

  // ---------- the schema ----------

  /** What a migration body leaves in the database; a failing one may leave a part of it. */
  datatype Effect = Whole(name: string) | Part(name: string)

  /** The rows of schema_migrations, and the effects of every body executed. */
  datatype Schema = Schema(recorded: seq<string>, effects: seq<Effect>)

  /** Where the statements of one call fail. */
  datatype Faults = Faults(
    lock: bool, table: bool, list: bool, count: string -> bool, read: string -> bool, body: string -> bool,
    insert: string -> bool, commit: bool)

  const SUFFIX := ".up.sql"

  predicate IsUp(name: string) {
    |name| >= |SUFFIX| && name[|name| - |SUFFIX|..] == SUFFIX
  }

  function UpNames(entries: seq<string>): seq<string> {
    if entries == [] then []
    else (if IsUp(entries[0]) then [entries[0]] else []) + UpNames(entries[1..])
  }

  function Names(entries: seq<string>): seq<string> {
    Sort(UpNames(entries))
  }

  lemma {:induction false} UpNamesMeans(entries: seq<string>, name: string)
    ensures name in UpNames(entries) <==> name in entries && IsUp(name)
  {
    if entries != [] {
      UpNamesMeans(entries[1..], name);
      assert entries == [entries[0]] + entries[1..];
    }
  }

  lemma NamesMeans(entries: seq<string>, name: string)
    ensures name in Names(entries) <==> name in entries && exists stem :: name == stem + ".up.sql"
    ensures IsUp(name) <==> exists stem :: name == stem + ".up.sql"
  {
    if IsUp(name) {
      assert name == name[..|name| - |SUFFIX|] + ".up.sql";
    }
    SortSorts(UpNames(entries));
    UpNamesMeans(entries, name);
    assert name in Names(entries) <==> name in multiset(Names(entries));
    assert name in UpNames(entries) <==> name in multiset(UpNames(entries));
  }

  /** The files of a sorted list that are still to be applied. */
  function Pending(names: seq<string>, recorded: seq<string>): seq<string> {
    if names == [] then []
    else if names[0] in recorded then Pending(names[1..], recorded)
    else [names[0]] + Pending(names[1..], recorded + [names[0]])
  }

  function Wholes(names: seq<string>): seq<Effect> {
    seq(|names|, i requires 0 <= i < |names| => Whole(names[i]))
  }

  /** No statement that the call gets to fails. */
  ghost predicate Succeeds(names: seq<string>, recorded: seq<string>, f: Faults) {
    && !f.lock && !f.table && !f.list && !f.commit
    && NameByName(names, recorded, f)
  }

  ghost predicate NameByName(names: seq<string>, recorded: seq<string>, f: Faults) {
    forall i :: 0 <= i < |names| ==> Applies(names[i], recorded, f)
  }

  predicate Applies(name: string, recorded: seq<string>, f: Faults) {
    !f.count(name) && (name in recorded || (!f.read(name) && !f.body(name) && !f.insert(name)))
  }

  /** One call: everything pending, or nothing at all. */
  ghost function Migrated(s: Schema, entries: seq<string>, f: Faults): Schema {
    if Succeeds(Names(entries), s.recorded, f) then
      var pending := Pending(Names(entries), s.recorded);
      Schema(s.recorded + pending, s.effects + Wholes(pending))
    else s
  }

  // ---------- the runner ----------

  class Runner {
    var schema: Schema

    constructor (schema: Schema)
      ensures this.schema == schema
    {
      this.schema := schema;
    }

    method ExecBody(name: string, f: Faults) returns (ok: bool)
      modifies this
      ensures ok == !f.body(name)
      ensures schema == old(schema).(effects := old(schema).effects + [if ok then Whole(name) else Part(name)])
    {
      ok := !f.body(name);
      schema := schema.(effects := schema.effects + [if ok then Whole(name) else Part(name)]);
    }

    /** The version column is the table's primary key. */
    method InsertVersion(name: string, f: Faults) returns (ok: bool)
      modifies this
      ensures ok == (!f.insert(name) && name !in old(schema).recorded)
      ensures schema == if ok then old(schema).(recorded := old(schema).recorded + [name]) else old(schema)
    {
      ok := !f.insert(name) && name !in schema.recorded;
      if ok {
        schema := schema.(recorded := schema.recorded + [name]);
      }
    }

    /** The nested transaction: back to the savepoint when the body or the insert fails. */
    method Apply(name: string, f: Faults) returns (ok: bool)
      modifies this
      ensures ok == (!f.body(name) && !f.insert(name) && name !in old(schema).recorded)
      ensures schema == if ok then Schema(old(schema).recorded + [name], old(schema).effects + [Whole(name)])
                        else old(schema)
    {
      var savepoint := schema;
      ok := ExecBody(name, f);
      if ok {
        ok := InsertVersion(name, f);
      }
      if !ok {
        schema := savepoint;
      }
    }

    /** One turn of the loop: a recorded file is skipped. */
    method ApplyUnlessRecorded(name: string, f: Faults) returns (ok: bool)
      modifies this
      ensures ok <==> Applies(name, old(schema).recorded, f)
      ensures ok ==> schema == if name in old(schema).recorded then old(schema)
                               else Schema(old(schema).recorded + [name], old(schema).effects + [Whole(name)])
    {
      if f.count(name) {
        return false;
      }
      if name in schema.recorded {
        return true;
      }
      if f.read(name) {
        return false;
      }
      ok := Apply(name, f);
    }

    /** The loop over the sorted names.  A failure leaves what was applied before it to the outer rollback. */
    method ApplyAll(names: seq<string>, f: Faults) returns (ok: bool)
      modifies this
      ensures ok <==> NameByName(names, old(schema).recorded, f)
      ensures ok ==>
                && schema.recorded == old(schema).recorded + Pending(names, old(schema).recorded)
                && schema.effects == old(schema).effects + Wholes(Pending(names, old(schema).recorded))
    {
      var i := 0;
      ghost var was, done := schema, [];
      ProgressStarts(names, was, f);
      while i < |names|
        invariant 0 <= i <= |names| && Progress(names, i, was, schema, done, f)
      {
        ProgressTurn(names, i, was, schema, done, f);
        done := if names[i] in schema.recorded then done else done + [names[i]];
        var applied := ApplyUnlessRecorded(names[i], f);
        if !applied {
          return false;
        }
        i := i + 1;
      }
      ProgressEnds(names, was, schema, done, f);
      return true;
    }

    method Migrate(entries: seq<string>, f: Faults) returns (ok: bool)
      modifies this
      ensures ok <==> Succeeds(Names(entries), old(schema).recorded, f)
      ensures schema == Migrated(old(schema), entries, f)
    {
      var before := schema;
      if f.lock || f.table || f.list {
        return false;
      }
      ok := ApplyAll(Names(entries), f);
      ok := ok && !f.commit;
      if !ok {
        schema := before;
      }
    }
  }

  /** What this call has recorded does not change which files apply. */
  lemma AppliesAsBefore(name: string, recorded: seq<string>, done: seq<string>, f: Faults)
    requires NameByName(done, recorded, f)
    ensures Applies(name, recorded + done, f) <==> Applies(name, recorded, f)
  {
  }

  /** The first `i` files are handled; `done` are those of them that were pending. */
  ghost predicate Progress(names: seq<string>, i: nat, was: Schema, now: Schema, done: seq<string>, f: Faults) {
    && i <= |names|
    && Pending(names, was.recorded) == done + Pending(names[i..], now.recorded)
    && now.recorded == was.recorded + done && now.effects == was.effects + Wholes(done)
    && NameByName(done, was.recorded, f) && NameByName(names[..i], was.recorded, f)
  }

  lemma ProgressStarts(names: seq<string>, was: Schema, f: Faults)
    ensures Progress(names, 0, was, was, [], f)
  {
    assert names[0..] == names;
    assert was.effects + Wholes([]) == was.effects;
  }

  lemma ProgressTurn(names: seq<string>, i: nat, was: Schema, now: Schema, done: seq<string>, f: Faults)
    requires Progress(names, i, was, now, done, f) && i < |names|
    ensures Applies(names[i], now.recorded, f) <==> Applies(names[i], was.recorded, f)
    ensures Applies(names[i], now.recorded, f) ==>
              if names[i] in now.recorded then Progress(names, i + 1, was, now, done, f)
              else Progress(names, i + 1, was, Schema(now.recorded + [names[i]], now.effects + [Whole(names[i])]),
                            done + [names[i]], f)
  {
    var name := names[i];
    AppliesAsBefore(name, was.recorded, done, f);
    assert names[i..][1..] == names[i + 1..];
    if Applies(name, was.recorded, f) {
      assert names[..i + 1] == names[..i] + [name];
      NameByNameAppends(names[..i], name, was.recorded, f);
      NameByNameAppends(done, name, was.recorded, f);
      WholesAppend(done, name);
    }
  }

  lemma ProgressEnds(names: seq<string>, was: Schema, now: Schema, done: seq<string>, f: Faults)
    requires Progress(names, |names|, was, now, done, f)
    ensures NameByName(names, was.recorded, f)
    ensures now.recorded == was.recorded + Pending(names, was.recorded)
    ensures now.effects == was.effects + Wholes(Pending(names, was.recorded))
  {
    assert names[..|names|] == names;
    assert Pending(names[|names|..], now.recorded) == [];
    assert Pending(names, was.recorded) == done;
  }

  lemma WholesAppend(names: seq<string>, name: string)
    ensures Wholes(names + [name]) == Wholes(names) + [Whole(name)]
  {
  }

  lemma NameByNameAppends(names: seq<string>, name: string, recorded: seq<string>, f: Faults)
    requires NameByName(names, recorded, f) && Applies(name, recorded, f)
    ensures NameByName(names + [name], recorded, f)
  {
  }

  // ---------- any sequence of calls ----------

  datatype Call = Call(entries: seq<string>, faults: Faults)

  ghost function Run(s: Schema, calls: seq<Call>): Schema {
    if calls == [] then s
    else Migrated(Run(s, calls[..|calls| - 1]), calls[|calls| - 1].entries, calls[|calls| - 1].faults)
  }

  const NEW := Schema([], [])

  predicate Distinct(names: seq<string>) {
    forall i, j :: 0 <= i < j < |names| ==> names[i] != names[j]
  }

  /** Exactly the recorded bodies took effect, whole, once each, in the recorded order. */
  predicate Inv(s: Schema) {
    s.effects == Wholes(s.recorded) && Distinct(s.recorded)
  }

  lemma {:induction false} PendingMeans(names: seq<string>, recorded: seq<string>)
    requires Sorted(names) && Distinct(recorded)
    ensures Ascending(Pending(names, recorded)) && Distinct(recorded + Pending(names, recorded))
    ensures forall name :: name in Pending(names, recorded) <==> name in names && name !in recorded
    decreases |names|
  {
    if names != [] {
      var first := names[0];
      assert names == [first] + names[1..];
      if first in recorded {
        PendingMeans(names[1..], recorded);
      } else {
        var rest := Pending(names[1..], recorded + [first]);
        PendingMeans(names[1..], recorded + [first]);
        assert recorded + ([first] + rest) == recorded + [first] + rest;
        forall i | 0 <= i < |rest| ensures Precedes(first, rest[i]) {
          AtMostMeans(first, rest[i]);
          assert rest[i] in rest;
          var k :| 0 <= k < |names[1..]| && names[1..][k] == rest[i];
          assert names[k + 1] == rest[i];
        }
      }
    }
  }

  /** A call adds bodies in strictly ascending order, and after success no file is left unrecorded. */
  lemma CallMeans(s: Schema, entries: seq<string>, f: Faults)
    requires Inv(s)
    ensures var t := Migrated(s, entries, f);
            && Inv(t) && s.recorded <= t.recorded && s.effects <= t.effects
            && Ascending(t.recorded[|s.recorded|..])
            && (t == s || Succeeds(Names(entries), s.recorded, f))
    ensures Succeeds(Names(entries), s.recorded, f) ==>
              forall name :: name in Migrated(s, entries, f).recorded <==>
                name in s.recorded || (name in entries && IsUp(name))
  {
    var names, t := Names(entries), Migrated(s, entries, f);
    var pending := Pending(names, s.recorded);
    SortSorts(UpNames(entries));
    PendingMeans(names, s.recorded);
    assert Wholes(s.recorded + pending) == Wholes(s.recorded) + Wholes(pending);
    if Succeeds(names, s.recorded, f) {
      assert t.recorded[|s.recorded|..] == pending;
      forall name ensures name in t.recorded <==> name in s.recorded || (name in entries && IsUp(name)) {
        NamesMeans(entries, name);
      }
    } else {
      assert t.recorded[|s.recorded|..] == [];
    }
  }

  /** Call `k` of a run succeeded, and `name` was one of its files. */
  ghost predicate Covered(calls: seq<Call>, k: nat, name: string)
    requires k < |calls|
  {
    && Succeeds(Names(calls[k].entries), Run(NEW, calls[..k]).recorded, calls[k].faults)
    && name in calls[k].entries && IsUp(name)
  }

  /**
   * Over any calls with any failures: every body took effect at most once and only whole, and exactly the
   * files of the calls that succeeded did.
   */
  lemma {:induction false} EveryBodyOnce(calls: seq<Call>)
    ensures Inv(Run(NEW, calls))
    ensures forall name :: name in Run(NEW, calls).recorded <==> exists k: nat :: k < |calls| && Covered(calls, k, name)
    decreases |calls|
  {
    if calls != [] {
      var n := |calls| - 1;
      var before, last := calls[..n], calls[n];
      EveryBodyOnce(before);
      CallMeans(Run(NEW, before), last.entries, last.faults);
      forall name
        ensures name in Run(NEW, calls).recorded <==> exists k: nat :: k < |calls| && Covered(calls, k, name)
      {
        forall k: nat | k < n ensures Covered(before, k, name) == Covered(calls, k, name) {
          assert before[..k] == calls[..k];
        }
        assert (exists k: nat :: k < |calls| && Covered(calls, k, name)) <==>
               Covered(calls, n, name) || exists k: nat :: k < n && Covered(before, k, name);
      }
    }
  }

  /** Once a call has succeeded, calling again with the same files changes nothing. */
  lemma SecondCallChangesNothing(s: Schema, entries: seq<string>, f: Faults, g: Faults)
    requires Inv(s) && Succeeds(Names(entries), s.recorded, f)
    ensures Migrated(Migrated(s, entries, f), entries, g) == Migrated(s, entries, f)
  {
    var t := Migrated(s, entries, f);
    CallMeans(s, entries, f);
    CallMeans(t, entries, g);
    SortSorts(UpNames(entries));
    PendingMeans(Names(entries), t.recorded);
    var pending := Pending(Names(entries), t.recorded);
    if pending != [] {
      NamesMeans(entries, pending[0]);
      FirstIsMember(pending);
    }
  }

  lemma FirstIsMember(names: seq<string>)
    requires names != []
    ensures names[0] in names
  {
  }
}
