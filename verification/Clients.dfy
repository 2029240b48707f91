/** Clusters and the cache of their Kubernetes clients. */
module Clients {
  import opened Vault
  import Text

  /** The printed form of a UUID. */
  type Uuid = s: string | forall i :: 0 <= i < |s| ==> s[i] == '-' || '0' <= s[i] <= '9' || 'a' <= s[i] <= 'f'

  datatype Cluster = Cluster(id: Uuid, name: string, server: string, kubeconfig: Bytes, version: int)

  /** The client library: parsing a kubeconfig, and building a client, which can also fail for outside reasons. */
  datatype Library<!C> = Library(build: Bytes -> Outcome<C>)

  /** Cache key and associated data alike. */
  function Key(id: Uuid, version: int): string {
    id + ":" + Text.Show(version)
  }

  lemma KeyIsInjective(id: Uuid, version: int, other: Uuid, otherVersion: int)
    requires Key(id, version) == Key(other, otherVersion)
    ensures id == other && version == otherVersion
  {
    assert id + ":" + Text.Show(version) == other + ":" + Text.Show(otherVersion);
    Text.FirstColon(id, other, Text.Show(version), Text.Show(otherVersion));
    Text.ShowIsInjective(version, otherVersion);
  }

  // ---------- what the operations do ----------

  datatype ClusterInput = ClusterInput(name: string, server: string, kubeconfig: Bytes)

  /** The row CreateCluster inserts. */
  function NewCluster(box: Cipher, input: ClusterInput, id: Uuid, nonce: Outcome<Bytes>): Outcome<Cluster> {
    var payload := Seal(box, nonce, input.kubeconfig, Key(id, 1));
    if payload.Failed? then Failed(payload.fault)
    else Done(Cluster(id, Text.TrimSpace(input.name), Text.TrimSpace(input.server), payload.value, 1))
  }

  predicate Taken(clusters: seq<Cluster>, id: Uuid, name: string) {
    exists i :: 0 <= i < |clusters| && (clusters[i].id == id || clusters[i].name == name)
  }

  /** A client built without the cache. */
  function Fresh<C>(box: Cipher, library: Library<C>, c: Cluster): Outcome<C> {
    var plain := Open(box, c.kubeconfig, Key(c.id, c.version));
    if plain.Failed? then Failed(plain.fault) else library.build(plain.value)
  }

  ghost predicate Agrees<C(!new)>(box: Cipher, library: Library<C>, clusters: seq<Cluster>, clients: map<string, C>) {
    forall key :: key in clients ==>
      exists i :: 0 <= i < |clusters| && Key(clusters[i].id, clusters[i].version) == key
                  && Fresh(box, library, clusters[i]) == Done(clients[key])
  }

  predicate DistinctIds(clusters: seq<Cluster>) {
    forall i, j :: 0 <= i < j < |clusters| ==> clusters[i].id != clusters[j].id
  }

  lemma CachedIsFresh<C(!new)>(
      box: Cipher, library: Library<C>, clusters: seq<Cluster>, clients: map<string, C>, i: nat)
    requires Agrees(box, library, clusters, clients) && DistinctIds(clusters) && i < |clusters|
    requires Key(clusters[i].id, clusters[i].version) in clients
    ensures Fresh(box, library, clusters[i]) == Done(clients[Key(clusters[i].id, clusters[i].version)])
  {
    var key := Key(clusters[i].id, clusters[i].version);
    var j :| 0 <= j < |clusters| && Key(clusters[j].id, clusters[j].version) == key
             && Fresh(box, library, clusters[j]) == Done(clients[key]);
    KeyIsInjective(clusters[i].id, clusters[i].version, clusters[j].id, clusters[j].version);
  }

  // ---------- the table and the manager ----------

  class Store {
    var clusters: seq<Cluster>

    constructor ()
      ensures clusters == []
    {
      clusters := [];
    }

    /** The identifier is the primary key, and names are unique. */
    method Insert(c: Cluster) returns (r: Outcome<Cluster>)
      modifies this
      ensures r == if Taken(old(clusters), c.id, c.name) then Failed(Duplicate) else Done(c)
      ensures clusters == if r.Done? then old(clusters) + [c] else old(clusters)
    {
      if Taken(clusters, c.id, c.name) {
        return Failed(Duplicate);
      }
      clusters := clusters + [c];
      return Done(c);
    }
  }

  class Manager<C(!new)> {
    const store: Store
    const box: Cipher
    const library: Library<C>
    var clients: map<string, C>

    ghost predicate Valid()
      reads this, store
    {
      DistinctIds(store.clusters) && Agrees(box, library, store.clusters, clients)
    }

    constructor (store: Store, box: Cipher, library: Library<C>)
      requires DistinctIds(store.clusters)
      ensures Valid() && this.store == store && this.box == box && this.library == library && clients == map[]
    {
      this.store := store;
      this.box := box;
      this.library := library;
      clients := map[];
    }

    /** The service's CreateCluster, seen with the manager's cache beside it. */
    method CreateCluster(input: ClusterInput, id: Uuid, nonce: Outcome<Bytes>) returns (r: Outcome<Cluster>)
      requires Valid()
      modifies store
      ensures Valid()
      ensures var row := NewCluster(box, input, id, nonce);
              r == if row.Done? && Taken(old(store.clusters), id, row.value.name) then Failed(Duplicate) else row
      ensures store.clusters == if r.Done? then old(store.clusters) + [r.value] else old(store.clusters)
      ensures r.Done? <==>
                && nonce.Done?
                && forall i :: 0 <= i < |old(store.clusters)| ==>
                     && old(store.clusters)[i].id != id
                     && old(store.clusters)[i].name != Text.TrimSpace(input.name)
      ensures r.Done? ==>
                && r.value.id == id && r.value.version == 1
                && r.value.name == Text.TrimSpace(input.name) && r.value.server == Text.TrimSpace(input.server)
                && Seal(box, nonce, input.kubeconfig, id + ":1") == Done(r.value.kubeconfig)
      ensures r.Done? && Lawful(box) && |nonce.value| == box.nonceSize ==>
                Open(box, r.value.kubeconfig, id + ":1") == Done(input.kubeconfig)
    {
      assert Key(id, 1) == id + ":1" by {
        assert Text.Show(1) == "1";
      }
      if Lawful(box) && nonce.Done? && |nonce.value| == box.nonceSize {
        SealOpens(box, nonce.value, input.kubeconfig, id + ":1");
      }
      r := NewCluster(box, input, id, nonce);
      if r.Done? {
        ghost var was := store.clusters;
        r := store.Insert(r.value);
        AgreementGrows(was, store.clusters);
      }
    }

    lemma AgreementGrows(was: seq<Cluster>, now: seq<Cluster>)
      requires Agrees(box, library, was, clients) && was <= now
      ensures Agrees(box, library, now, clients)
    {
      forall key | key in clients
        ensures exists i :: 0 <= i < |now| && Key(now[i].id, now[i].version) == key
                            && Fresh(box, library, now[i]) == Done(clients[key])
      {
        var i :| 0 <= i < |was| && Key(was[i].id, was[i].version) == key
                 && Fresh(box, library, was[i]) == Done(clients[key]);
        assert now[i] == was[i];
      }
    }

    /** `fails` stands for an outside reason that keeps the client from being built now. */
    method Client(i: nat, fails: bool) returns (r: Outcome<C>)
      requires Valid() && i < |store.clusters|
      modifies this
      ensures Valid()
      ensures var key := Key(store.clusters[i].id, store.clusters[i].version);
              && r == (if fails && key !in old(clients) then Failed(BadKubeconfig)
                       else Fresh(box, library, store.clusters[i]))
              && clients == (if r.Done? then old(clients)[key := r.value] else old(clients))
    {
      var c := store.clusters[i];
      var key := Key(c.id, c.version);
      if key in clients {
        CachedIsFresh(box, library, store.clusters, clients, i);
        assert clients == clients[key := clients[key]];
        return Done(clients[key]);
      }
      if fails {
        return Failed(BadKubeconfig);
      }
      var plain := Open(box, c.kubeconfig, Key(c.id, c.version));
      if plain.Failed? {
        return Failed(plain.fault);
      }
      r := library.build(plain.value);
      if r.Done? {
        AgreementGains(i, r.value);
        clients := clients[key := r.value];
      }
    }

    lemma AgreementGains(i: nat, client: C)
      requires Valid() && i < |store.clusters| && Fresh(box, library, store.clusters[i]) == Done(client)
      ensures var key := Key(store.clusters[i].id, store.clusters[i].version);
              Agrees(box, library, store.clusters, clients[key := client])
    {
    }
  }

  // ---------- any sequence of calls ----------

  datatype Step =
    | Create(input: ClusterInput, id: Uuid, nonce: Outcome<Bytes>)
    | Connect(i: nat, fails: bool)

  /** `given` holds the kubeconfigs the clusters were created with. */
  datatype State<!C> = State(clusters: seq<Cluster>, given: seq<Bytes>, clients: map<string, C>)

  function Answer<C>(box: Cipher, library: Library<C>, s: State<C>, i: nat, fails: bool): Outcome<C>
    requires i < |s.clusters|
  {
    var key := Key(s.clusters[i].id, s.clusters[i].version);
    if key in s.clients then Done(s.clients[key])
    else if fails then Failed(BadKubeconfig)
    else Fresh(box, library, s.clusters[i])
  }

  function Next<C>(box: Cipher, library: Library<C>, s: State<C>, step: Step): State<C> {
    match step
    case Create(input, id, nonce) =>
      var row := NewCluster(box, input, id, nonce);
      if row.Failed? || Taken(s.clusters, id, row.value.name) then s
      else s.(clusters := s.clusters + [row.value], given := s.given + [input.kubeconfig])
    case Connect(i, fails) =>
      if i >= |s.clusters| then s
      else
        var answer := Answer(box, library, s, i, fails);
        if answer.Failed? then s
        else s.(clients := s.clients[Key(s.clusters[i].id, s.clusters[i].version) := answer.value])
  }

  function Run<C>(box: Cipher, library: Library<C>, steps: seq<Step>): State<C> {
    if steps == [] then State([], [], map[])
    else Next(box, library, Run(box, library, steps[..|steps| - 1]), steps[|steps| - 1])
  }

  /** The random source fills the nonce. */
  predicate FullNonces(box: Cipher, steps: seq<Step>) {
    forall k :: 0 <= k < |steps| && steps[k].Create? && steps[k].nonce.Done? ==> |steps[k].nonce.value| == box.nonceSize
  }

  ghost predicate Decrypts(box: Cipher, clusters: seq<Cluster>, given: seq<Bytes>) {
    |given| == |clusters| &&
    forall i :: 0 <= i < |clusters| ==>
      Open(box, clusters[i].kubeconfig, Key(clusters[i].id, clusters[i].version)) == Done(given[i])
  }

  ghost predicate Inv<C(!new)>(box: Cipher, library: Library<C>, s: State<C>) {
    && DistinctIds(s.clusters) && Decrypts(box, s.clusters, s.given)
    && Agrees(box, library, s.clusters, s.clients)
  }

  lemma CreateKeepsInv<C(!new)>(box: Cipher, library: Library<C>, s: State<C>, step: Step)
    requires Lawful(box) && Inv(box, library, s) && step.Create? && FullNonces(box, [step])
    ensures Inv(box, library, Next(box, library, s, step))
  {
    var t := Next(box, library, s, step);
    if t != s {
      assert [step][0].nonce.Done?;
      SealOpens(box, step.nonce.value, step.input.kubeconfig, Key(step.id, 1));
      forall key | key in t.clients
        ensures exists i :: 0 <= i < |t.clusters| && Key(t.clusters[i].id, t.clusters[i].version) == key
                            && Fresh(box, library, t.clusters[i]) == Done(t.clients[key])
      {
        var i :| 0 <= i < |s.clusters| && Key(s.clusters[i].id, s.clusters[i].version) == key
                 && Fresh(box, library, s.clusters[i]) == Done(s.clients[key]);
        assert t.clusters[i] == s.clusters[i];
      }
    }
  }

  lemma ConnectKeepsInv<C(!new)>(box: Cipher, library: Library<C>, s: State<C>, step: Step)
    requires Inv(box, library, s) && step.Connect?
    ensures Inv(box, library, Next(box, library, s, step))
  {
    if step.i < |s.clusters| && Key(s.clusters[step.i].id, s.clusters[step.i].version) in s.clients {
      CachedIsFresh(box, library, s.clusters, s.clients, step.i);
    }
  }

  lemma {:induction false} RunKeepsInv<C(!new)>(box: Cipher, library: Library<C>, steps: seq<Step>)
    requires Lawful(box) && FullNonces(box, steps)
    ensures Inv(box, library, Run(box, library, steps))
    decreases |steps|
  {
    if steps != [] {
      var before, step := steps[..|steps| - 1], steps[|steps| - 1];
      RunKeepsInv(box, library, before);
      if step.Create? {
        CreateKeepsInv(box, library, Run(box, library, before), step);
      } else {
        ConnectKeepsInv(box, library, Run(box, library, before), step);
      }
    }
  }

  /**
   * After any calls, asking for a cluster's client gives the one built from the kubeconfig the cluster was
   * created with, cached or not; and a failed call is not remembered.
   */
  lemma ClientIsAlwaysTheClustersOwn<C(!new)>(box: Cipher, library: Library<C>, steps: seq<Step>, i: nat, fails: bool)
    requires Lawful(box) && FullNonces(box, steps) && i < |Run(box, library, steps).clusters|
    ensures var s := Run(box, library, steps);
            && |s.given| == |s.clusters|
            && (Answer(box, library, s, i, fails).Done? ==>
                  Answer(box, library, s, i, fails) == library.build(s.given[i]))
            && Answer(box, library, s, i, false) == library.build(s.given[i])
            && (Answer(box, library, s, i, fails).Failed? ==> Next(box, library, s, Connect(i, fails)) == s)
  {
    var s := Run(box, library, steps);
    RunKeepsInv(box, library, steps);
    var key := Key(s.clusters[i].id, s.clusters[i].version);
    if key in s.clients {
      CachedIsFresh(box, library, s.clusters, s.clients, i);
    }
  }
}
