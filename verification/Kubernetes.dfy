/**
 * Deploy and Rollback against an API server that other clients write to at any moment: a versioned
 * object, optimistic updates, and at most five attempts with a growing pause after each conflict.
 */
module Kubernetes {
  import opened Domain
  import Text

  /** `rest` stands for every field the code never touches. */
  datatype Container = Container(name: string, image: string, rest: string)

  datatype Template = Template(
    labels: map<string, string>, annotations: map<string, string>, containers: seq<Container>, rest: string)

  datatype DeploymentObject = DeploymentObject(replicas: Option<int>, template: Template, rest: string)

  datatype ReplicaSet = ReplicaSet(annotations: map<string, string>, template: Template)

  datatype ApiError =
    | ConflictError | RequestError | ContainerNotFound | RevisionNotFound | Cancelled | RolloutFailed

  /** One accepted update of the manager: the server's object just before, and what replaced it. */
  datatype Write = Write(before: DeploymentObject, after: DeploymentObject)

  /** Whether the server takes an update that does not conflict, and whether its answer arrives. */
  datatype Verdict = Answered | Lost | Refused

  /**
   * What the environment does during one attempt: others' writes before the Get, a failing Get,
   * others' writes (None deletes) before the Update, the verdict, and a cancelled pause.
   */
  datatype Attempt = Attempt(
    earlier: seq<Option<DeploymentObject>>, getFails: bool, meanwhile: seq<Option<DeploymentObject>>,
    verdict: Verdict, cancelled: bool)

  /** What the environment does during each attempt, and what the retried function asks of the fetched object. */
  type Attempts = nat -> Attempt
  type Check = DeploymentObject -> bool

  datatype Outcome = Success(desired: int) | Failure(error: ApiError)

  function Desired(replicas: Option<int>): int {
    if replicas.None? then 1 else replicas.value
  }

  /** The object after other clients' writes. */
  function AfterEdits(o: Option<DeploymentObject>, edits: seq<Option<DeploymentObject>>): Option<DeploymentObject> {
    if edits == [] then o else edits[|edits| - 1]
  }

  class ApiServer {
    var current: Option<DeploymentObject>
    var version: nat
    var accepted: seq<Write>

    constructor (initial: Option<DeploymentObject>)
      ensures current == initial && accepted == []
    {
      current := initial;
      version := 0;
      accepted := [];
    }

    /** Every write by another client gives the object a new version. */
    method Others(edits: seq<Option<DeploymentObject>>)
      modifies this
      ensures accepted == old(accepted)
      ensures version == old(version) + |edits| && current == AfterEdits(old(current), edits)
    {
      for i := 0 to |edits|
        invariant accepted == old(accepted) && version == old(version) + i
        invariant current == AfterEdits(old(current), edits[..i])
      {
        current := edits[i];
        version := version + 1;
      }
      assert edits[..|edits|] == edits;
    }

    method Get(fails: bool) returns (r: Option<(DeploymentObject, nat)>)
      ensures r == if fails || current.None? then None else Some((current.value, version))
    {
      if fails || current.None? {
        return None;
      }
      return Some((current.value, version));
    }

    method Update(d: DeploymentObject, read: nat, verdict: Verdict) returns (error: Option<ApiError>)
      modifies this
      ensures error == if old(current).None? then Some(RequestError)
                       else if read != old(version) then Some(ConflictError)
                       else if verdict == Answered then None else Some(RequestError)
      ensures if old(current).Some? && read == old(version) && verdict != Refused then
                && current == Some(d) && version == old(version) + 1
                && accepted == old(accepted) + [Write(old(current).value, d)]
              else accepted == old(accepted) && current == old(current) && version == old(version)
    {
      if current.None? {
        return Some(RequestError);
      }
      if read != version {
        return Some(ConflictError);
      }
      if verdict == Refused {
        return Some(RequestError);
      }
      accepted := accepted + [Write(current.value, d)];
      current := Some(d);
      version := version + 1;
      if verdict == Lost {
        return Some(RequestError);
      }
      return None;
    }
  }

  /** The pauses after `k` conflicts, in milliseconds. */
  function Backoff(k: nat): nat {
    if k == 0 then 0 else Backoff(k - 1) + k * 200
  }

  lemma {:induction false} BackoffIsQuadratic(k: nat)
    ensures Backoff(k) == 100 * k * (k + 1)
    ensures k <= 5 ==> Backoff(k) <= 3000
  {
    if k > 0 {
      BackoffIsQuadratic(k - 1);
      assert 100 * (k - 1) * k + k * 200 == 100 * k * (k + 1);
    }
  }

  /** How one attempt ends: a write by anyone between its Get and its Update is a conflict. */
  function AttemptError(o: Option<DeploymentObject>, a: Attempt, usable: Check): Option<ApiError> {
    var seen := AfterEdits(o, a.earlier);
    if a.getFails || seen.None? then Some(RequestError)
    else if !usable(seen.value) then Some(ContainerNotFound)
    else if AfterEdits(seen, a.meanwhile).None? then Some(RequestError)
    else if a.meanwhile != [] then Some(ConflictError)
    else if a.verdict == Answered then None else Some(RequestError)
  }

  /** How the retries end, from attempt `i` on: only conflicts are retried, and five of them are final. */
  function RetryError(o: Option<DeploymentObject>, env: Attempts, usable: Check, i: nat): Option<ApiError>
    decreases 5 - i
  {
    if i >= 5 then Some(ConflictError)
    else
      var error := AttemptError(o, env(i), usable);
      if error != Some(ConflictError) then error
      else if env(i).cancelled then Some(Cancelled)
      else RetryError(AfterEdits(AfterEdits(o, env(i).earlier), env(i).meanwhile), env, usable, i + 1)
  }

  /** The object an attempt's accepted update replaces; the answer may still be lost. */
  function AttemptWrite(o: Option<DeploymentObject>, a: Attempt, usable: Check): Option<DeploymentObject> {
    if Fetched(o, a, usable) && a.meanwhile == [] && a.verdict != Refused then AfterEdits(o, a.earlier) else None
  }

  /** The object the retries' accepted update replaces, from attempt `i` on. */
  function RetryWrite(o: Option<DeploymentObject>, env: Attempts, usable: Check, i: nat): Option<DeploymentObject>
    decreases 5 - i
  {
    if i >= 5 then None
    else if AttemptError(o, env(i), usable) != Some(ConflictError) then AttemptWrite(o, env(i), usable)
    else if env(i).cancelled then None
    else RetryWrite(AfterEdits(AfterEdits(o, env(i).earlier), env(i).meanwhile), env, usable, i + 1)
  }

  /** How many attempts end in a conflict and its full pause, from attempt `i` on. */
  function Conflicts(o: Option<DeploymentObject>, env: Attempts, usable: Check, i: nat): nat
    decreases 5 - i
  {
    if i >= 5 || AttemptError(o, env(i), usable) != Some(ConflictError) || env(i).cancelled then 0
    else 1 + Conflicts(AfterEdits(AfterEdits(o, env(i).earlier), env(i).meanwhile), env, usable, i + 1)
  }

  /** The object before attempt `i`, when the manager itself has written nothing. */
  function ObjectAt(o: Option<DeploymentObject>, env: Attempts, i: nat): Option<DeploymentObject> {
    if i == 0 then o else AfterEdits(AfterEdits(ObjectAt(o, env, i - 1), env(i - 1).earlier), env(i - 1).meanwhile)
  }

  /** The object is fetched and usable when the attempt begins. */
  predicate Fetched(o: Option<DeploymentObject>, a: Attempt, usable: Check) {
    !a.getFails && AfterEdits(o, a.earlier).Some? && usable(AfterEdits(o, a.earlier).value)
  }

  /** Another client changed the object in the middle of the attempt, and the pause was not cancelled. */
  predicate Contended(o: Option<DeploymentObject>, env: Attempts, usable: Check, i: nat) {
    && Fetched(ObjectAt(o, env, i), env(i), usable)
    && env(i).meanwhile != [] && ObjectAt(o, env, i + 1).Some?
    && !env(i).cancelled
  }

  predicate Undisturbed(o: Option<DeploymentObject>, env: Attempts, usable: Check, i: nat) {
    Fetched(ObjectAt(o, env, i), env(i), usable) && env(i).meanwhile == [] && env(i).verdict == Answered
  }

  /** The attempt fetches an object without the container. */
  predicate Unusable(o: Option<DeploymentObject>, env: Attempts, usable: Check, i: nat) {
    var seen := AfterEdits(ObjectAt(o, env, i), env(i).earlier);
    !env(i).getFails && seen.Some? && !usable(seen.value)
  }

  /** Another client changed the object in the middle of the attempt, and the context ended in the pause. */
  predicate CancelsPause(o: Option<DeploymentObject>, env: Attempts, usable: Check, i: nat) {
    && Fetched(ObjectAt(o, env, i), env(i), usable)
    && env(i).meanwhile != [] && ObjectAt(o, env, i + 1).Some?
    && env(i).cancelled
  }

  ghost predicate ContendedUpTo(o: Option<DeploymentObject>, env: Attempts, usable: Check, n: nat) {
    forall k: nat :: k < n ==> Contended(o, env, usable, k)
  }

  /** A contended attempt leaves everything to the next one, `j`. */
  lemma ContendedGoesOn(o: Option<DeploymentObject>, env: Attempts, usable: Check, i: nat, j: nat)
    requires i < 5 && j == i + 1 && Contended(o, env, usable, i)
    ensures var (q, next) := (ObjectAt(o, env, i), ObjectAt(o, env, j));
            && RetryError(q, env, usable, i) == RetryError(next, env, usable, j)
            && RetryWrite(q, env, usable, i) == RetryWrite(next, env, usable, j)
            && i + Conflicts(q, env, usable, i) == j + Conflicts(next, env, usable, j)
  {
    AttemptMeans(o, env, usable, i);
  }

  /** Any other attempt is the last one. */
  lemma UncontendedEnds(o: Option<DeploymentObject>, env: Attempts, usable: Check, i: nat)
    requires i < 5 && !Contended(o, env, usable, i) && ContendedUpTo(o, env, usable, i)
    ensures var q := ObjectAt(o, env, i);
            && Conflicts(q, env, usable, i) == 0
            && RetryError(q, env, usable, i) != Some(ConflictError)
            && (RetryError(q, env, usable, i).None? <==> Undisturbed(o, env, usable, i))
            && (RetryWrite(q, env, usable, i).Some? <==> Accepts(o, env, usable, i))
            && (Accepts(o, env, usable, i) ==>
                  && RetryWrite(q, env, usable, i) == AfterEdits(q, env(i).earlier)
                  && RetryError(q, env, usable, i) == if env(i).verdict == Lost then Some(RequestError) else None)
            && (RetryError(q, env, usable, i) == Some(ContainerNotFound) <==> Unusable(o, env, usable, i))
            && (RetryError(q, env, usable, i) == Some(Cancelled) <==> CancelsPause(o, env, usable, i))
    ensures forall n: nat :: ContendedUpTo(o, env, usable, n) ==> n <= i
  {
    AttemptMeans(o, env, usable, i);
  }

  /** The server takes attempt `n`'s update, and the attempts before it were only contended. */
  ghost predicate Accepts(o: Option<DeploymentObject>, env: Attempts, usable: Check, n: nat) {
    && Fetched(ObjectAt(o, env, n), env(n), usable) && env(n).meanwhile == [] && env(n).verdict != Refused
    && ContendedUpTo(o, env, usable, n)
  }

  /** `n` attempts are contended and the next one, if any is left, is not: it decides the outcome and the write. */
  ghost predicate Decided(
      o: Option<DeploymentObject>, env: Attempts, usable: Check, n: nat,
      error: Option<ApiError>, write: Option<DeploymentObject>) {
    && n <= 5 && ContendedUpTo(o, env, usable, n) && (n < 5 ==> !Contended(o, env, usable, n))
    && (error == Some(ConflictError) <==> n == 5)
    && (error.None? <==> n < 5 && Undisturbed(o, env, usable, n))
    && (error == Some(ContainerNotFound) <==> n < 5 && Unusable(o, env, usable, n))
    && (error == Some(Cancelled) <==> n < 5 && CancelsPause(o, env, usable, n))
    && write == (if n < 5 && Accepts(o, env, usable, n) then AfterEdits(ObjectAt(o, env, n), env(n).earlier) else None)
    && (n < 5 && Accepts(o, env, usable, n) ==> error == if env(n).verdict == Lost then Some(RequestError) else None)
  }

  /** What the specification says of the attempts from `i` on. */
  ghost predicate DecidedAt(o: Option<DeploymentObject>, env: Attempts, usable: Check, i: nat) {
    var q := ObjectAt(o, env, i);
    Decided(o, env, usable, i + Conflicts(q, env, usable, i), RetryError(q, env, usable, i),
            RetryWrite(q, env, usable, i))
  }

  lemma DecidedEarlier(o: Option<DeploymentObject>, env: Attempts, usable: Check, i: nat, j: nat)
    requires i < 5 && j == i + 1 && Contended(o, env, usable, i) && DecidedAt(o, env, usable, j)
    ensures DecidedAt(o, env, usable, i)
  {
    ContendedGoesOn(o, env, usable, i, j);
  }

  lemma DecidedHere(o: Option<DeploymentObject>, env: Attempts, usable: Check, i: nat)
    requires i < 5 && !Contended(o, env, usable, i) && ContendedUpTo(o, env, usable, i)
    ensures DecidedAt(o, env, usable, i)
  {
    UncontendedEnds(o, env, usable, i);
  }

  lemma DecidedLast(o: Option<DeploymentObject>, env: Attempts, usable: Check)
    requires ContendedUpTo(o, env, usable, 5)
    ensures DecidedAt(o, env, usable, 5)
  {
  }

  lemma {:induction false} DecidedFrom(o: Option<DeploymentObject>, env: Attempts, usable: Check, i: nat)
    requires i <= 5 && ContendedUpTo(o, env, usable, i)
    ensures DecidedAt(o, env, usable, i)
    decreases 5 - i
  {
    if i == 5 {
      DecidedLast(o, env, usable);
    } else if Contended(o, env, usable, i) {
      var j: nat := i + 1;
      DecidedFrom(o, env, usable, j);
      DecidedEarlier(o, env, usable, i, j);
    } else {
      DecidedHere(o, env, usable, i);
    }
  }

  /** The attempts counted are the first ones, all contended; the next one, if any is left, decides. */
  lemma {:induction false} ConflictsMeans(o: Option<DeploymentObject>, env: Attempts, usable: Check)
    ensures Decided(o, env, usable, Conflicts(o, env, usable, 0), RetryError(o, env, usable, 0),
                    RetryWrite(o, env, usable, 0))
  {
    DecidedFrom(o, env, usable, 0);
  }

  /** Only one attempt can be the first that is not contended. */
  lemma OneAttemptDecides(o: Option<DeploymentObject>, env: Attempts, usable: Check, n: nat, m: nat)
    requires n <= 5 && ContendedUpTo(o, env, usable, n) && (n < 5 ==> !Contended(o, env, usable, n))
    requires m < 5 && ContendedUpTo(o, env, usable, m) && !Contended(o, env, usable, m)
    ensures m == n
  {
  }

  /** Attempt `n` is undisturbed, after contended ones only. */
  ghost predicate Succeeds(o: Option<DeploymentObject>, env: Attempts, usable: Check, n: nat) {
    n < 5 && Undisturbed(o, env, usable, n) && ContendedUpTo(o, env, usable, n)
  }

  /** The retries succeed exactly when one of the first five attempts is undisturbed after contended ones only. */
  lemma {:induction false} RetriesSucceedIff(o: Option<DeploymentObject>, env: Attempts, usable: Check)
    ensures RetryError(o, env, usable, 0).None? <==> exists n: nat :: Succeeds(o, env, usable, n)
  {
    ConflictsMeans(o, env, usable);
    var n := Conflicts(o, env, usable, 0);
    assert RetryError(o, env, usable, 0).None? ==> Succeeds(o, env, usable, n);
    forall m: nat | Succeeds(o, env, usable, m) ensures m == n {
      OneAttemptDecides(o, env, usable, n, m);
    }
  }

  /** Attempt `n`, after contended ones only, finds no container with the name, or has its pause cancelled. */
  ghost predicate EndsUnusable(o: Option<DeploymentObject>, env: Attempts, usable: Check, n: nat) {
    n < 5 && Unusable(o, env, usable, n) && ContendedUpTo(o, env, usable, n)
  }

  ghost predicate EndsCancelled(o: Option<DeploymentObject>, env: Attempts, usable: Check, n: nat) {
    n < 5 && CancelsPause(o, env, usable, n) && ContendedUpTo(o, env, usable, n)
  }

  /** Which error the retries end with; whatever none of these describes is a failed request. */
  lemma {:induction false} RetriesFailIff(o: Option<DeploymentObject>, env: Attempts, usable: Check)
    ensures var error := RetryError(o, env, usable, 0);
            && (error == Some(ConflictError) <==> ContendedUpTo(o, env, usable, 5))
            && (error == Some(ContainerNotFound) <==> exists n: nat :: EndsUnusable(o, env, usable, n))
            && (error == Some(Cancelled) <==> exists n: nat :: EndsCancelled(o, env, usable, n))
            && error in {None, Some(ConflictError), Some(ContainerNotFound), Some(Cancelled), Some(RequestError)}
  {
    ConflictsMeans(o, env, usable);
    FewErrors(o, env, usable, 0);
    var n := Conflicts(o, env, usable, 0);
    assert RetryError(o, env, usable, 0) == Some(ContainerNotFound) ==> EndsUnusable(o, env, usable, n);
    assert RetryError(o, env, usable, 0) == Some(Cancelled) ==> EndsCancelled(o, env, usable, n);
    forall m: nat | EndsUnusable(o, env, usable, m) || EndsCancelled(o, env, usable, m) ensures m == n {
      OneAttemptDecides(o, env, usable, n, m);
    }
  }

  lemma {:induction false} FewErrors(o: Option<DeploymentObject>, env: Attempts, usable: Check, i: nat)
    ensures RetryError(o, env, usable, i)
            in {None, Some(ConflictError), Some(ContainerNotFound), Some(Cancelled), Some(RequestError)}
    decreases 5 - i
  {
    if i < 5 {
      FewErrors(AfterEdits(AfterEdits(o, env(i).earlier), env(i).meanwhile), env, usable, i + 1);
    }
  }

  /** Attempt `n` is accepted and replaces `b`. */
  ghost predicate Replaces(o: Option<DeploymentObject>, env: Attempts, usable: Check, n: nat, b: DeploymentObject) {
    n < 5 && Accepts(o, env, usable, n) && AfterEdits(ObjectAt(o, env, n), env(n).earlier) == Some(b)
  }

  /** A write is accepted exactly when one of the first five attempts is taken; it replaces what that attempt read. */
  lemma {:induction false} RetriesWriteIff(
      o: Option<DeploymentObject>, env: Attempts, usable: Check, b: DeploymentObject)
    ensures RetryWrite(o, env, usable, 0) == Some(b) <==> exists n: nat :: Replaces(o, env, usable, n, b)
  {
    ConflictsMeans(o, env, usable);
    var n := Conflicts(o, env, usable, 0);
    assert RetryWrite(o, env, usable, 0) == Some(b) ==> Replaces(o, env, usable, n, b);
    forall m: nat | Replaces(o, env, usable, m, b) ensures m == n {
      OneAttemptDecides(o, env, usable, n, m);
    }
  }

  /** Attempt `n` is taken and its answer lost. */
  ghost predicate LosesAnswer(o: Option<DeploymentObject>, env: Attempts, usable: Check, n: nat) {
    n < 5 && Accepts(o, env, usable, n) && env(n).verdict == Lost
  }

  /** An error hides an accepted write exactly when the answer to the one accepted update is lost. */
  lemma {:induction false} ErrorHidesWriteIff(o: Option<DeploymentObject>, env: Attempts, usable: Check)
    ensures RetryError(o, env, usable, 0).Some? && RetryWrite(o, env, usable, 0).Some? <==>
            exists n: nat :: LosesAnswer(o, env, usable, n)
    ensures RetryError(o, env, usable, 0).None? ==> RetryWrite(o, env, usable, 0).Some?
    ensures RetryWrite(o, env, usable, 0).Some? ==> RetryError(o, env, usable, 0) in {None, Some(RequestError)}
  {
    ConflictsMeans(o, env, usable);
    var n := Conflicts(o, env, usable, 0);
    assert RetryError(o, env, usable, 0).Some? && RetryWrite(o, env, usable, 0).Some? ==>
             LosesAnswer(o, env, usable, n);
    forall m: nat | LosesAnswer(o, env, usable, m) ensures m == n {
      OneAttemptDecides(o, env, usable, n, m);
    }
  }

  lemma WriteMeans(o: Option<DeploymentObject>, env: Attempts, usable: Check)
    ensures RetryError(o, env, usable, 0).None? ==> RetryWrite(o, env, usable, 0).Some?
    ensures RetryWrite(o, env, usable, 0).Some? ==> RetryError(o, env, usable, 0) in {None, Some(RequestError)}
  {
    ErrorHidesWriteIff(o, env, usable);
  }

  /**
   * How Deploy and Rollback end.  After the retries succeed they wait for the rollout; when it does not
   * become ready, because reading it fails, the context ends or the time is up, that is the error.
   */
  function Ending(error: Option<ApiError>, ready: bool): Option<ApiError> {
    if error.None? && !ready then Some(RolloutFailed) else error
  }

  /** An error leaves an accepted write behind exactly when its answer was lost or its rollout was not ready. */
  lemma {:induction false} ErrorLeavesWriteIff(o: Option<DeploymentObject>, env: Attempts, usable: Check, ready: bool)
    ensures Ending(RetryError(o, env, usable, 0), ready).Some? && RetryWrite(o, env, usable, 0).Some? <==>
            || (exists n: nat :: LosesAnswer(o, env, usable, n))
            || (!ready && exists n: nat :: Succeeds(o, env, usable, n))
    ensures RetryWrite(o, env, usable, 0).Some? ==>
              Ending(RetryError(o, env, usable, 0), ready) in {None, Some(RequestError), Some(RolloutFailed)}
  {
    ErrorHidesWriteIff(o, env, usable);
    RetriesSucceedIff(o, env, usable);
  }

  lemma AttemptMeans(o: Option<DeploymentObject>, env: Attempts, usable: Check, i: nat)
    ensures Contended(o, env, usable, i) <==>
            AttemptError(ObjectAt(o, env, i), env(i), usable) == Some(ConflictError) && !env(i).cancelled
    ensures Undisturbed(o, env, usable, i) <==> AttemptError(ObjectAt(o, env, i), env(i), usable).None?
  {
  }

  /** After `i` conflicts, with the object as others have left it, the outcome is still what it was from the start. */
  ghost predicate Retrying(
      o: Option<DeploymentObject>, current: Option<DeploymentObject>, env: Attempts, usable: Check, i: nat) {
    && RetryError(o, env, usable, 0) == RetryError(current, env, usable, i)
    && RetryWrite(o, env, usable, 0) == RetryWrite(current, env, usable, i)
    && Conflicts(o, env, usable, 0) == i + Conflicts(current, env, usable, i)
  }

  /** How the retries go on, or end, after the attempt at `i`. */
  lemma AfterAttempt(
      o: Option<DeploymentObject>, current: Option<DeploymentObject>, env: Attempts, usable: Check, i: nat)
    requires Retrying(o, current, env, usable, i) && i < 5
    ensures var error := AttemptError(current, env(i), usable);
            if error != Some(ConflictError) then
              && RetryError(o, env, usable, 0) == error && Conflicts(o, env, usable, 0) == i
              && RetryWrite(o, env, usable, 0) == AttemptWrite(current, env(i), usable)
            else
              && AttemptWrite(current, env(i), usable).None?
              && if env(i).cancelled then
                   && RetryError(o, env, usable, 0) == Some(Cancelled) && Conflicts(o, env, usable, 0) == i
                   && RetryWrite(o, env, usable, 0).None?
                 else Retrying(o, AfterEdits(AfterEdits(current, env(i).earlier), env(i).meanwhile), env, usable, i + 1)
  {
  }

  lemma AfterFiveAttempts(o: Option<DeploymentObject>, current: Option<DeploymentObject>, env: Attempts, usable: Check)
    requires Retrying(o, current, env, usable, 5)
    ensures RetryError(o, env, usable, 0) == Some(ConflictError) && Conflicts(o, env, usable, 0) == 5
    ensures RetryWrite(o, env, usable, 0).None?
  {
  }

  // ---------- Deploy ----------

  predicate HasContainer(containers: seq<Container>, name: string) {
    exists i :: 0 <= i < |containers| && containers[i].name == name
  }

  function Naming(name: string): Check {
    (d: DeploymentObject) => HasContainer(d.template.containers, name)
  }

  function WithImage(containers: seq<Container>, name: string, image: string): seq<Container> {
    seq(|containers|, i requires 0 <= i < |containers| =>
      if containers[i].name == name then containers[i].(image := image) else containers[i])
  }

  /** The loop over the containers of a fetched copy, in place. */
  method SetImage(containers: array<Container>, name: string, image: string) returns (found: bool)
    modifies containers
    ensures forall i :: 0 <= i < containers.Length ==>
              if old(containers[i]).name != name then containers[i] == old(containers[i])
              else containers[i] == Container(name, image, old(containers[i]).rest)
    ensures found <==> exists i :: 0 <= i < containers.Length && old(containers[i]).name == name
    ensures containers[..] == WithImage(old(containers[..]), name, image)
    ensures found <==> HasContainer(old(containers[..]), name)
  {
    found := false;
    for i := 0 to containers.Length
      invariant forall j :: 0 <= j < i ==>
                  containers[j] == WithImage(old(containers[..]), name, image)[j]
      invariant forall j :: i <= j < containers.Length ==> containers[j] == old(containers[j])
      invariant found <==> HasContainer(old(containers[..i]), name)
    {
      assert old(containers[..i + 1]) == old(containers[..i]) + [old(containers[i])];
      if containers[i].name == name {
        containers[i] := containers[i].(image := image);
        found := true;
        assert old(containers[..i + 1])[i].name == name;
      }
    }
    assert old(containers[..containers.Length]) == old(containers[..]);
    assert forall i :: 0 <= i < containers.Length ==> containers[i] == containers[..][i];
    assert forall i :: 0 <= i < containers.Length ==> old(containers[i]) == old(containers[..])[i];
  }

  function WithDeployedImage(d: DeploymentObject, name: string, image: string): DeploymentObject {
    d.(template := d.template.(containers := WithImage(d.template.containers, name, image)))
  }

  /** The writes Deploy makes: the server's own object with one image changed. */
  function ImageWrites(replaced: Option<DeploymentObject>, name: string, image: string): seq<Write> {
    if replaced.None? then [] else [Write(replaced.value, WithDeployedImage(replaced.value, name, image))]
  }

  /** Nothing but the image of the containers with the name differs, and that is the requested one. */
  ghost predicate OnlyImage(w: Write, name: string, image: string) {
    var before, after := w.before.template.containers, w.after.template.containers;
    && w.after.replicas == w.before.replicas && w.after.rest == w.before.rest
    && w.after.template.labels == w.before.template.labels
    && w.after.template.annotations == w.before.template.annotations
    && w.after.template.rest == w.before.template.rest
    && |after| == |before|
    && forall i :: 0 <= i < |before| ==>
         && after[i].name == before[i].name && after[i].rest == before[i].rest
         && after[i].image == if before[i].name == name then image else before[i].image
  }

  /** All writes from the `n`-th on change nothing but the image. */
  ghost predicate OnlyImages(accepted: seq<Write>, n: nat, name: string, image: string) {
    forall k :: n <= k < |accepted| ==> OnlyImage(accepted[k], name, image)
  }

  lemma ImageWritesMean(earlier: seq<Write>, replaced: Option<DeploymentObject>, name: string, image: string)
    ensures OnlyImages(earlier + ImageWrites(replaced, name, image), |earlier|, name, image)
  {
  }

  /** One run of the retried function. */
  method TryDeploy(server: ApiServer, name: string, image: string, a: Attempt)
    returns (error: Option<ApiError>, desired: int)
    modifies server
    ensures var replaced := AttemptWrite(old(server.current), a, Naming(name));
            && server.accepted == old(server.accepted) + ImageWrites(replaced, name, image)
            && (error.None? ==> replaced.Some? && desired == Desired(replaced.value.replicas))
    ensures OnlyImages(server.accepted, |old(server.accepted)|, name, image)
    ensures error == AttemptError(old(server.current), a, Naming(name))
    ensures error == Some(ConflictError) ==>
              server.current == AfterEdits(AfterEdits(old(server.current), a.earlier), a.meanwhile)
  {
    ImageWritesMean(server.accepted, AttemptWrite(server.current, a, Naming(name)), name, image);
    server.Others(a.earlier);
    desired := 0;
    var fetched := server.Get(a.getFails);
    if fetched.None? {
      return Some(RequestError), desired;
    }
    var dep, read := fetched.value.0, fetched.value.1;
    desired := Desired(dep.replicas);
    var given := dep.template.containers;
    var containers := new Container[|given|](i requires 0 <= i < |given| => given[i]);
    assert containers[..] == given;
    var found := SetImage(containers, name, image);
    if !found {
      return Some(ContainerNotFound), desired;
    }
    server.Others(a.meanwhile);
    error := server.Update(dep.(template := dep.template.(containers := containers[..])), read, a.verdict);
  }

  /** The retried loop; `desired` is the count of the object read last. */
  method RetryDeploy(server: ApiServer, name: string, image: string, env: Attempts)
    returns (error: Option<ApiError>, desired: int, ghost conflicts: nat, pause: nat)
    modifies server
    ensures var replaced := RetryWrite(old(server.current), env, Naming(name), 0);
            && server.accepted == old(server.accepted) + ImageWrites(replaced, name, image)
            && (error.None? ==> replaced.Some? && desired == Desired(replaced.value.replicas))
    ensures OnlyImages(server.accepted, |old(server.accepted)|, name, image)
    ensures error == RetryError(old(server.current), env, Naming(name), 0)
    ensures conflicts == Conflicts(old(server.current), env, Naming(name), 0)
    ensures conflicts <= 5 && pause == 100 * conflicts * (conflicts + 1) <= 3000
  {
    conflicts, pause := 0, 0;
    ImageWritesMean(server.accepted, RetryWrite(server.current, env, Naming(name), 0), name, image);
    ghost var usable := Naming(name);
    var i := 0;
    while i < 5
      invariant 0 <= i == conflicts <= 5 && pause == Backoff(conflicts)
      invariant server.accepted == old(server.accepted)
      invariant Retrying(old(server.current), server.current, env, usable, i)
      decreases 5 - i
    {
      BackoffIsQuadratic(conflicts);
      AfterAttempt(old(server.current), server.current, env, usable, i);
      error, desired := TryDeploy(server, name, image, env(i));
      if error != Some(ConflictError) {
        return error, desired, conflicts, pause;
      }
      if env(i).cancelled {
        return Some(Cancelled), desired, conflicts, pause;
      }
      pause := pause + (i + 1) * 200;
      conflicts := conflicts + 1;
      i := i + 1;
    }
    BackoffIsQuadratic(conflicts);
    AfterFiveAttempts(old(server.current), server.current, env, usable);
    return Some(ConflictError), 0, conflicts, pause;
  }

  /**
   * No lost update.  At most one write is accepted: it replaces the object the server had at that moment
   * with only the image of the named containers changed.  Success is such a write, whose object's replica
   * count was awaited; every error but a failed request and a failed rollout leaves no write behind.
   */
  method Deploy(server: ApiServer, name: string, image: string, env: Attempts, ready: bool)
    returns (r: Outcome, ghost conflicts: nat, pause: nat)
    modifies server
    ensures var replaced := RetryWrite(old(server.current), env, Naming(name), 0);
            && server.accepted == old(server.accepted) + ImageWrites(replaced, name, image)
            && (r.Success? ==> replaced.Some? && r.desired == Desired(replaced.value.replicas))
    ensures OnlyImages(server.accepted, |old(server.accepted)|, name, image)
    ensures r.Success? ==>
              && |server.accepted| == |old(server.accepted)| + 1
              && var count := server.accepted[|old(server.accepted)|].before.replicas;
                 r.desired == if count.None? then 1 else count.value
    ensures r.Failure? && r.error != RequestError && r.error != RolloutFailed ==>
              server.accepted == old(server.accepted)
    ensures conflicts <= 5 && pause == 100 * conflicts * (conflicts + 1) <= 3000
    ensures conflicts == Conflicts(old(server.current), env, Naming(name), 0)
    ensures var error := Ending(RetryError(old(server.current), env, Naming(name), 0), ready);
            if error.None? then r.Success? else r == Failure(error.value)
  {
    WriteMeans(server.current, env, Naming(name));
    var error, desired;
    error, desired, conflicts, pause := RetryDeploy(server, name, image, env);
    if error.Some? {
      return Failure(error.value), conflicts, pause;
    }
    return Wait(desired, ready), conflicts, pause;
  }

  /** The wait for the rollout, by how it ends. */
  function Wait(desired: int, ready: bool): Outcome {
    if ready then Success(desired) else Failure(RolloutFailed)
  }

  // ---------- Rollback ----------

  const REVISION := "deployment.kubernetes.io/revision"
  const HASH := "pod-template-hash"

  function Any(): Check {
    (d: DeploymentObject) => true
  }

  function FirstWithRevision(sets: seq<ReplicaSet>, revision: int): Option<ReplicaSet> {
    if sets == [] then None
    else if REVISION in sets[0].annotations && sets[0].annotations[REVISION] == Text.Show(revision) then Some(sets[0])
    else FirstWithRevision(sets[1..], revision)
  }

  /** `sets[j]` is the first ReplicaSet whose revision annotation is the revision in decimal. */
  ghost predicate FirstOfRevision(sets: seq<ReplicaSet>, revision: int, j: int) {
    && 0 <= j < |sets| && OfRevision(sets[j], revision)
    && forall i :: 0 <= i < j ==> !OfRevision(sets[i], revision)
  }

  predicate OfRevision(s: ReplicaSet, revision: int) {
    && "deployment.kubernetes.io/revision" in s.annotations
    && s.annotations["deployment.kubernetes.io/revision"] == Text.Show(revision)
  }

  /** The object is kept, but for the template of the revision without the two keys. */
  ghost predicate Restores(w: Write, sets: seq<ReplicaSet>, revision: int) {
    exists j ::
      && FirstOfRevision(sets, revision, j)
      && w.after.replicas == w.before.replicas && w.after.rest == w.before.rest
      && w.after.template.containers == sets[j].template.containers
      && w.after.template.rest == sets[j].template.rest
      && w.after.template.labels == sets[j].template.labels - {"pod-template-hash"}
      && w.after.template.annotations == sets[j].template.annotations - {"deployment.kubernetes.io/revision"}
  }

  ghost predicate AllRestore(accepted: seq<Write>, n: nat, sets: seq<ReplicaSet>, revision: int) {
    forall k :: n <= k < |accepted| ==> Restores(accepted[k], sets, revision)
  }

  /** The recursive search finds the first ReplicaSet of the revision, when there is one. */
  lemma {:induction false} FirstWithRevisionMeans(sets: seq<ReplicaSet>, revision: int)
    ensures var found := FirstWithRevision(sets, revision);
            if found.Some? then exists j :: FirstOfRevision(sets, revision, j) && sets[j] == found.value
            else forall i :: 0 <= i < |sets| ==> !OfRevision(sets[i], revision)
  {
    if sets != [] {
      var found := FirstWithRevision(sets, revision);
      if OfRevision(sets[0], revision) {
        assert FirstOfRevision(sets, revision, 0);
      } else {
        FirstWithRevisionMeans(sets[1..], revision);
        if found.Some? {
          var j :| FirstOfRevision(sets[1..], revision, j) && sets[1..][j] == found.value;
          assert forall i :: 0 <= i < j ==> sets[1..][i] == sets[i + 1];
          assert FirstOfRevision(sets, revision, j + 1);
        } else {
          assert forall i :: 0 < i < |sets| ==> sets[i] == sets[1..][i - 1];
        }
      }
    }
  }

  lemma TemplateWritesMean(
      earlier: seq<Write>, replaced: Option<DeploymentObject>, sets: seq<ReplicaSet>, revision: int)
    requires FirstWithRevision(sets, revision).Some?
    ensures var template := FirstWithRevision(sets, revision).value.template;
            AllRestore(earlier + TemplateWrites(replaced, template), |earlier|, sets, revision)
  {
    FirstWithRevisionMeans(sets, revision);
    var template := FirstWithRevision(sets, revision).value.template;
    var j :| FirstOfRevision(sets, revision, j) && sets[j].template == template;
  }

  /** A template without the two keys the ReplicaSet controller adds. */
  function Cleaned(t: Template): Template {
    t.(labels := t.labels - {HASH}, annotations := t.annotations - {REVISION})
  }

  /** A Go map: decoding allocates one, and copying a struct that holds it copies the reference. */
  class StringMap {
    var entries: map<string, string>

    constructor (entries: map<string, string>)
      ensures this.entries == entries
    {
      this.entries := entries;
    }

    method Delete(key: string)
      modifies this
      ensures entries == old(entries) - {key}
    {
      entries := entries - {key};
    }
  }

  /** A decoded pod template; an absent map is nil. */
  datatype TemplateStruct = TemplateStruct(
    labels: StringMap?, annotations: StringMap?, containers: seq<Container>, rest: string)

  function Entries(m: StringMap?): map<string, string>
    reads m
  {
    if m == null then map[] else m.entries
  }

  /** What is sent to the server: the current contents of the maps. */
  function Serialized(t: TemplateStruct): Template
    reads t.labels, t.annotations
  {
    Template(Entries(t.labels), Entries(t.annotations), t.containers, t.rest)
  }

  method Decode(m: map<string, string>) returns (r: StringMap?)
    ensures Entries(r) == m && (r != null ==> fresh(r))
  {
    if m == map[] {
      return null;
    }
    r := new StringMap(m);
  }

  /** The search through the decoded list; only the chosen template is kept. */
  method FindRevision(sets: seq<ReplicaSet>, revision: int) returns (target: Option<TemplateStruct>)
    ensures target.Some? <==> exists j :: FirstOfRevision(sets, revision, j)
    ensures target.Some? ==>
              exists j :: FirstOfRevision(sets, revision, j) && Serialized(target.value) == sets[j].template
    ensures target.Some? <==> FirstWithRevision(sets, revision).Some?
    ensures target.Some? ==>
              && Serialized(target.value) == FirstWithRevision(sets, revision).value.template
              && (target.value.labels != null ==> fresh(target.value.labels))
              && (target.value.annotations != null ==> fresh(target.value.annotations))
              && (target.value.labels == null || target.value.labels != target.value.annotations)
  {
    FirstWithRevisionMeans(sets, revision);
    var i := 0;
    while i < |sets|
      invariant 0 <= i <= |sets|
      invariant FirstWithRevision(sets, revision) == FirstWithRevision(sets[i..], revision)
    {
      var set_ := sets[i];
      if REVISION in set_.annotations && set_.annotations[REVISION] == Text.Show(revision) {
        var labels := Decode(set_.template.labels);
        var annotations := Decode(set_.template.annotations);
        return Some(TemplateStruct(labels, annotations, set_.template.containers, set_.template.rest));
      }
      assert sets[i..][1..] == sets[i + 1..];
      i := i + 1;
    }
    return None;
  }

  /** The writes Rollback makes: the server's own object with the cleaned template. */
  function TemplateWrites(replaced: Option<DeploymentObject>, t: Template): seq<Write> {
    if replaced.None? then [] else [Write(replaced.value, replaced.value.(template := Cleaned(t)))]
  }

  /**
   * One run of the retried function.  The assignment shares the target's maps with the fetched object,
   * so the deletes change the target as well.
   */
  method TryRollback(server: ApiServer, target: TemplateStruct, a: Attempt) returns (error: Option<ApiError>)
    requires target.labels == null || target.labels != target.annotations
    modifies server, target.labels, target.annotations
    ensures server.accepted == old(server.accepted) +
              TemplateWrites(AttemptWrite(old(server.current), a, Any()), old(Serialized(target)))
    ensures error == AttemptError(old(server.current), a, Any())
    ensures error == Some(ConflictError) ==>
              server.current == AfterEdits(AfterEdits(old(server.current), a.earlier), a.meanwhile)
    ensures Serialized(target) in {old(Serialized(target)), Cleaned(old(Serialized(target)))}
  {
    server.Others(a.earlier);
    var fetched := server.Get(a.getFails);
    if fetched.None? {
      return Some(RequestError);
    }
    var current, read := fetched.value.0, fetched.value.1;
    var shared := target;
    if shared.labels != null {
      shared.labels.Delete(HASH);
    }
    if shared.annotations != null {
      shared.annotations.Delete(REVISION);
    }
    assert Serialized(shared) == Cleaned(old(Serialized(target))) by {
      var empty: map<string, string> := map[];
      assert empty - {HASH} == empty && empty - {REVISION} == empty;
    }
    server.Others(a.meanwhile);
    error := server.Update(current.(template := Serialized(shared)), read, a.verdict);
  }

  lemma CleanedTwice(t: Template)
    ensures Cleaned(Cleaned(t)) == Cleaned(t)
  {
    assert t.labels - {HASH} - {HASH} == t.labels - {HASH};
    assert t.annotations - {REVISION} - {REVISION} == t.annotations - {REVISION};
  }

  /** The retried loop: whichever attempt is accepted, it writes the cleaned template of the target as it first was. */
  method RetryRollback(server: ApiServer, target: TemplateStruct, ghost template: Template, env: Attempts)
    returns (error: Option<ApiError>, ghost conflicts: nat, pause: nat)
    requires Serialized(target) == template
    requires target.labels == null || target.labels != target.annotations
    modifies server, target.labels, target.annotations
    ensures server.accepted ==
            old(server.accepted) + TemplateWrites(RetryWrite(old(server.current), env, Any(), 0), template)
    ensures error == RetryError(old(server.current), env, Any(), 0)
    ensures error != Some(RevisionNotFound)
    ensures conflicts == Conflicts(old(server.current), env, Any(), 0)
    ensures conflicts <= 5 && pause == 100 * conflicts * (conflicts + 1) <= 3000
  {
    conflicts, pause := 0, 0;
    CleanedTwice(template);
    ghost var usable := Any();
    var i := 0;
    while i < 5
      invariant 0 <= i == conflicts <= 5 && pause == Backoff(conflicts)
      invariant server.accepted == old(server.accepted)
      invariant Retrying(old(server.current), server.current, env, usable, i)
      invariant Serialized(target) == template || Serialized(target) == Cleaned(template)
      decreases 5 - i
    {
      BackoffIsQuadratic(conflicts);
      AfterAttempt(old(server.current), server.current, env, usable, i);
      error := TryRollback(server, target, env(i));
      if error != Some(ConflictError) {
        return error, conflicts, pause;
      }
      if env(i).cancelled {
        return Some(Cancelled), conflicts, pause;
      }
      pause := pause + (i + 1) * 200;
      conflicts := conflicts + 1;
      i := i + 1;
    }
    BackoffIsQuadratic(conflicts);
    AfterFiveAttempts(old(server.current), server.current, env, usable);
    return Some(ConflictError), conflicts, pause;
  }

  /** The template Rollback writes, if it gets as far as the retried loop. */
  function Target(o: Option<DeploymentObject>, listed: Option<seq<ReplicaSet>>, revision: int, getFails: bool)
    : Option<Template>
  {
    if getFails || o.None? || listed.None? || FirstWithRevision(listed.value, revision).None? then None
    else Some(FirstWithRevision(listed.value, revision).value.template)
  }

  lemma TargetMeans(o: Option<DeploymentObject>, listed: Option<seq<ReplicaSet>>, revision: int, getFails: bool)
    ensures Target(o, listed, revision, getFails).Some? <==>
              && !getFails && o.Some? && listed.Some?
              && exists i :: 0 <= i < |listed.value| && OfRevision(listed.value[i], revision)
  {
    if listed.Some? {
      FirstWithRevisionMeans(listed.value, revision);
    }
  }

  /**
   * At most one write is accepted: it replaces the object the server had at that moment, with the template
   * of the first listed ReplicaSet of the revision, as listed, minus the two controller keys.  What
   * earlier attempts deleted from the shared maps does not show.  The awaited count is the first
   * Get's.  `listed` is None when the listing fails.
   */
  method Rollback(
      server: ApiServer, listed: Option<seq<ReplicaSet>>, revision: int, firstGetFails: bool, env: Attempts,
      ready: bool)
    returns (r: Outcome, ghost conflicts: nat, pause: nat)
    modifies server
    ensures var target := Target(old(server.current), listed, revision, firstGetFails);
            if target.None? then
              && server.accepted == old(server.accepted)
              && r == Failure(if firstGetFails || old(server.current).None? || listed.None? then RequestError
                              else RevisionNotFound)
            else
              && server.accepted == old(server.accepted)
                                    + TemplateWrites(RetryWrite(old(server.current), env, Any(), 0), target.value)
              && var error := Ending(RetryError(old(server.current), env, Any(), 0), ready);
                 r == if error.Some? then Failure(error.value) else Success(Desired(old(server.current).value.replicas))
    ensures listed.None? ==> server.accepted == old(server.accepted)
    ensures listed.Some? ==> AllRestore(server.accepted, |old(server.accepted)|, listed.value, revision)
    ensures r == Failure(RevisionNotFound) <==>
              && !firstGetFails && old(server.current).Some? && listed.Some?
              && forall i :: 0 <= i < |listed.value| ==> !OfRevision(listed.value[i], revision)
    ensures r.Success? ==>
              && old(server.current).Some?
              && var count := old(server.current).value.replicas; r.desired == if count.None? then 1 else count.value
    ensures r.Success? ==> |server.accepted| == |old(server.accepted)| + 1
    ensures r.Failure? && r.error != RequestError && r.error != RolloutFailed ==>
              server.accepted == old(server.accepted)
    ensures conflicts <= 5 && pause == 100 * conflicts * (conflicts + 1) <= 3000
    ensures conflicts == if Target(old(server.current), listed, revision, firstGetFails).None? then 0
                         else Conflicts(old(server.current), env, Any(), 0)
  {
    conflicts, pause := 0, 0;
    TargetMeans(server.current, listed, revision, firstGetFails);
    var dep := server.Get(firstGetFails);
    if dep.None? {
      return Failure(RequestError), conflicts, pause;
    }
    if listed.None? {
      return Failure(RequestError), conflicts, pause;
    }
    var target := FindRevision(listed.value, revision);
    if target.None? {
      return Failure(RevisionNotFound), conflicts, pause;
    }
    var desired := Desired(dep.value.0.replicas);
    ghost var template := FirstWithRevision(listed.value, revision).value.template;
    WriteMeans(server.current, env, Any());
    TemplateWritesMean(server.accepted, RetryWrite(server.current, env, Any(), 0), listed.value, revision);
    var error;
    error, conflicts, pause := RetryRollback(server, target.value, template, env);
    if error.Some? {
      return Failure(error.value), conflicts, pause;
    }
    return Wait(desired, ready), conflicts, pause;
  }

  /** Other clients' writes from the first Get to the Get of attempt `n`. */
  function EditsBefore(env: Attempts, n: nat): seq<Option<DeploymentObject>> {
    if n == 0 then env(0).earlier else EditsBefore(env, n - 1) + env(n - 1).meanwhile + env(n).earlier
  }

  lemma {:induction false} EditsLeadTo(o: Option<DeploymentObject>, env: Attempts, n: nat)
    ensures AfterEdits(ObjectAt(o, env, n), env(n).earlier) == AfterEdits(o, EditsBefore(env, n))
  {
    if n > 0 {
      EditsLeadTo(o, env, n - 1);
    }
  }

  /** The count Rollback awaits is the replaced object's exactly when the last write before its own kept the count. */
  lemma AwaitsReplacedCountIff(o: DeploymentObject, env: Attempts, n: nat, b: DeploymentObject)
    requires Replaces(Some(o), env, Any(), n, b)
    ensures var edits := EditsBefore(env, n);
            Desired(o.replicas) == Desired(b.replicas) <==>
            edits == []
            || (edits[|edits| - 1].Some? && Desired(edits[|edits| - 1].value.replicas) == Desired(o.replicas))
  {
    EditsLeadTo(Some(o), env, n);
  }

  /** Nobody else scales the object in an attempt: it is left as it is, deleted, or written with the same count. */
  predicate KeepsCount(edits: seq<Option<DeploymentObject>>, count: int) {
    forall k :: 0 <= k < |edits| && edits[k].Some? ==> Desired(edits[k].value.replicas) == count
  }

  lemma {:induction false} EditsKeepCount(env: Attempts, n: nat, count: int)
    requires forall k: nat :: k <= n ==> KeepsCount(env(k).earlier, count) && KeepsCount(env(k).meanwhile, count)
    ensures KeepsCount(EditsBefore(env, n), count)
  {
    if n > 0 {
      EditsKeepCount(env, n - 1, count);
      var before, all := EditsBefore(env, n - 1), EditsBefore(env, n);
      assert all == before + env(n - 1).meanwhile + env(n).earlier;
    }
  }

  /** So it suffices that nobody else scales the object while Rollback is running. */
  lemma UnscaledRollbackAwaitsItsCount(o: DeploymentObject, env: Attempts, n: nat, b: DeploymentObject)
    requires Replaces(Some(o), env, Any(), n, b)
    requires forall k: nat :: k <= n ==>
               KeepsCount(env(k).earlier, Desired(o.replicas)) && KeepsCount(env(k).meanwhile, Desired(o.replicas))
    ensures Desired(o.replicas) == Desired(b.replicas)
  {
    EditsLeadTo(Some(o), env, n);
    EditsKeepCount(env, n, Desired(o.replicas));
  }

  // ---------- three runs ----------

  const PLAIN := DeploymentObject(Some(1), Template(map[], map[], [Container("app", "old", "")], ""), "")
  const QUIET := Attempt([], false, [], Answered, false)

  /** The first answer is lost: an error is reported, and the image is deployed. */
  method LostAnswerHidesWrite() returns (server: ApiServer, r: Outcome)
    ensures r == Failure(RequestError)
    ensures server.accepted == [Write(PLAIN, WithDeployedImage(PLAIN, "app", "new"))]
  {
    server := new ApiServer(Some(PLAIN));
    ghost var conflicts;
    var pause;
    assert PLAIN.template.containers[0].name == "app";
    r, conflicts, pause := Deploy(server, "app", "new", _ => QUIET.(verdict := Lost), true);
  }

  /** The rollout does not become ready: an error is reported, and the image is deployed. */
  method SlowRolloutLeavesWrite() returns (server: ApiServer, r: Outcome)
    ensures r == Failure(RolloutFailed)
    ensures server.accepted == [Write(PLAIN, WithDeployedImage(PLAIN, "app", "new"))]
  {
    server := new ApiServer(Some(PLAIN));
    ghost var conflicts;
    var pause;
    assert PLAIN.template.containers[0].name == "app";
    r, conflicts, pause := Deploy(server, "app", "new", _ => QUIET, false);
  }

  /** Scaled to three replicas while the ReplicaSets are listed, the rollback still awaits one. */
  method ScaledDuringRollback() returns (server: ApiServer, r: Outcome)
    ensures r == Success(1)
    ensures |server.accepted| == 1 && server.accepted[0].before.replicas == Some(3)
  {
    server := new ApiServer(Some(PLAIN));
    var target := ReplicaSet(map[REVISION := "7"], PLAIN.template);
    ghost var conflicts;
    var pause;
    assert Text.Show(7) == "7";
    r, conflicts, pause :=
      Rollback(server, Some([target]), 7, false, _ => QUIET.(earlier := [Some(PLAIN.(replicas := Some(3)))]),
               true);
  }
}
