/** What one transaction, whatever it is, may change.  The other modules reason from this alone. */
module Evolution {
  import opened Domain
  import opened Database

  /** The committed status changes one transaction can make. */
  predicate StatusStep(from: Status, to: Status) {
    || from == to
    || (from == PendingApproval && to in {Queued, Rejected})
    || (from == Queued && to == Running)
    || (from == Running && to in {Succeeded, Failed})
  }

  /** Only the status, the error columns and the claimant of an existing row change. */
  predicate RowStep(a: Operation, b: Operation) {
    && b == a.(status := b.status, errorCode := b.errorCode, errorMessage := b.errorMessage, claimedBy := b.claimedBy)
    && StatusStep(a.status, b.status)
    && (a.status == b.status ==> a == b)
  }

  ghost predicate Evolves(db: Db, d: Db) {
    && db.envs <= d.envs && d.users == db.users
    && |db.ops| <= |d.ops| <= |db.ops| + 1
    && (forall i :: 0 <= i < |db.ops| ==> RowStep(db.ops[i], d.ops[i]))
    && (forall i, j :: 0 <= i < j < |db.ops| ==> d.ops[i] == db.ops[i] || d.ops[j] == db.ops[j])
    && db.approvals <= d.approvals && db.events <= d.events && db.writes <= d.writes
    && |db.outbox| <= |d.outbox|
    && (forall r :: 0 <= r < |db.outbox| ==>
          d.outbox[r].note == db.outbox[r].note && d.outbox[r].provider == db.outbox[r].provider
          && d.outbox[r].destination == db.outbox[r].destination)
    && db.now <= d.now
  }

  lemma CreateEnvironmentEvolves(db: Db, t: Txn)
    requires t.CreateEnvironment?
    ensures Evolves(db, After(db, t))
    ensures After(db, t) == db.(envs := After(db, t).envs)
  {
  }

  lemma RequestEvolves(db: Db, t: Txn)
    requires t.Request?
    ensures Evolves(db, After(db, t))
    ensures After(db, t) == db.(ops := After(db, t).ops, events := After(db, t).events)
    ensures After(db, t).ops[..|db.ops|] == db.ops
  {
  }

  /** A decision takes effect or leaves no trace. */
  lemma DecisionEffect(db: Db, t: Txn)
    requires t.Decision?
    ensures var (d, r) := Execute(db, t);
            var to := if t.decision == "rejected" then Rejected else Queued;
            if r.Done? then
              && t.id < |db.ops| && db.ops[t.id].status == PendingApproval
              && t.decision in {"approved", "rejected"} && db.ops[t.id].requester != t.approver
              && d == db.(ops := db.ops[t.id := db.ops[t.id].(status := to)],
                          approvals := db.approvals + [Approval(t.id, t.approver, t.decision, t.comment)],
                          writes := d.writes)
              && db.writes <= d.writes
            else d == db
  {
  }

  lemma DecisionEvolves(db: Db, t: Txn)
    requires t.Decision?
    ensures Evolves(db, After(db, t))
    ensures |After(db, t).ops| == |db.ops|
    ensures forall i :: 0 <= i < |db.ops| && i != t.id ==> After(db, t).ops[i] == db.ops[i]
    ensures After(db, t).outbox == db.outbox && After(db, t).envs == db.envs && After(db, t).setting == db.setting
  {
    DecisionEffect(db, t);
  }

  lemma ClaimEvolves(db: Db, t: Txn)
    requires t.Claim?
    ensures Evolves(db, After(db, t))
    ensures After(db, t) == db.(ops := After(db, t).ops, writes := After(db, t).writes)
    ensures |After(db, t).ops| == |db.ops|
  {
  }

  /** A finish takes effect or leaves no trace. */
  lemma FinishEffect(db: Db, t: Txn)
    requires t.Finish?
    ensures var d := After(db, t);
            if t.id < |db.ops| && db.ops[t.id].status == Running then
              && Execute(db, t).1 == Done
              && d == db.(ops := db.ops[t.id := db.ops[t.id].(status := FinalStatus(t.succeeded),
                                                             errorCode := t.code, errorMessage := t.message)],
                          writes := db.writes + [StatusWrite(t.id, Running, FinalStatus(t.succeeded))],
                          events := db.events + [OperationStatus(t.id, FinalStatus(t.succeeded))],
                          outbox := d.outbox)
              && d.outbox == db.outbox +
                   match NotificationFor(t.id, t.copy, t.text)
                   case None => []
                   case Some(note) => [OutboxRow(t.copy.provider, note.destination, note, 0, ZERO_TIME, None, "", t.at)]
            else Execute(db, t) == (db, Failure(Conflict))
  {
  }

  lemma FinishEvolves(db: Db, t: Txn)
    requires t.Finish?
    ensures Evolves(db, After(db, t))
    ensures |After(db, t).ops| == |db.ops|
    ensures forall i :: 0 <= i < |db.ops| && i != t.id ==> After(db, t).ops[i] == db.ops[i]
    ensures After(db, t).approvals == db.approvals && After(db, t).envs == db.envs && After(db, t).setting == db.setting
  {
    FinishEffect(db, t);
  }

  /** Provider settings, outbox delivery and the clock leave the operations alone. */
  predicate LeavesOperationsAlone(t: Txn) {
    || t.SwitchProvider? || t.WriteSetting? || t.InitProvider?
    || t.ClaimOutbox? || t.Sent? || t.SendFailed? || t.Tick?
  }

  lemma DeliveryEvolves(db: Db, t: Txn)
    requires t.ClaimOutbox? || t.Sent? || t.SendFailed?
    ensures Evolves(db, After(db, t))
    ensures After(db, t) == db.(outbox := After(db, t).outbox) && |After(db, t).outbox| == |db.outbox|
  {
  }

  lemma SettingsEvolve(db: Db, t: Txn)
    requires t.SwitchProvider? || t.WriteSetting? || t.InitProvider? || t.Tick?
    ensures Evolves(db, After(db, t))
    ensures After(db, t) == db.(setting := After(db, t).setting, now := After(db, t).now)
  {
  }

  lemma OtherEvolves(db: Db, t: Txn)
    requires LeavesOperationsAlone(t)
    ensures Evolves(db, After(db, t))
    ensures After(db, t) == db.(setting := After(db, t).setting, outbox := After(db, t).outbox, now := After(db, t).now)
    ensures |After(db, t).outbox| == |db.outbox|
  {
    if t.ClaimOutbox? || t.Sent? || t.SendFailed? {
      DeliveryEvolves(db, t);
    } else {
      SettingsEvolve(db, t);
    }
  }

  lemma StepEvolves(db: Db, t: Txn)
    ensures Evolves(db, After(db, t))
  {
    if t.CreateEnvironment? { CreateEnvironmentEvolves(db, t); }
    else if t.Request? { RequestEvolves(db, t); }
    else if t.Decision? { DecisionEvolves(db, t); }
    else if t.Claim? { ClaimEvolves(db, t); }
    else if t.Finish? { FinishEvolves(db, t); }
    else { OtherEvolves(db, t); }
  }

  /** What stays true of a row over any number of transactions. */
  ghost predicate Descends(db: Db, d: Db) {
    && db.envs <= d.envs && db.approvals <= d.approvals && |db.ops| <= |d.ops|
    && forall i :: 0 <= i < |db.ops| ==>
         && d.ops[i] == db.ops[i].(status := d.ops[i].status, errorCode := d.ops[i].errorCode,
                                   errorMessage := d.ops[i].errorMessage, claimedBy := d.ops[i].claimedBy)
         && (db.ops[i].status != PendingApproval ==> d.ops[i].status != PendingApproval)
         && (db.ops[i].status !in {PendingApproval, Queued} ==> d.ops[i].status !in {PendingApproval, Queued})
         && (!Unfinished(db.ops[i].status) ==> d.ops[i].status == db.ops[i].status)
  }

  lemma {:induction false} RunDescends(db: Db, ts: seq<Txn>)
    ensures Descends(db, Run(db, ts))
  {
    if ts != [] {
      var n := |ts| - 1;
      RunDescends(db, ts[..n]);
      var mid, end := Run(db, ts[..n]), Run(db, ts);
      StepEvolves(mid, ts[n]);
      forall i | 0 <= i < |db.ops| ensures RowStep(mid.ops[i], end.ops[i]) {
      }
    }
  }

  lemma RunAppend(db: Db, ts: seq<Txn>, t: Txn)
    ensures Run(db, ts + [t]) == After(Run(db, ts), t)
  {
    assert (ts + [t])[..|ts|] == ts;
  }

  lemma {:induction false} RunSplits(db: Db, ts: seq<Txn>, us: seq<Txn>)
    ensures Run(db, ts + us) == Run(Run(db, ts), us)
  {
    if us == [] {
      assert ts + us == ts;
    } else {
      var n := |us| - 1;
      RunSplits(db, ts, us[..n]);
      assert (ts + us)[..|ts + us| - 1] == ts + us[..n];
    }
  }
}
