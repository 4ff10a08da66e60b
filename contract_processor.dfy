// The per-contract pipeline: evaluate at the request's cutoff, grant when the
// evaluation produced both records, then record.  The whole pipeline is
// retried, at most five attempts in all, while it fails with an SQL or
// persistence fault.  Each attempt runs in its own transaction: a runtime
// fault rolls its table writes back, while a checked SQLException lets them
// commit.  The billing log records every call an attempt makes, whether or not
// the attempt's transaction later rolls back.
module ContractProcessing {
  import opened Wrappers
  import opened Entities
  import opened Store
  import opened Configurations
  import opened StatusGuards
  import opened DiscountEvaluation
  import opened DiscountGranting
  import opened DiscountLogging
  import Seqs

  const MaxAttempts: nat := 5

  /** The environment's choices for one attempt: how the two billing calls and the four saves end. */
  datatype AttemptFaults = AttemptFaults(offerCall: CallOutcome, aloCall: CallOutcome, writes: WriteFaults)

  const NoFaults: AttemptFaults := AttemptFaults(Returned, Returned, WriteFaults(Returned, Returned, Returned, Returned))

  /** The choices for attempt k; attempts beyond the given list meet no fault. */
  function FaultsAt(faults: seq<AttemptFaults>, k: nat): AttemptFaults
  {
    if k < |faults| then faults[k] else NoFaults
  }

  /** The tables, the contract, the billing calls and the fault after one attempt, before any rollback. */
  datatype Attempt = Attempt(tables: Tables, contract: ContractRow, calls: seq<OccCall>, thrown: Option<Fault>)

  /** The grant row evaluation hands to granting: both flags start false. */
  function InitialGrant(e: Evaluation): Option<GrantRow>
  {
    match e.grant
    case Some(f) => Some(GrantRow(f, false, false))
    case None => None
  }

  /** One run of processContract's body. */
  function AttemptOf(t: Tables, row: ContractRow, ds: seq<AssignDto>, cutoff: int, cfg: Snapshot,
                     enabled: bool, af: AttemptFaults): Attempt
  {
    var e := EvaluationOf(row.key.requestId, row.key.coId, ds, cutoff, cfg);
    var evaluated := row.(status := e.status, remark := e.remark);
    if e.grant.Some? && e.eval.Some? then
      var g := GrantingOf(e.eval.value, GrantRow(e.grant.value, false, false), enabled, af.offerCall, af.aloCall);
      if g.thrown.Some? then Attempt(t, evaluated, g.calls, g.thrown)
      else
        var r := RecordOf(t, evaluated, e.eval, Some(g.row), cutoff, af.writes);
        Attempt(r.tables, r.contract, g.calls, r.thrown)
    else
      var r := RecordOf(t, evaluated, e.eval, InitialGrant(e), cutoff, af.writes);
      Attempt(r.tables, r.contract, [], r.thrown)
  }

  /** The tables an attempt leaves once its transaction ends: a runtime fault rolls back, a checked one commits. */
  function Committed(before: Tables, a: Attempt): Tables
  {
    if a.thrown.Some? && !a.thrown.value.SqlFault? then before else a.tables
  }

  datatype Processed = Processed(tables: Tables, contract: ContractRow, calls: seq<OccCall>, thrown: Option<Fault>, attempts: nat)

  /** The attempts from number k on (counting from 0). */
  function RetryFrom(k: nat, t: Tables, row: ContractRow, ds: seq<AssignDto>, cutoff: int, cfg: Snapshot,
                     enabled: bool, faults: seq<AttemptFaults>): Processed
    requires k < MaxAttempts
    decreases MaxAttempts - k
  {
    var a := AttemptOf(t, row, ds, cutoff, cfg, enabled, FaultsAt(faults, k));
    var t' := Committed(t, a);
    if a.thrown.Some? && Retryable(a.thrown.value) && k + 1 < MaxAttempts then
      var rest := RetryFrom(k + 1, t', a.contract, ds, cutoff, cfg, enabled, faults);
      Processed(rest.tables, rest.contract, a.calls + rest.calls, rest.thrown, rest.attempts)
    else
      Processed(t', a.contract, a.calls, a.thrown, k + 1)
  }

  /** processContract with its retry policy: the cutoff is the request's bill period end. */
  function ProcessContractOf(t: Tables, row: ContractRow, request: RequestRow, ds: seq<AssignDto>, cfg: Snapshot,
                             enabled: bool, faults: seq<AttemptFaults>): Processed
  {
    RetryFrom(0, t, row, ds, request.billPeriodEndDate, cfg, enabled, faults)
  }

  // ---- one attempt ----

  /** Billing is called only for an evaluation that produced a grant. */
  lemma GrantOnlyAfterSuccessfulEvaluation(t: Tables, row: ContractRow, ds: seq<AssignDto>, cutoff: int, cfg: Snapshot,
                                           enabled: bool, af: AttemptFaults)
    ensures var e := EvaluationOf(row.key.requestId, row.key.coId, ds, cutoff, cfg);
      e.grant.None? ==>
        AttemptOf(t, row, ds, cutoff, cfg, enabled, af) ==
        var r := RecordOf(t, row.(status := e.status, remark := e.remark), e.eval, None, cutoff, af.writes);
        Attempt(r.tables, r.contract, [], r.thrown)
  {
    EvaluationShapes(row.key.requestId, row.key.coId, ds, cutoff, cfg);
  }

  /** Every status the pipeline saves onto a contract passes the contract's guard. */
  lemma SavedStatusAccepted(row: ContractRow, ds: seq<AssignDto>, cutoff: int, cfg: Snapshot, g: Option<GrantRow>)
    requires var e := EvaluationOf(row.key.requestId, row.key.coId, ds, cutoff, cfg);
      e.grant.Some? <==> g.Some?
    ensures
      var e := EvaluationOf(row.key.requestId, row.key.coId, ds, cutoff, cfg);
      var c := LoggedContract(row.(status := e.status, remark := e.remark), g);
      && GuardContractStatus(c.status) == Accepted
      && c.status.Some? && c.status.value in {"S", "F", "P"}
  {
    var e := EvaluationOf(row.key.requestId, row.key.coId, ds, cutoff, cfg);
    EvaluationShapes(row.key.requestId, row.key.coId, ds, cutoff, cfg);
    LoggedStatusPassesGuard(row.(status := e.status, remark := e.remark), g);
  }

  /**
   * An attempt whose six external calls all return completes, and leaves the
   * contract in S, F or P; the guard never rejects what the pipeline writes.
   */
  lemma {:induction false} CleanAttemptCompletes(t: Tables, row: ContractRow, ds: seq<AssignDto>, cutoff: int, cfg: Snapshot,
                                                 enabled: bool)
    requires var e := EvaluationOf(row.key.requestId, row.key.coId, ds, cutoff, cfg);
      e.grant.Some? ==> e.grant.value.assignId in t.assigns
    ensures var a := AttemptOf(t, row, ds, cutoff, cfg, enabled, NoFaults);
      && a.thrown.None?
      && a.contract.status.Some? && a.contract.status.value in {"S", "F", "P"}
      && a.contract.key == row.key
  {
    var e := EvaluationOf(row.key.requestId, row.key.coId, ds, cutoff, cfg);
    EvaluationShapes(row.key.requestId, row.key.coId, ds, cutoff, cfg);
    var evaluated := row.(status := e.status, remark := e.remark);
    if e.grant.Some? {
      var g := GrantingOf(e.eval.value, GrantRow(e.grant.value, false, false), enabled, Returned, Returned);
      OnlySqlFaultPropagates(e.eval.value, GrantRow(e.grant.value, false, false), enabled, Returned, Returned);
      SavedStatusAccepted(row, ds, cutoff, cfg, Some(g.row));
      SuccessfulRecording(t, evaluated, e.eval.value, g.row, cutoff);
    } else {
      SavedStatusAccepted(row, ds, cutoff, cfg, None);
    }
  }

  /** When an attempt's table writes raise no SQL fault, an attempt ending in an SQL fault has written nothing. */
  lemma SqlFaultWritesNothing(t: Tables, row: ContractRow, ds: seq<AssignDto>, cutoff: int, cfg: Snapshot,
                              enabled: bool, af: AttemptFaults)
    requires NoSqlWrite(af.writes)
    ensures var a := AttemptOf(t, row, ds, cutoff, cfg, enabled, af);
      a.thrown == Some(SqlFault) ==> a.tables == t
  {
    var e := EvaluationOf(row.key.requestId, row.key.coId, ds, cutoff, cfg);
    var evaluated := row.(status := e.status, remark := e.remark);
    if e.grant.Some? && e.eval.Some? {
      var g := GrantingOf(e.eval.value, GrantRow(e.grant.value, false, false), enabled, af.offerCall, af.aloCall);
      SqlFaultComesFromASave(t, evaluated, e.eval, Some(g.row), cutoff, af.writes);
    } else {
      SqlFaultComesFromASave(t, evaluated, e.eval, InitialGrant(e), cutoff, af.writes);
    }
  }

  predicate NoSqlWrite(w: WriteFaults)
  {
    w.contractSave != Raised(SqlFault) && w.evalSave != Raised(SqlFault)
    && w.grantSave != Raised(SqlFault) && w.assignSave != Raised(SqlFault)
  }

  // ---- the retry policy ----

  /** At least one and at most five attempts are made. */
  lemma {:induction false} AttemptsBounded(k: nat, t: Tables, row: ContractRow, ds: seq<AssignDto>, cutoff: int,
                                           cfg: Snapshot, enabled: bool, faults: seq<AttemptFaults>)
    requires k < MaxAttempts
    ensures k < RetryFrom(k, t, row, ds, cutoff, cfg, enabled, faults).attempts <= MaxAttempts
    decreases MaxAttempts - k
  {
    var a := AttemptOf(t, row, ds, cutoff, cfg, enabled, FaultsAt(faults, k));
    RetryStep(k, t, row, ds, cutoff, cfg, enabled, faults);
    if a.thrown.Some? && Retryable(a.thrown.value) && k + 1 < MaxAttempts {
      AttemptsBounded(k + 1, Committed(t, a), a.contract, ds, cutoff, cfg, enabled, faults);
    }
  }

  /**
   * A run that fails ends with the fault of its last attempt, which is either
   * not retryable or the fifth attempt's.
   */
  lemma {:induction false} FailureIsFinal(k: nat, t: Tables, row: ContractRow, ds: seq<AssignDto>, cutoff: int,
                                          cfg: Snapshot, enabled: bool, faults: seq<AttemptFaults>)
    requires k < MaxAttempts
    ensures var p := RetryFrom(k, t, row, ds, cutoff, cfg, enabled, faults);
      p.thrown.Some? ==> !Retryable(p.thrown.value) || p.attempts == MaxAttempts
    decreases MaxAttempts - k
  {
    var a := AttemptOf(t, row, ds, cutoff, cfg, enabled, FaultsAt(faults, k));
    if a.thrown.Some? && Retryable(a.thrown.value) && k + 1 < MaxAttempts {
      FailureIsFinal(k + 1, Committed(t, a), a.contract, ds, cutoff, cfg, enabled, faults);
    }
  }

  /** A first attempt that completes is the only one. */
  lemma FirstSuccessIsFinal(t: Tables, row: ContractRow, request: RequestRow, ds: seq<AssignDto>, cfg: Snapshot,
                            enabled: bool, faults: seq<AttemptFaults>)
    requires AttemptOf(t, row, ds, request.billPeriodEndDate, cfg, enabled, FaultsAt(faults, 0)).thrown.None?
    ensures var a := AttemptOf(t, row, ds, request.billPeriodEndDate, cfg, enabled, FaultsAt(faults, 0));
      ProcessContractOf(t, row, request, ds, cfg, enabled, faults) == Processed(a.tables, a.contract, a.calls, None, 1)
  {
  }

  /** A fault that is not retried ends the run at once, its writes rolled back. */
  lemma OtherFaultNotRetried(t: Tables, row: ContractRow, request: RequestRow, ds: seq<AssignDto>, cfg: Snapshot,
                             enabled: bool, faults: seq<AttemptFaults>)
    requires AttemptOf(t, row, ds, request.billPeriodEndDate, cfg, enabled, FaultsAt(faults, 0)).thrown == Some(OtherFault)
    ensures var p := ProcessContractOf(t, row, request, ds, cfg, enabled, faults);
      p.attempts == 1 && p.thrown == Some(OtherFault) && p.tables == t
  {
  }

  /**
   * The billing log of a retried run: the calls of a failed first attempt
   * stay at the head of the run's calls, and are made again by the next
   * attempt when it repeats the same decision.
   */
  lemma RetriedCallsRepeat(t: Tables, row: ContractRow, request: RequestRow, ds: seq<AssignDto>, cfg: Snapshot,
                           enabled: bool, faults: seq<AttemptFaults>)
    requires var a := AttemptOf(t, row, ds, request.billPeriodEndDate, cfg, enabled, FaultsAt(faults, 0));
      a.thrown == Some(PersistenceFault)
    ensures var a := AttemptOf(t, row, ds, request.billPeriodEndDate, cfg, enabled, FaultsAt(faults, 0));
      var p := ProcessContractOf(t, row, request, ds, cfg, enabled, faults);
      && p.calls[..|a.calls|] == a.calls
      && p.attempts >= 2
  {
    var a := AttemptOf(t, row, ds, request.billPeriodEndDate, cfg, enabled, FaultsAt(faults, 0));
    AttemptsBounded(1, t, a.contract, ds, request.billPeriodEndDate, cfg, enabled, faults);
  }

  /**
   * When no table write raises an SQL fault, a run that fails leaves the
   * tables exactly as it found them.
   */
  lemma {:induction false} FailedRunWritesNothing(k: nat, t: Tables, row: ContractRow, ds: seq<AssignDto>, cutoff: int,
                                                  cfg: Snapshot, enabled: bool, faults: seq<AttemptFaults>)
    requires k < MaxAttempts
    requires forall i :: 0 <= i < |faults| ==> NoSqlWrite(faults[i].writes)
    ensures var p := RetryFrom(k, t, row, ds, cutoff, cfg, enabled, faults);
      p.thrown.Some? ==> p.tables == t
    decreases MaxAttempts - k
  {
    var af := FaultsAt(faults, k);
    var a := AttemptOf(t, row, ds, cutoff, cfg, enabled, af);
    assert NoSqlWrite(af.writes);
    SqlFaultWritesNothing(t, row, ds, cutoff, cfg, enabled, af);
    assert a.thrown.Some? ==> Committed(t, a) == t;
    if a.thrown.Some? && Retryable(a.thrown.value) && k + 1 < MaxAttempts {
      FailedRunWritesNothing(k + 1, Committed(t, a), a.contract, ds, cutoff, cfg, enabled, faults);
    }
  }

  // ---- what the pipeline leaves alone ----

  /** One attempt writes only contracts, evals, grants and assignments, and keeps the contract's key. */
  lemma AttemptFrame(t: Tables, row: ContractRow, ds: seq<AssignDto>, cutoff: int, cfg: Snapshot,
                     enabled: bool, af: AttemptFaults)
    ensures var a := AttemptOf(t, row, ds, cutoff, cfg, enabled, af);
      SameOutsidePipeline(t, a.tables) && a.contract.key == row.key
  {
    var e := EvaluationOf(row.key.requestId, row.key.coId, ds, cutoff, cfg);
    var evaluated := row.(status := e.status, remark := e.remark);
    if e.grant.Some? && e.eval.Some? {
      var g := GrantingOf(e.eval.value, GrantRow(e.grant.value, false, false), enabled, af.offerCall, af.aloCall);
      if g.thrown.None? {
        RecordFrame(t, evaluated, e.eval, Some(g.row), cutoff, af.writes);
      }
    } else {
      RecordFrame(t, evaluated, e.eval, InitialGrant(e), cutoff, af.writes);
    }
  }

  /** The whole run, retries included, writes only contracts, evals, grants and assignments. */
  lemma {:induction false} RetryFrame(k: nat, t: Tables, row: ContractRow, ds: seq<AssignDto>, cutoff: int,
                                      cfg: Snapshot, enabled: bool, faults: seq<AttemptFaults>)
    requires k < MaxAttempts
    ensures var p := RetryFrom(k, t, row, ds, cutoff, cfg, enabled, faults);
      SameOutsidePipeline(t, p.tables) && p.contract.key == row.key
    decreases MaxAttempts - k
  {
    var a := AttemptOf(t, row, ds, cutoff, cfg, enabled, FaultsAt(faults, k));
    AttemptFrame(t, row, ds, cutoff, cfg, enabled, FaultsAt(faults, k));
    var t' := Committed(t, a);
    assert SameOutsidePipeline(t, t');
    RetryStep(k, t, row, ds, cutoff, cfg, enabled, faults);
    if a.thrown.Some? && Retryable(a.thrown.value) && k + 1 < MaxAttempts {
      RetryFrame(k + 1, t', a.contract, ds, cutoff, cfg, enabled, faults);
    }
  }

  // ---- the service ----

  /** One step of the retry policy, with the attempt named. */
  lemma RetryStep(k: nat, t: Tables, row: ContractRow, ds: seq<AssignDto>, cutoff: int, cfg: Snapshot,
                  enabled: bool, faults: seq<AttemptFaults>)
    requires k < MaxAttempts
    ensures var a := AttemptOf(t, row, ds, cutoff, cfg, enabled, FaultsAt(faults, k));
      var p := RetryFrom(k, t, row, ds, cutoff, cfg, enabled, faults);
      if a.thrown.Some? && Retryable(a.thrown.value) && k + 1 < MaxAttempts then
        var rest := RetryFrom(k + 1, Committed(t, a), a.contract, ds, cutoff, cfg, enabled, faults);
        p == Processed(rest.tables, rest.contract, a.calls + rest.calls, rest.thrown, rest.attempts)
      else
        p == Processed(Committed(t, a), a.contract, a.calls, a.thrown, k + 1)
  {
  }

  /** One attempt: evaluate, grant when both records are present, record. */
  method ProcessContractAttempt(cutoff: int, contract: DynDiscContract, ds: seq<AssignDto>, cfg: Snapshot, enabled: bool,
                                af: AttemptFaults, db: Database, billing: Billing) returns (thrown: Option<Fault>)
    modifies contract, db, billing
    ensures var a := AttemptOf(old(db.tables), old(contract.Row()), ds, cutoff, cfg, enabled, af);
      && db.tables == a.tables && contract.Row() == a.contract
      && billing.calls == old(billing.calls) + a.calls && thrown == a.thrown
  {
    var result := EvaluateDiscounts(contract, ds, cutoff, cfg);
    if result.grant != null && result.eval.Some? {
      thrown := GrantDiscount(result.eval.value, result.grant, enabled, af.offerCall, af.aloCall, billing);
      if thrown.Some? {
        return;
      }
    }
    thrown := RecordDiscountLifecycle(result, cutoff, af.writes, db);
  }

  /** One attempt in its own transaction: an attempt ending in a fault other than an SQL one is rolled back. */
  method TransactionalAttempt(cutoff: int, contract: DynDiscContract, ds: seq<AssignDto>, cfg: Snapshot, enabled: bool,
                              af: AttemptFaults, db: Database, billing: Billing) returns (thrown: Option<Fault>)
    modifies contract, db, billing
    ensures var a := AttemptOf(old(db.tables), old(contract.Row()), ds, cutoff, cfg, enabled, af);
      && db.tables == Committed(old(db.tables), a) && contract.Row() == a.contract
      && billing.calls == old(billing.calls) + a.calls && thrown == a.thrown
  {
    var before := db.tables;
    thrown := ProcessContractAttempt(cutoff, contract, ds, cfg, enabled, af, db, billing);
    if thrown.Some? && !thrown.value.SqlFault? {
      db.tables := before;
    }
  }

  /** The retry proxy: attempt k, then the next one while the fault is retryable and attempts remain. */
  method RetryContract(k: nat, cutoff: int, contract: DynDiscContract, ds: seq<AssignDto>, cfg: Snapshot, enabled: bool,
                       faults: seq<AttemptFaults>, db: Database, billing: Billing)
    returns (thrown: Option<Fault>, attempts: nat)
    requires k < MaxAttempts
    modifies contract, db, billing
    ensures var p := RetryFrom(k, old(db.tables), old(contract.Row()), ds, cutoff, cfg, enabled, faults);
      && db.tables == p.tables && contract.Row() == p.contract
      && billing.calls == old(billing.calls) + p.calls
      && thrown == p.thrown && attempts == p.attempts
    decreases MaxAttempts - k
  {
    ghost var t := db.tables;
    ghost var row := contract.Row();
    RetryStep(k, t, row, ds, cutoff, cfg, enabled, faults);
    thrown := TransactionalAttempt(cutoff, contract, ds, cfg, enabled, FaultsAt(faults, k), db, billing);
    ghost var a := AttemptOf(t, row, ds, cutoff, cfg, enabled, FaultsAt(faults, k));
    if thrown.Some? && Retryable(thrown.value) && k + 1 < MaxAttempts {
      ghost var rest := RetryFrom(k + 1, db.tables, contract.Row(), ds, cutoff, cfg, enabled, faults);
      thrown, attempts := RetryContract(k + 1, cutoff, contract, ds, cfg, enabled, faults, db, billing);
      Seqs.AppendAssoc(old(billing.calls), a.calls, rest.calls);
    } else {
      attempts := k + 1;
    }
  }

  /** processContract under its retry policy. */
  method ProcessContract(request: RequestRow, contract: DynDiscContract, ds: seq<AssignDto>, cfg: Snapshot, enabled: bool,
                         faults: seq<AttemptFaults>, db: Database, billing: Billing)
    returns (thrown: Option<Fault>, attempts: nat)
    modifies contract, db, billing
    ensures var p := ProcessContractOf(old(db.tables), old(contract.Row()), request, ds, cfg, enabled, faults);
      && db.tables == p.tables && contract.Row() == p.contract
      && billing.calls == old(billing.calls) + p.calls
      && thrown == p.thrown && attempts == p.attempts
  {
    thrown, attempts := RetryContract(0, request.billPeriodEndDate, contract, ds, cfg, enabled, faults, db, billing);
  }
}
