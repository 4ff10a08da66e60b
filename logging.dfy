// Recording: derive the contract's final status and remark from the grant's
// flags, then save the contract, the evaluation record, the grant record and
// the advanced assignment, in that order, the first failing write ending it.
module DiscountLogging {
  import opened Wrappers
  import opened Entities
  import opened Store
  import opened StatusGuards
  import opened DiscountGranting
  import opened DiscountEvaluation

  /** An adjustment failed when it was not created although its amount is non-zero. */
  predicate OfferFailed(g: GrantRow)
  {
    !g.offerOccCreated && g.figures.offerDiscAmount != 0
  }

  predicate AloFailed(g: GrantRow)
  {
    !g.aloOccCreated && g.figures.aloDiscAmount != 0
  }

  function LoggedStatus(g: GrantRow): string
  {
    if OfferFailed(g) || AloFailed(g) then "F" else "P"
  }

  function GrantedOf(g: GrantRow): GrantedOccs
  {
    if g.offerOccCreated && g.aloOccCreated then BothGranted
    else if g.offerOccCreated then OfferOnlyGranted
    else if g.aloOccCreated then AloOnlyGranted
    else NoneGranted
  }

  function LoggedRemark(g: GrantRow): Remark
  {
    if LoggedStatus(g) == "P" then Applied(g.figures.assignId, GrantedOf(g))
    else FailedDueTo(g.figures.assignId, OfferFailed(g), AloFailed(g))
  }

  /** The contract as recording leaves it: with a grant, its status and remark; without, unchanged. */
  function LoggedContract(row: ContractRow, grant: Option<GrantRow>): ContractRow
  {
    match grant
    case Some(g) => row.(status := Some(LoggedStatus(g)), remark := Some(LoggedRemark(g)))
    case None => row
  }

  /** The assignment after an application: applied at the cutoff, its count advanced, expired on the last application. */
  function AppliedAssign(a: Assign, cutoff: int, f: GrantFigures): Assign
  {
    a.(lastAppliedDate := Some(cutoff),
       applyCount := Some(f.currentApplyCount),
       expireDate := if f.lastApply then Some(cutoff) else a.expireDate)
  }

  /** How each of the four saves ends. */
  datatype WriteFaults = WriteFaults(contractSave: CallOutcome, evalSave: CallOutcome, grantSave: CallOutcome, assignSave: CallOutcome)

  /** Saving a contract runs the entity's status guard first; a rejected status raises. */
  function SaveContract(t: Tables, row: ContractRow, outcome: CallOutcome): Result<Tables, Fault>
  {
    if GuardContractStatus(row.status) != Accepted then Err(OtherFault)
    else match outcome
      case Raised(f) => Err(f)
      case Returned => Ok(t.(contracts := t.contracts[row.key := row]))
  }

  function SaveEval(t: Tables, e: EvalHistory, outcome: CallOutcome): Result<Tables, Fault>
  {
    match outcome
    case Raised(f) => Err(f)
    case Returned => Ok(t.(evals := t.evals[HistoryKey(e.requestId, e.assignId) := e]))
  }

  function SaveGrant(t: Tables, g: GrantRow, outcome: CallOutcome): Result<Tables, Fault>
  {
    match outcome
    case Raised(f) => Err(f)
    case Returned => Ok(t.(grants := t.grants[HistoryKey(g.figures.requestId, g.figures.assignId) := g]))
  }

  /** A missing assignment raises EntityNotFoundException, a persistence fault. */
  function UpdateAssign(t: Tables, f: GrantFigures, cutoff: int, outcome: CallOutcome): Result<Tables, Fault>
  {
    if f.assignId !in t.assigns then Err(PersistenceFault)
    else match outcome
      case Raised(x) => Err(x)
      case Returned => Ok(t.(assigns := t.assigns[f.assignId := AppliedAssign(t.assigns[f.assignId], cutoff, f)]))
  }

  /** The tables and contract after recording, and the fault it ended with. */
  datatype Recorded = Recorded(tables: Tables, contract: ContractRow, thrown: Option<Fault>)

  /** recordDiscountLifecycle for a present contract. */
  function RecordOf(t: Tables, row: ContractRow, eval: Option<EvalHistory>, grant: Option<GrantRow>,
                    cutoff: int, w: WriteFaults): Recorded
  {
    var row1 := LoggedContract(row, grant);
    match SaveContract(t, row1, w.contractSave)
    case Err(f) => Recorded(t, row1, Some(f))
    case Ok(t1) =>
      var r2 := if eval.Some? then SaveEval(t1, eval.value, w.evalSave) else Ok(t1);
      if r2.Err? then Recorded(t1, row1, Some(r2.error))
      else if grant.None? then Recorded(r2.value, row1, None)
      else match SaveGrant(r2.value, grant.value, w.grantSave)
        case Err(f) => Recorded(r2.value, row1, Some(f))
        case Ok(t3) =>
          match UpdateAssign(t3, grant.value.figures, cutoff, w.assignSave)
          case Err(f) => Recorded(t3, row1, Some(f))
          case Ok(t4) => Recorded(t4, row1, None)
  }

  // ---- status and remark ----

  /** The status is F exactly when an adjustment with a non-zero amount was not created, else P. */
  lemma StatusRule(g: GrantRow)
    ensures LoggedStatus(g) in {"P", "F"}
    ensures LoggedStatus(g) == "F" <==>
              ((!g.offerOccCreated && g.figures.offerDiscAmount != 0) || (!g.aloOccCreated && g.figures.aloDiscAmount != 0))
  {
  }

  /**
   * A P remark names the created adjustments; an F remark names the failed
   * ones, at least one of them.
   */
  lemma RemarkRule(g: GrantRow)
    ensures LoggedRemark(g).Applied? <==> LoggedStatus(g) == "P"
    ensures LoggedRemark(g).Applied? ==>
      && LoggedRemark(g).assignId == g.figures.assignId
      && (LoggedRemark(g).granted == BothGranted <==> g.offerOccCreated && g.aloOccCreated)
      && (LoggedRemark(g).granted == OfferOnlyGranted <==> g.offerOccCreated && !g.aloOccCreated)
      && (LoggedRemark(g).granted == AloOnlyGranted <==> !g.offerOccCreated && g.aloOccCreated)
      && (LoggedRemark(g).granted == NoneGranted <==> !g.offerOccCreated && !g.aloOccCreated)
    ensures LoggedRemark(g).FailedDueTo? ==>
      && LoggedRemark(g).assignId == g.figures.assignId
      && LoggedRemark(g).offerFailed == OfferFailed(g)
      && LoggedRemark(g).aloFailed == AloFailed(g)
      && (OfferFailed(g) || AloFailed(g))
  {
  }

  /** Whatever recording writes onto a contract passes the contract's status guard. */
  lemma LoggedStatusPassesGuard(row: ContractRow, grant: Option<GrantRow>)
    requires grant.Some? || (row.status.Some? && row.status.value in {"S", "F"})
    ensures GuardContractStatus(LoggedContract(row, grant).status) == Accepted
  {
    ContractGuardAccepts(LoggedContract(row, grant).status);
  }

  /**
   * A negative amount is not attempted by granting, yet recording counts it as
   * a failure: the contract ends F.
   */
  lemma NegativeOfferAmountFails(e: EvalHistory, row: GrantRow, enabled: bool, oo: CallOutcome, ao: CallOutcome)
    requires row.figures.offerDiscAmount < 0
    ensures var g := GrantingOf(e, row, enabled, oo, ao);
      && |g.calls| <= 1
      && (forall i :: 0 <= i < |g.calls| ==> g.calls[i] == OccCallFor(e, row.figures.aloDiscAmount, AloType))
    ensures var g := GrantingOf(e, row, enabled, oo, ao);
      LoggedStatus(g.row) == "F" && LoggedRemark(g.row) == FailedDueTo(row.figures.assignId, true, AloFailed(g.row))
  {
  }

  /**
   * When granting is enabled, every call returns and the ALO amount is zero
   * unless its indicator is set, a grant of non-negative amounts ends P.
   */
  lemma AllCallsReturnedApplies(e: EvalHistory, row: GrantRow)
    requires row.figures.offerDiscAmount >= 0 && row.figures.aloDiscAmount >= 0
    requires row.figures.aloDiscInd || row.figures.aloDiscAmount == 0
    ensures LoggedStatus(GrantingOf(e, row, true, Returned, Returned).row) == "P"
  {
  }

  // ---- the write sequence ----

  /** Without a grant the contract keeps its evaluation status and remark, and nothing but the contract and eval rows is written. */
  lemma NoGrantKeepsEvaluationOutcome(t: Tables, row: ContractRow, eval: Option<EvalHistory>, cutoff: int, w: WriteFaults)
    ensures var r := RecordOf(t, row, eval, None, cutoff, w);
      && r.contract == row
      && r.tables.grants == t.grants && r.tables.assigns == t.assigns
  {
    assert LoggedContract(row, None) == row;
    var saved := SaveContract(t, row, w.contractSave);
    if saved.Ok? {
      assert saved.value.grants == t.grants && saved.value.assigns == t.assigns;
    }
  }

  /** A failing contract save writes nothing; a failing eval save leaves only the contract written. */
  lemma EarlyFailuresSkipLaterWrites(t: Tables, row: ContractRow, eval: Option<EvalHistory>, grant: Option<GrantRow>,
                                     cutoff: int, w: WriteFaults)
    ensures w.contractSave.Raised? ==>
      var c := LoggedContract(row, grant);
      var f := if GuardContractStatus(c.status) != Accepted then OtherFault else w.contractSave.fault;
      RecordOf(t, row, eval, grant, cutoff, w) == Recorded(t, c, Some(f))
    ensures w.contractSave.Returned? && eval.Some? && w.evalSave.Raised?
            && GuardContractStatus(LoggedContract(row, grant).status) == Accepted ==>
      var c := LoggedContract(row, grant);
      RecordOf(t, row, eval, grant, cutoff, w) == Recorded(t.(contracts := t.contracts[c.key := c]), c, Some(w.evalSave.fault))
  {
  }

  /** A missing assignment raises a persistence fault after the grant row is written, and no assignment changes. */
  lemma MissingAssignRaises(t: Tables, row: ContractRow, eval: Option<EvalHistory>, g: GrantRow, cutoff: int, w: WriteFaults)
    requires w.contractSave == Returned && w.evalSave == Returned && w.grantSave == Returned
    requires g.figures.assignId !in t.assigns
    ensures var r := RecordOf(t, row, eval, Some(g), cutoff, w);
      && r.thrown == Some(PersistenceFault)
      && r.tables.assigns == t.assigns
      && r.tables.grants == t.grants[HistoryKey(g.figures.requestId, g.figures.assignId) := g]
  {
    LoggedStatusPassesGuard(row, Some(g));
  }

  /**
   * When every save returns, all four rows are written: the contract, the eval
   * record, the grant record, and the assignment, which alone changes in its
   * applied date, its count and, on the last application, its expiry.
   */
  lemma SuccessfulRecording(t: Tables, row: ContractRow, e: EvalHistory, g: GrantRow, cutoff: int)
    requires g.figures.assignId in t.assigns
    ensures
      var r := RecordOf(t, row, Some(e), Some(g), cutoff, WriteFaults(Returned, Returned, Returned, Returned));
      var a := t.assigns[g.figures.assignId];
      var a' := r.tables.assigns[g.figures.assignId];
      && r.thrown == None
      && r.tables.contracts == t.contracts[row.key := LoggedContract(row, Some(g))]
      && r.tables.evals == t.evals[HistoryKey(e.requestId, e.assignId) := e]
      && r.tables.grants == t.grants[HistoryKey(g.figures.requestId, g.figures.assignId) := g]
      && r.tables.assigns.Keys == t.assigns.Keys
      && (forall id :: id in t.assigns && id != g.figures.assignId ==> r.tables.assigns[id] == t.assigns[id])
      && a'.lastAppliedDate == Some(cutoff) && a'.applyCount == Some(g.figures.currentApplyCount)
      && a'.expireDate == (if g.figures.lastApply then Some(cutoff) else a.expireDate)
      && a' == a.(lastAppliedDate := a'.lastAppliedDate, applyCount := a'.applyCount, expireDate := a'.expireDate)
      && r.tables.requests == t.requests && r.tables.packages == t.packages
  {
    LoggedStatusPassesGuard(row, Some(g));
  }

  /** The tables recording never writes: everything but contracts, evals, grants and assignments. */
  predicate SameOutsidePipeline(t: Tables, t': Tables)
  {
    && t'.requests == t.requests && t'.packages == t.packages && t'.statistics == t.statistics
    && t'.assignStates == t.assignStates && t'.queue == t.queue && t'.queueHistory == t.queueHistory
    && t'.process == t.process
  }

  /** Recording ends in an SQL fault only when one of its four saves raised it. */
  lemma SqlFaultComesFromASave(t: Tables, row: ContractRow, eval: Option<EvalHistory>, grant: Option<GrantRow>,
                               cutoff: int, w: WriteFaults)
    ensures RecordOf(t, row, eval, grant, cutoff, w).thrown == Some(SqlFault) ==>
      || w.contractSave == Raised(SqlFault) || w.evalSave == Raised(SqlFault)
      || w.grantSave == Raised(SqlFault) || w.assignSave == Raised(SqlFault)
  {
  }

  /** Recording writes only the contract, eval, grant and assignment tables, and keeps the contract's key. */
  lemma RecordFrame(t: Tables, row: ContractRow, eval: Option<EvalHistory>, grant: Option<GrantRow>, cutoff: int, w: WriteFaults)
    ensures var r := RecordOf(t, row, eval, grant, cutoff, w);
      SameOutsidePipeline(t, r.tables) && r.contract.key == row.key
  {
    var row1 := LoggedContract(row, grant);
    var s1 := SaveContract(t, row1, w.contractSave);
    if s1.Ok? {
      var t1 := s1.value;
      assert SameOutsidePipeline(t, t1);
      var r2 := if eval.Some? then SaveEval(t1, eval.value, w.evalSave) else Ok(t1);
      if r2.Ok? {
        assert SameOutsidePipeline(t, r2.value);
        if grant.Some? {
          var s3 := SaveGrant(r2.value, grant.value, w.grantSave);
          if s3.Ok? {
            assert SameOutsidePipeline(t, s3.value);
            var s4 := UpdateAssign(s3.value, grant.value.figures, cutoff, w.assignSave);
            if s4.Ok? {
              assert SameOutsidePipeline(t, s4.value);
            }
          }
        }
      }
    }
  }

  // ---- the service, on the contract object and the database ----

  /** recordDiscountLifecycle. */
  method RecordDiscountLifecycle(result: GrantEvalDto, cutoff: int, w: WriteFaults, db: Database)
    returns (thrown: Option<Fault>)
    modifies result.contract, db
    ensures result.contract == null ==> db.tables == old(db.tables) && thrown == None
    ensures result.contract != null ==>
      var grant := if result.grant == null then None else Some(result.grant.Row());
      var r := RecordOf(old(db.tables), old(result.contract.Row()), result.eval, grant, cutoff, w);
      && db.tables == r.tables && result.contract.Row() == r.contract && thrown == r.thrown
  {
    var contract := result.contract;
    if contract == null {
      return None;
    }
    var grant := if result.grant == null then None else Some(result.grant.Row());
    if grant.Some? {
      var g := grant.value;
      contract.status := Some(LoggedStatus(g));
      contract.remark := Some(LoggedRemark(g));
    }
    var saved := SaveContract(db.tables, contract.Row(), w.contractSave);
    if saved.Err? {
      return Some(saved.error);
    }
    db.tables := saved.value;
    if result.eval.Some? {
      var e := SaveEval(db.tables, result.eval.value, w.evalSave);
      if e.Err? {
        return Some(e.error);
      }
      db.tables := e.value;
    }
    if grant.Some? {
      var gs := SaveGrant(db.tables, grant.value, w.grantSave);
      if gs.Err? {
        return Some(gs.error);
      }
      db.tables := gs.value;
      var au := UpdateAssign(db.tables, grant.value.figures, cutoff, w.assignSave);
      if au.Err? {
        return Some(au.error);
      }
      db.tables := au.value;
    }
    thrown := None;
  }
}
