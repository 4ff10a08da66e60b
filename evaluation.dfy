// The evaluation of one contract: validate every candidate, collect the
// rejection reasons, choose the latest valid candidate, compute its grant and
// build its evaluation record.  The outcome is written onto the contract.
module DiscountEvaluation {
  import opened Wrappers
  import opened Entities
  import opened Configurations
  import opened DiscountValidator
  import opened DiscountCalculator
  import Seqs

  /** DynDiscGrantEvalDTO: the contract with the records evaluation produced for it. */
  datatype GrantEvalDto = GrantEvalDto(contract: DynDiscContract?, eval: Option<EvalHistory>, grant: GrantHistory?)

  predicate IsValid(d: AssignDto, cutoff: int, cfg: Snapshot)
  {
    Validate(d, cutoff, cfg) == Valid
  }

  /** The valid candidates, in input order (partitioningBy's true list). */
  function ValidCandidates(ds: seq<AssignDto>, cutoff: int, cfg: Snapshot): seq<AssignDto>
  {
    Seqs.Filter(ds, d => IsValid(d, cutoff, cfg))
  }

  /** The discountErrors map: each invalid candidate's reason put under its id, later puts overwriting. */
  function RejectionMap(ds: seq<AssignDto>, cutoff: int, cfg: Snapshot): map<int, Rejection>
  {
    if ds == [] then map[]
    else
      var m := RejectionMap(ds[..|ds| - 1], cutoff, cfg);
      var d := ds[|ds| - 1];
      match Validate(d, cutoff, cfg)
      case Invalid(r) => m[d.assignId := r]
      case Valid => m
  }

  /** Position i holds the last invalid candidate with this id. */
  predicate LastInvalidWith(ds: seq<AssignDto>, cutoff: int, cfg: Snapshot, id: int, i: int)
  {
    && 0 <= i < |ds| && ds[i].assignId == id && Validate(ds[i], cutoff, cfg).Invalid?
    && forall j :: i < j < |ds| && ds[j].assignId == id ==> Validate(ds[j], cutoff, cfg) == Valid
  }

  /**
   * The map has an entry for exactly the ids of invalid candidates, so the
   * remark's count is the number of distinct invalid ids.
   */
  lemma {:induction false} RejectionMapKeys(ds: seq<AssignDto>, cutoff: int, cfg: Snapshot)
    ensures forall id :: id in RejectionMap(ds, cutoff, cfg) <==>
      exists i :: 0 <= i < |ds| && ds[i].assignId == id && Validate(ds[i], cutoff, cfg).Invalid?
  {
    if ds != [] {
      var prefix := ds[..|ds| - 1];
      RejectionMapKeys(prefix, cutoff, cfg);
      assert forall i :: 0 <= i < |prefix| ==> prefix[i] == ds[i];
    }
  }

  /** Each entry is the reason of the last invalid candidate with that id. */
  lemma {:induction false} RejectionMapValue(ds: seq<AssignDto>, cutoff: int, cfg: Snapshot, id: int)
    requires id in RejectionMap(ds, cutoff, cfg)
    ensures exists i ::
      LastInvalidWith(ds, cutoff, cfg, id, i) && Validate(ds[i], cutoff, cfg) == Invalid(RejectionMap(ds, cutoff, cfg)[id])
  {
    var last := |ds| - 1;
    var m := RejectionMap(ds, cutoff, cfg);
    if ds[last].assignId == id && Validate(ds[last], cutoff, cfg).Invalid? {
      assert LastInvalidWith(ds, cutoff, cfg, id, last);
    } else {
      var prefix := ds[..last];
      RejectionMapValue(prefix, cutoff, cfg, id);
      var i :| LastInvalidWith(prefix, cutoff, cfg, id, i)
        && Validate(prefix[i], cutoff, cfg) == Invalid(RejectionMap(prefix, cutoff, cfg)[id]);
      assert forall j :: 0 <= j < |prefix| ==> prefix[j] == ds[j];
      assert LastInvalidWith(ds, cutoff, cfg, id, i);
    }
  }

  /**
   * partitioningBy with the error map filled on the side: one pass that
   * validates each candidate once.
   */
  method Partition(ds: seq<AssignDto>, cutoff: int, cfg: Snapshot)
    returns (valid: seq<AssignDto>, errors: map<int, Rejection>)
    ensures valid == ValidCandidates(ds, cutoff, cfg)
    ensures errors == RejectionMap(ds, cutoff, cfg)
  {
    valid, errors := [], map[];
    var i := 0;
    while i < |ds|
      invariant 0 <= i <= |ds|
      invariant valid == ValidCandidates(ds[..i], cutoff, cfg)
      invariant errors == RejectionMap(ds[..i], cutoff, cfg)
    {
      var d := ds[i];
      PartitionStep(ds, i, cutoff, cfg);
      var verdict := Validate(d, cutoff, cfg);
      if verdict.Invalid? {
        errors := errors[d.assignId := verdict.reason];
      } else {
        valid := valid + [d];
      }
      i := i + 1;
    }
    assert ds[..i] == ds;
  }

  /** Extending the scanned prefix by one candidate extends the valid list or the error map by it. */
  lemma PartitionStep(ds: seq<AssignDto>, i: int, cutoff: int, cfg: Snapshot)
    requires 0 <= i < |ds|
    ensures ValidCandidates(ds[..i + 1], cutoff, cfg) ==
      ValidCandidates(ds[..i], cutoff, cfg) + (if IsValid(ds[i], cutoff, cfg) then [ds[i]] else [])
    ensures RejectionMap(ds[..i + 1], cutoff, cfg) ==
      match Validate(ds[i], cutoff, cfg)
      case Invalid(r) => RejectionMap(ds[..i], cutoff, cfg)[ds[i].assignId := r]
      case Valid => RejectionMap(ds[..i], cutoff, cfg)
  {
    assert ds[..i + 1] == ds[..i] + [ds[i]];
    assert ds[..i + 1][..i] == ds[..i];
    Seqs.FilterSnoc(ds[..i], ds[i], d => IsValid(d, cutoff, cfg));
  }

  /** The comparator of the selection: assignDate, then assignId. */
  predicate Later(a: AssignDto, b: AssignDto)
  {
    a.assignDate > b.assignDate || (a.assignDate == b.assignDate && a.assignId > b.assignId)
  }

  /**
   * Stream.max with that comparator: the position of a greatest candidate,
   * the first one among equals, since every earlier candidate is strictly smaller.
   */
  function LatestIndex(vs: seq<AssignDto>): (k: nat)
    requires |vs| > 0
    ensures k < |vs|
    ensures forall j :: 0 <= j < |vs| ==> !Later(vs[j], vs[k])
    ensures forall j :: 0 <= j < k ==> Later(vs[k], vs[j])
  {
    if |vs| == 1 then 0
    else
      var p := LatestIndex(vs[..|vs| - 1]);
      if Later(vs[|vs| - 1], vs[p]) then |vs| - 1 else p
  }

  /** buildEvalHistory: the eval record, or None where a null field throws. */
  function EvalHistoryFor(latest: AssignDto, g: GrantFigures, cutoff: int, cfg: Snapshot): Option<EvalHistory>
  {
    if || latest.discId !in cfg.confs
       || latest.offerValidFromDate.None? || latest.offerPrice.None?
       || latest.aloSnCode.None? || latest.aloValidFromDate.None? || latest.aloPrice.None?
    then None
    else
      var conf := cfg.confs[latest.discId];
      Some(EvalHistory(
        requestId := g.requestId,
        assignId := g.assignId,
        customerId := latest.customerId,
        coId := latest.coId,
        billPeriodEndDate := cutoff,
        lbcDate := latest.lbcDate,
        prgCode := latest.prgcode,
        tmCode := latest.tmCode,
        discSncode := latest.discSncode,
        discId := latest.discId,
        occSncode := conf.occSncode,
        occGlcode := conf.occGlcode,
        occRemark := conf.occRemark,
        offerSncode := latest.offerSnCode,
        offerValidFromDate := latest.offerValidFromDate.value,
        offerStatus := [latest.offerStatus],
        offerPrice := latest.offerPrice.value,
        aloSncode := latest.aloSnCode.value,
        aloValidFromDate := latest.aloValidFromDate.value,
        aloStatus := [latest.aloStatus],
        aloPrice := latest.aloPrice.value))
  }

  /** What evaluateDiscounts leaves on the contract and returns with it. */
  datatype Evaluation = Evaluation(
    status: Option<string>,
    remark: Option<Remark>,
    eval: Option<EvalHistory>,
    grant: Option<GrantFigures>)

  function Skipped(remark: Remark): Evaluation
  {
    Evaluation(Some("S"), Some(remark), None, None)
  }

  function Failed(coId: int): Evaluation
  {
    Evaluation(Some("F"), Some(EvaluationError(coId)), None, None)
  }

  /** evaluateDiscounts as a value. */
  function EvaluationOf(requestId: int, coId: int, ds: seq<AssignDto>, cutoff: int, cfg: Snapshot): Evaluation
  {
    if ds == [] then Skipped(NoDiscountsProvided)
    else
      var valid := ValidCandidates(ds, cutoff, cfg);
      if valid == [] then Skipped(NoValidDiscount(RejectionMap(ds, cutoff, cfg)))
      else
        var latest := valid[LatestIndex(valid)];
        match GrantFor(requestId, latest, cfg)
        case Err(_) => Failed(coId)
        case Ok(g) =>
          match EvalHistoryFor(latest, g, cutoff, cfg)
          case None => Failed(coId)
          case Some(e) => Evaluation(None, None, Some(e), Some(g))
  }

  /**
   * The three outcomes: skipped (S) with no records, failed (F) with no
   * records, or succeeded with both records and the status and remark left
   * null for recording to fill in.
   */
  lemma EvaluationShapes(requestId: int, coId: int, ds: seq<AssignDto>, cutoff: int, cfg: Snapshot)
    ensures
      var e := EvaluationOf(requestId, coId, ds, cutoff, cfg);
      && (e.eval.Some? <==> e.grant.Some?)
      && (e.grant.None? ==> e.status.Some? && e.status.value in {"S", "F"})
      && (e.grant.Some? ==> e.status.None? && e.remark.None?)
      && (e.status == Some("F") ==> e.remark == Some(EvaluationError(coId)))
  {
  }

  /** An empty candidate list is skipped as "No discounts provided". */
  lemma NoCandidatesSkipped(requestId: int, coId: int, cutoff: int, cfg: Snapshot)
    ensures EvaluationOf(requestId, coId, [], cutoff, cfg) == Skipped(NoDiscountsProvided)
  {
  }

  /**
   * Candidates that all fail validation are skipped, the remark carrying one
   * reason per distinct invalid assignment id.
   */
  lemma AllInvalidSkipped(requestId: int, coId: int, ds: seq<AssignDto>, cutoff: int, cfg: Snapshot)
    requires ds != []
    requires forall i :: 0 <= i < |ds| ==> Validate(ds[i], cutoff, cfg).Invalid?
    ensures EvaluationOf(requestId, coId, ds, cutoff, cfg) == Skipped(NoValidDiscount(RejectionMap(ds, cutoff, cfg)))
    ensures RejectionMap(ds, cutoff, cfg).Keys == set i | 0 <= i < |ds| :: ds[i].assignId
  {
    Seqs.FilterEmpty(ds, d => IsValid(d, cutoff, cfg));
    RejectionMapKeys(ds, cutoff, cfg);
  }

  /**
   * On success the grant belongs to a valid candidate that no valid candidate
   * is later than, the request of the contract, and the eval record copies the
   * grant's ids, the cutoff and the conf's adjustment settings.
   */
  lemma SuccessRecords(requestId: int, coId: int, ds: seq<AssignDto>, cutoff: int, cfg: Snapshot)
    requires EvaluationOf(requestId, coId, ds, cutoff, cfg).grant.Some?
    ensures
      var e := EvaluationOf(requestId, coId, ds, cutoff, cfg);
      var g := e.grant.value;
      var ev := e.eval.value;
      exists i :: 0 <= i < |ds| && ds[i].assignId == g.assignId && IsValid(ds[i], cutoff, cfg)
        && (forall j :: 0 <= j < |ds| && IsValid(ds[j], cutoff, cfg) ==> !Later(ds[j], ds[i]))
        && g.requestId == requestId
        && ev.requestId == g.requestId && ev.assignId == g.assignId
        && ev.billPeriodEndDate == cutoff && ev.coId == ds[i].coId
        && ev.occSncode == cfg.confs[ds[i].discId].occSncode
        && ev.occGlcode == cfg.confs[ds[i].discId].occGlcode
        && ev.occRemark == cfg.confs[ds[i].discId].occRemark
  {
    var valid := ValidCandidates(ds, cutoff, cfg);
    var k := LatestIndex(valid);
    var latest := valid[k];
    Seqs.FilterMembers(ds, d => IsValid(d, cutoff, cfg), latest);
    var i :| 0 <= i < |ds| && ds[i] == latest;
    forall j | 0 <= j < |ds| && IsValid(ds[j], cutoff, cfg) ensures !Later(ds[j], ds[i]) {
      Seqs.FilterMembers(ds, d => IsValid(d, cutoff, cfg), ds[j]);
      var j' :| 0 <= j' < |valid| && valid[j'] == ds[j];
    }
    GrantIdentity(requestId, latest, cfg);
  }

  /** Any failure after selection (missing offer, null field) is reported as an evaluation error. */
  lemma FailureAfterSelection(requestId: int, coId: int, ds: seq<AssignDto>, cutoff: int, cfg: Snapshot)
    requires ValidCandidates(ds, cutoff, cfg) != []
    requires
      var valid := ValidCandidates(ds, cutoff, cfg);
      GrantFor(requestId, valid[LatestIndex(valid)], cfg).Err?
    ensures EvaluationOf(requestId, coId, ds, cutoff, cfg) == Failed(coId)
  {
    assert ds != [];
  }

  /** Of two valid candidates the later-dated one is chosen, whatever their order. */
  lemma LaterDateWins(requestId: int, coId: int, a: AssignDto, b: AssignDto, cutoff: int, cfg: Snapshot)
    requires IsValid(a, cutoff, cfg) && IsValid(b, cutoff, cfg)
    requires a.assignDate < b.assignDate
    requires EvaluationOf(requestId, coId, [a, b], cutoff, cfg).grant.Some?
    ensures EvaluationOf(requestId, coId, [a, b], cutoff, cfg).grant.value.assignId == b.assignId
  {
    SuccessRecords(requestId, coId, [a, b], cutoff, cfg);
    assert Later([a, b][1], [a, b][0]);
  }

  /** buildResult: the status and remark are written onto the contract. */
  method BuildResult(contract: DynDiscContract, eval: Option<EvalHistory>, grant: GrantHistory?,
                     status: Option<string>, remark: Option<Remark>) returns (r: GrantEvalDto)
    modifies contract
    ensures contract.status == status && contract.remark == remark
    ensures r == GrantEvalDto(contract, eval, grant)
  {
    contract.status := status;
    contract.remark := remark;
    r := GrantEvalDto(contract, eval, grant);
  }

  /** evaluateDiscounts. */
  method EvaluateDiscounts(contract: DynDiscContract, ds: seq<AssignDto>, cutoff: int, cfg: Snapshot)
    returns (r: GrantEvalDto)
    modifies contract
    ensures
      var e := EvaluationOf(contract.key.requestId, contract.key.coId, ds, cutoff, cfg);
      && r.contract == contract
      && contract.status == e.status && contract.remark == e.remark
      && r.eval == e.eval
      && (e.grant.None? ==> r.grant == null)
      && (e.grant.Some? ==> r.grant != null && fresh(r.grant) && r.grant.figures == e.grant.value
                            && !r.grant.offerOccCreated && !r.grant.aloOccCreated)
  {
    if |ds| == 0 {
      r := BuildResult(contract, None, null, Some("S"), Some(NoDiscountsProvided));
      return;
    }
    var valid, errors := Partition(ds, cutoff, cfg);
    if |valid| == 0 {
      r := BuildResult(contract, None, null, Some("S"), Some(NoValidDiscount(errors)));
      return;
    }
    var latest := valid[LatestIndex(valid)];
    var computed := Compute(contract.key.requestId, latest, cfg);
    if computed.Err? {
      r := BuildResult(contract, None, null, Some("F"), Some(EvaluationError(contract.key.coId)));
      return;
    }
    var grant := computed.value;
    var eval := EvalHistoryFor(latest, grant.figures, cutoff, cfg);
    if eval.None? {
      r := BuildResult(contract, None, null, Some("F"), Some(EvaluationError(contract.key.coId)));
      return;
    }
    r := BuildResult(contract, eval, grant, None, None);
  }
}
