// The amount calculation for the chosen candidate: which offer applies, which
// month of the discount this is, the free / special / default amounts, capping
// against the live prices, and whether this is the last application.
module DiscountCalculator {
  import opened Wrappers
  import opened Entities
  import opened Configurations
  import opened DiscountValidator

  /** Integer.MAX_VALUE, the "no offer yet" priority. */
  const NoPriority: int := 0x7fff_ffff

  /** findOffer's priority of an offer: 1 exact, 2 any model, 3 any service, 4 wildcard; 0 when skipped. */
  function Priority(o: Offer, dto: AssignDto): (p: nat)
    ensures p <= 4
  {
    if !DateEligible(o, dto.assignDate) then 0
    else if o.tmcode == dto.tmCode && o.sncode == dto.offerSnCode then 1
    else if o.tmcode == -1 && o.sncode == dto.offerSnCode then 2
    else if o.sncode == -1 && o.tmcode == dto.tmCode then 3
    else if o.tmcode == -1 && o.sncode == -1 then 4
    else 0
  }

  function PriorityAt(offers: seq<Offer>, best: Option<nat>, dto: AssignDto): int
    requires best.Some? ==> best.value < |offers|
  {
    if best.None? then NoPriority else Priority(offers[best.value], dto)
  }

  /** The index findOffer ends with after scanning `offers` (strict `<`, so ties keep the earlier). */
  function BestIndex(offers: seq<Offer>, dto: AssignDto): (r: Option<nat>)
    ensures r.Some? ==> r.value < |offers|
  {
    if offers == [] then None
    else
      var prefix := offers[..|offers| - 1];
      var prev := BestIndex(prefix, dto);
      var p := Priority(offers[|offers| - 1], dto);
      if p != 0 && p < PriorityAt(prefix, prev, dto) then Some(|offers| - 1) else prev
  }

  /** The offer findOffer returns for a candidate. */
  function BestOffer(cfg: Snapshot, dto: AssignDto): Option<Offer>
  {
    var offers := OffersFor(cfg, dto.discId);
    match BestIndex(offers, dto)
    case None => None
    case Some(i) => Some(offers[i])
  }

  /**
   * The chosen offer is the first one of least non-zero priority: none is
   * chosen iff every offer is skipped; every usable offer has a priority at
   * least as high a number; every earlier offer is skipped or strictly worse.
   */
  lemma {:induction false} BestIndexIsFirstOfLeastPriority(offers: seq<Offer>, dto: AssignDto)
    ensures BestIndex(offers, dto).None? <==> forall k :: 0 <= k < |offers| ==> Priority(offers[k], dto) == 0
    ensures BestIndex(offers, dto).Some? ==>
      var b := BestIndex(offers, dto).value;
      && Priority(offers[b], dto) != 0
      && (forall k :: 0 <= k < |offers| && Priority(offers[k], dto) != 0 ==> Priority(offers[b], dto) <= Priority(offers[k], dto))
      && (forall k :: 0 <= k < b ==> Priority(offers[k], dto) == 0 || Priority(offers[b], dto) < Priority(offers[k], dto))
  {
    if offers != [] {
      var prefix := offers[..|offers| - 1];
      BestIndexIsFirstOfLeastPriority(prefix, dto);
      assert forall k :: 0 <= k < |prefix| ==> prefix[k] == offers[k];
    }
  }

  /** Skipping in findOffer is exactly failing the validator's pattern-and-date test. */
  lemma PriorityMatchesValidator(o: Offer, dto: AssignDto)
    ensures Priority(o, dto) != 0 <==> TmSnMatched(o, dto) && DateEligible(o, dto.assignDate)
  {
  }

  /** A candidate that passes the offer check always finds an offer, so the missing-offer error cannot follow it. */
  lemma EligibleCandidateFindsOffer(dto: AssignDto, cfg: Snapshot)
    requires OfferCheck(dto, cfg) == None
    ensures BestOffer(cfg, dto).Some?
  {
    OfferCheckMeaning(dto, cfg);
    var offers := OffersFor(cfg, dto.discId);
    var o :| o in offers && TmSnMatched(o, dto) && DateEligible(o, dto.assignDate);
    var i :| 0 <= i < |offers| && offers[i] == o;
    PriorityMatchesValidator(o, dto);
    BestIndexIsFirstOfLeastPriority(offers, dto);
  }

  /** findOffer: one pass over the discount's offers keeping the best so far. */
  method FindOffer(cfg: Snapshot, dto: AssignDto) returns (best: Option<Offer>)
    ensures best == BestOffer(cfg, dto)
    ensures best.None? <==> forall o :: o in OffersFor(cfg, dto.discId) ==> Priority(o, dto) == 0
  {
    var offers := OffersFor(cfg, dto.discId);
    var bestPriority := NoPriority;
    best := None;
    ghost var bestIndex: Option<nat> := None;
    var i := 0;
    while i < |offers|
      invariant 0 <= i <= |offers|
      invariant bestIndex == BestIndex(offers[..i], dto)
      invariant bestIndex.Some? ==> bestIndex.value < i
      invariant best == (if bestIndex.None? then None else Some(offers[bestIndex.value]))
      invariant bestPriority == PriorityAt(offers[..i], bestIndex, dto)
    {
      var o := offers[i];
      assert offers[..i + 1][..i] == offers[..i];
      if (o.eligStartDate.Some? && dto.assignDate < o.eligStartDate.value)
         || (o.eligEndDate.Some? && dto.assignDate > o.eligEndDate.value) {
        i := i + 1;
        continue;
      }
      var priority;
      if o.tmcode == dto.tmCode && o.sncode == dto.offerSnCode {
        priority := 1;
      } else if o.tmcode == -1 && o.sncode == dto.offerSnCode {
        priority := 2;
      } else if o.sncode == -1 && o.tmcode == dto.tmCode {
        priority := 3;
      } else if o.tmcode == -1 && o.sncode == -1 {
        priority := 4;
      } else {
        i := i + 1;
        continue;
      }
      if priority < bestPriority {
        bestPriority := priority;
        best := Some(o);
        bestIndex := Some(i);
      }
      i := i + 1;
    }
    assert offers[..i] == offers;
    BestIndexIsFirstOfLeastPriority(offers, dto);
  }

  // ---- The month number ----

  datatype ComputeError =
    | OfferMissing(discId: int)   // IllegalStateException("Offer missing for DiscId=...")
    | NullReference               // null-dereference exception on a missing conf or count

  /**
   * The month number as the calculator is written: the count is unboxed
   * before the null default is applied, so a missing count throws.
   */
  function MonthNoAsWritten(applyCount: Option<int>): Result<int, ComputeError>
  {
    match applyCount
    case None => Err(NullReference)
    case Some(n) => Ok(n + 1)
  }

  /** The month number as evidently intended: a missing count is zero applications. */
  function MonthNo(applyCount: Option<int>): int
  {
    applyCount.GetOr(0) + 1
  }

  /**
   * A candidate without an apply count passes the validator's limit test as
   * if it had been applied zero times, yet the calculator as written fails on
   * it; the intended month number is then 1.
   */
  lemma NullApplyCountAsWritten(dto: AssignDto, conf: DiscConf)
    requires dto.applyCount.None?
    requires dto.ovwApplyCount == Some(3)
    ensures UnderLimit(dto, conf)
    ensures MonthNoAsWritten(dto.applyCount) == Err(NullReference)
    ensures MonthNo(dto.applyCount) == 1
  {
  }

  /** Wherever the written version succeeds, the intended one agrees with it. */
  lemma MonthNoAgreesWhenCounted(applyCount: Option<int>)
    ensures MonthNoAsWritten(applyCount).Ok? <==> applyCount.Some?
    ensures MonthNoAsWritten(applyCount).Ok? ==> MonthNoAsWritten(applyCount).value == MonthNo(applyCount)
  {
  }

  // ---- Amounts ----

  /** The amounts before capping: free month, else special month, else the offer's defaults. */
  function RawAmounts(offer: Offer, isFree: bool, special: Option<SpecialMonth>, aloInd: bool,
                      baseOffer: int, baseAlo: int): (int, int)
  {
    if isFree then (baseOffer, if aloInd then baseAlo else 0)
    else if special.Some? then (special.value.offerDiscAmt, if aloInd then special.value.aloDiscAmt else 0)
    else (offer.offerDiscAmt, if aloInd then offer.aloDiscAmt else 0)
  }

  /** capAndLog: does the amount exceed the price? */
  function Exceeds(value: int, max: int): bool
  {
    value > max
  }

  /** compute: the grant figures for the chosen candidate, or the error it throws. */
  function GrantFor(requestId: int, dto: AssignDto, cfg: Snapshot): Result<GrantFigures, ComputeError>
  {
    match BestOffer(cfg, dto)
    case None => Err(OfferMissing(dto.discId))
    case Some(offer) => FiguresFor(requestId, dto, cfg, offer)
  }

  /** The straight-line part of compute, once the offer is known. */
  function FiguresFor(requestId: int, dto: AssignDto, cfg: Snapshot, offer: Offer): Result<GrantFigures, ComputeError>
  {
    if dto.discId !in cfg.confs then Err(NullReference)
    else
      var conf := cfg.confs[dto.discId];
      var monthNo := MonthNo(dto.applyCount);
      var aloInd := conf.aloDiscInd;
      var baseOffer := dto.offerPrice.GetOr(0);
      var baseAlo := dto.aloPrice.GetOr(0);
      var key := MonthKey(offer.offerId, monthNo);
      var isFree := offer.freeMonthInd && key in cfg.freeMonths;
      var isSpecial := offer.specialMonthInd && key in cfg.specialMonths;
      var (discAmt, aloAmt) :=
        RawAmounts(offer, isFree, if isSpecial then Some(cfg.specialMonths[key]) else None, aloInd, baseOffer, baseAlo);
      var offerCapped := Exceeds(discAmt, baseOffer);
      var aloCapped := aloInd && Exceeds(aloAmt, baseAlo);
      var isLast := conf.duration.Some? && conf.duration.value != -1 && monthNo == conf.duration.value;
      Ok(GrantFigures(
        requestId := requestId,
        assignId := dto.assignId,
        offerDiscAmount := if offerCapped then baseOffer else discAmt,
        freeMonth := isFree,
        specialMonth := isSpecial,
        offerCapped := offerCapped,
        currentApplyCount := monthNo,
        lastApply := isLast,
        aloDiscAmount := if aloCapped then baseAlo else aloAmt,
        aloDiscInd := aloInd,
        aloCapped := aloCapped,
        note := "Successfully applied"))
  }

  function Min(a: int, b: int): int { if a <= b then a else b }

  /**
   * compute fails only for a missing offer or a missing conf; otherwise the
   * figures belong to the candidate and the request, and the month number is
   * the count plus one.
   */
  lemma GrantIdentity(requestId: int, dto: AssignDto, cfg: Snapshot)
    ensures GrantFor(requestId, dto, cfg).Err? <==> BestOffer(cfg, dto).None? || dto.discId !in cfg.confs
    ensures BestOffer(cfg, dto).None? ==> GrantFor(requestId, dto, cfg) == Err(OfferMissing(dto.discId))
    ensures GrantFor(requestId, dto, cfg).Ok? ==>
      var g := GrantFor(requestId, dto, cfg).value;
      && g.requestId == requestId && g.assignId == dto.assignId
      && g.currentApplyCount == dto.applyCount.GetOr(0) + 1
      && g.aloDiscInd == cfg.confs[dto.discId].aloDiscInd
      && g.note == "Successfully applied"
  {
  }

  /**
   * The amounts granted: a free month grants the current prices (never
   * capped); a special month its row's amounts; otherwise the offer's own
   * defaults; each capped at its price, the cap flag set exactly when the
   * amount exceeded the price; the ALO amount is zero without the ALO indicator.
   */
  lemma GrantAmounts(requestId: int, dto: AssignDto, cfg: Snapshot)
    requires GrantFor(requestId, dto, cfg).Ok?
    ensures
      var g := GrantFor(requestId, dto, cfg).value;
      var offer := BestOffer(cfg, dto).value;
      var conf := cfg.confs[dto.discId];
      var key := MonthKey(offer.offerId, g.currentApplyCount);
      var baseOffer := dto.offerPrice.GetOr(0);
      var baseAlo := dto.aloPrice.GetOr(0);
      && g.freeMonth == (offer.freeMonthInd && key in cfg.freeMonths)
      && g.specialMonth == (offer.specialMonthInd && key in cfg.specialMonths)
      && (g.freeMonth ==> g.offerDiscAmount == baseOffer && !g.offerCapped
                          && g.aloDiscAmount == (if conf.aloDiscInd then baseAlo else 0) && !g.aloCapped)
      && (!g.freeMonth && g.specialMonth ==>
            && g.offerDiscAmount == Min(cfg.specialMonths[key].offerDiscAmt, baseOffer)
            && g.offerCapped == (cfg.specialMonths[key].offerDiscAmt > baseOffer)
            && g.aloDiscAmount == (if conf.aloDiscInd then Min(cfg.specialMonths[key].aloDiscAmt, baseAlo) else 0)
            && g.aloCapped == (conf.aloDiscInd && cfg.specialMonths[key].aloDiscAmt > baseAlo))
      && (!g.freeMonth && !g.specialMonth ==>
            && g.offerDiscAmount == Min(offer.offerDiscAmt, baseOffer)
            && g.offerCapped == (offer.offerDiscAmt > baseOffer)
            && g.aloDiscAmount == (if conf.aloDiscInd then Min(offer.aloDiscAmt, baseAlo) else 0)
            && g.aloCapped == (conf.aloDiscInd && offer.aloDiscAmt > baseAlo))
      && g.offerDiscAmount <= baseOffer
      && (conf.aloDiscInd ==> g.aloDiscAmount <= baseAlo)
      && (!conf.aloDiscInd ==> g.aloDiscAmount == 0 && !g.aloCapped)
  {
  }

  /**
   * lastApply holds exactly when the conf has a real duration and this is
   * that month; the override count plays no part in it.
   */
  lemma LastApplyRule(requestId: int, dto: AssignDto, cfg: Snapshot, ovw: Option<int>)
    requires GrantFor(requestId, dto, cfg).Ok?
    ensures
      var g := GrantFor(requestId, dto, cfg).value;
      var d := cfg.confs[dto.discId].duration;
      g.lastApply <==> d.Some? && d.value != -1 && g.currentApplyCount == d.value
    ensures GrantFor(requestId, dto.(ovwApplyCount := ovw), cfg) == GrantFor(requestId, dto, cfg)
  {
    assert BestOffer(cfg, dto.(ovwApplyCount := ovw)) == BestOffer(cfg, dto) by {
      var offers := OffersFor(cfg, dto.discId);
      BestIndexUnchanged(offers, dto, dto.(ovwApplyCount := ovw));
    }
  }

  /** The offer choice depends only on the candidate's date, tariff model and service. */
  lemma {:induction false} BestIndexUnchanged(offers: seq<Offer>, d1: AssignDto, d2: AssignDto)
    requires d1.assignDate == d2.assignDate && d1.tmCode == d2.tmCode && d1.offerSnCode == d2.offerSnCode
    ensures BestIndex(offers, d1) == BestIndex(offers, d2)
  {
    if offers != [] {
      BestIndexUnchanged(offers[..|offers| - 1], d1, d2);
    }
  }

  /** The default amounts come from the offer row: the conf row's own amounts are never read. */
  lemma ConfAmountsUnused(requestId: int, dto: AssignDto, cfg: Snapshot, offerAmt: int, aloAmt: int)
    requires dto.discId in cfg.confs
    ensures
      var conf := cfg.confs[dto.discId];
      var cfg' := cfg.(confs := cfg.confs[dto.discId := conf.(offerDiscAmt := offerAmt, aloDiscAmt := aloAmt)]);
      GrantFor(requestId, dto, cfg') == GrantFor(requestId, dto, cfg)
  {
  }

  /**
   * Every candidate the validator accepts can be computed: its offer and conf
   * exist (with the intended month number a missing count cannot fail).
   */
  lemma ValidCandidateComputes(requestId: int, dto: AssignDto, cutoff: int, cfg: Snapshot)
    requires Validate(dto, cutoff, cfg) == Valid
    ensures GrantFor(requestId, dto, cfg).Ok?
  {
    EligibleCandidateFindsOffer(dto, cfg);
  }

  /** compute: the calculator's result as a fresh grant record with both flags false. */
  method Compute(requestId: int, dto: AssignDto, cfg: Snapshot) returns (r: Result<GrantHistory, ComputeError>)
    ensures GrantFor(requestId, dto, cfg).Err? ==> r == Err(GrantFor(requestId, dto, cfg).error)
    ensures GrantFor(requestId, dto, cfg).Ok? ==>
      && r.Ok? && fresh(r.value)
      && r.value.figures == GrantFor(requestId, dto, cfg).value
      && !r.value.offerOccCreated && !r.value.aloOccCreated
  {
    var offer := FindOffer(cfg, dto);
    if offer.None? {
      return Err(OfferMissing(dto.discId));
    }
    var figures := FiguresFor(requestId, dto, cfg, offer.value);
    if figures.Err? {
      return Err(figures.error);
    }
    var g := new GrantHistory(figures.value);
    return Ok(g);
  }
}
