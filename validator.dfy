// The rule gate that decides whether a candidate assignment may be applied at
// a cutoff date.  Four checks run in a fixed order and the first failing one
// decides the single rejection reason.
module DiscountValidator {
  import opened Wrappers
  import opened Entities
  import opened Configurations

  datatype Verdict = Valid | Invalid(reason: Rejection)

  /** The application limit: the assignment's override, else the conf's duration, else none (-1). */
  function ApplyLimit(dto: AssignDto, conf: DiscConf): int
  {
    if dto.ovwApplyCount.Some? then dto.ovwApplyCount.value
    else if conf.duration.Some? then conf.duration.value
    else -1
  }

  /** hasValidConfig: conf present, cutoff inside its window, limit not reached. */
  function ConfigCheck(dto: AssignDto, cutoff: int, cfg: Snapshot): Option<Rejection>
  {
    if dto.discId !in cfg.confs then Some(NoConfig)
    else
      var conf := cfg.confs[dto.discId];
      if (conf.validTo.Some? && !(conf.validTo.value > cutoff))
         || (conf.validFrom.Some? && !(conf.validFrom.value < cutoff))
      then Some(Expired)
      else
        var applied := dto.applyCount.GetOr(0);
        var limit := ApplyLimit(dto, conf);
        if limit != -1 && applied >= limit then Some(LimitReached) else None
  }

  /** The price-group rules of a discount that set exactly one of restrict / prohibit. */
  function RulesFor(cfg: Snapshot, discId: int): set<PriceGroup>
  {
    set g | g in cfg.priceGroups.Values && g.id.discId == discId && g.restrictInd != g.prohibitInd
  }

  function AllowList(rules: set<PriceGroup>): set<string>
  {
    set g | g in rules && g.restrictInd :: g.id.prgcode
  }

  function DenyList(rules: set<PriceGroup>): set<string>
  {
    set g | g in rules && g.prohibitInd :: g.id.prgcode
  }

  /** Membership of a nullable price group in a set of codes (a null code is in no set). */
  predicate Listed(prgcode: Option<string>, codes: set<string>)
  {
    prgcode.Some? && prgcode.value in codes
  }

  /** isPriceGroupExcluded: the allow-list decides when it is non-empty, the deny-list otherwise. */
  function PriceGroupCheck(dto: AssignDto, cfg: Snapshot): Option<Rejection>
  {
    var rules := RulesFor(cfg, dto.discId);
    if rules == {} then None
    else
      var allowed := AllowList(rules);
      if allowed != {} then
        (if !Listed(dto.prgcode, allowed) then Some(PriceGroupRestricted) else None)
      else
        var denied := DenyList(rules);
        if denied != {} && Listed(dto.prgcode, denied) then Some(PriceGroupProhibited) else None
  }

  /** One of the four tariff-model / service patterns: exact, any model, any service, any both. */
  predicate TmSnMatched(o: Offer, dto: AssignDto)
  {
    || (o.tmcode == dto.tmCode && o.sncode == dto.offerSnCode)
    || (o.tmcode == -1 && o.sncode == dto.offerSnCode)
    || (o.sncode == -1 && o.tmcode == dto.tmCode)
    || (o.tmcode == -1 && o.sncode == -1)
  }

  /** The assignment date lies in the offer's eligibility window, both ends included, null ends open. */
  predicate DateEligible(o: Offer, assignDate: int)
  {
    && (o.eligStartDate.None? || !(assignDate < o.eligStartDate.value))
    && (o.eligEndDate.None? || !(assignDate > o.eligEndDate.value))
  }

  /** The offers configured for a discount, or none. */
  function OffersFor(cfg: Snapshot, discId: int): seq<Offer>
  {
    if discId in cfg.offers then cfg.offers[discId] else []
  }

  /** isOfferEligible: some configured offer matches the pattern and the date. */
  function OfferCheck(dto: AssignDto, cfg: Snapshot): Option<Rejection>
  {
    var offers := OffersFor(cfg, dto.discId);
    if exists i :: 0 <= i < |offers| && TmSnMatched(offers[i], dto) && DateEligible(offers[i], dto.assignDate)
    then None
    else Some(OfferNotEligible)
  }

  /** isOfferStatusPermitted: 'S' only when the discount survives suspension, never 'O'. */
  function StatusCheck(dto: AssignDto, conf: DiscConf): Option<Rejection>
  {
    if dto.offerStatus == 'S' && !conf.suspInd then Some(OfferSuspended)
    else if dto.offerStatus == 'O' then Some(OfferOnHold)
    else None
  }

  /** isValid: the checks in order; the first failure is the one reason reported. */
  function Validate(dto: AssignDto, cutoff: int, cfg: Snapshot): Verdict
  {
    match ConfigCheck(dto, cutoff, cfg)
    case Some(r) => Invalid(r)
    case None =>
      match PriceGroupCheck(dto, cfg)
      case Some(r) => Invalid(r)
      case None =>
        match OfferCheck(dto, cfg)
        case Some(r) => Invalid(r)
        case None =>
          match StatusCheck(dto, cfg.confs[dto.discId])
          case Some(r) => Invalid(r)
          case None => Valid
  }

  // ---- The rules stated positively ----

  /** validFrom < cutoff < validTo, a missing bound being open. */
  predicate WithinWindow(conf: DiscConf, cutoff: int)
  {
    (conf.validFrom.None? || conf.validFrom.value < cutoff) && (conf.validTo.None? || cutoff < conf.validTo.value)
  }

  /** No limit, or fewer applications so far (a missing count is zero) than the limit. */
  predicate UnderLimit(dto: AssignDto, conf: DiscConf)
  {
    ApplyLimit(dto, conf) == -1 || dto.applyCount.GetOr(0) < ApplyLimit(dto, conf)
  }

  predicate PriceGroupAllowed(dto: AssignDto, cfg: Snapshot)
  {
    var rules := RulesFor(cfg, dto.discId);
    if AllowList(rules) != {} then Listed(dto.prgcode, AllowList(rules))
    else !Listed(dto.prgcode, DenyList(rules))
  }

  predicate HasEligibleOffer(dto: AssignDto, cfg: Snapshot)
  {
    exists o :: o in OffersFor(cfg, dto.discId) && TmSnMatched(o, dto) && DateEligible(o, dto.assignDate)
  }

  predicate StatusPermitted(dto: AssignDto, conf: DiscConf)
  {
    dto.offerStatus != 'O' && (dto.offerStatus == 'S' ==> conf.suspInd)
  }

  lemma PriceGroupCheckMeaning(dto: AssignDto, cfg: Snapshot)
    ensures PriceGroupCheck(dto, cfg).None? <==> PriceGroupAllowed(dto, cfg)
    ensures PriceGroupCheck(dto, cfg).Some? ==>
      PriceGroupCheck(dto, cfg).value in {PriceGroupRestricted, PriceGroupProhibited}
  {
    var rules := RulesFor(cfg, dto.discId);
    if rules == {} {
      assert AllowList(rules) == {} && DenyList(rules) == {};
    }
  }

  lemma OfferCheckMeaning(dto: AssignDto, cfg: Snapshot)
    ensures OfferCheck(dto, cfg).None? <==> HasEligibleOffer(dto, cfg)
    ensures OfferCheck(dto, cfg).Some? ==> OfferCheck(dto, cfg).value == OfferNotEligible
  {
    var offers := OffersFor(cfg, dto.discId);
    if HasEligibleOffer(dto, cfg) {
      var o :| o in offers && TmSnMatched(o, dto) && DateEligible(o, dto.assignDate);
      var i :| 0 <= i < |offers| && offers[i] == o;
    }
  }

  /**
   * A candidate is valid exactly when every rule holds: a conf exists, the
   * cutoff is strictly inside its window, the limit is not reached, the price
   * group is allowed, an offer matches, and the offer status permits it.
   */
  lemma ValidIffAllRulesHold(dto: AssignDto, cutoff: int, cfg: Snapshot)
    ensures Validate(dto, cutoff, cfg) == Valid <==>
      && dto.discId in cfg.confs
      && WithinWindow(cfg.confs[dto.discId], cutoff)
      && UnderLimit(dto, cfg.confs[dto.discId])
      && PriceGroupAllowed(dto, cfg)
      && HasEligibleOffer(dto, cfg)
      && StatusPermitted(dto, cfg.confs[dto.discId])
  {
    PriceGroupCheckMeaning(dto, cfg);
    OfferCheckMeaning(dto, cfg);
  }

  /**
   * The reason reported is that of the first rule, in the order config,
   * window, limit, price group, offer, status, that fails.
   */
  lemma FirstFailingRuleDecides(dto: AssignDto, cutoff: int, cfg: Snapshot)
    ensures Validate(dto, cutoff, cfg) == Invalid(NoConfig) <==> dto.discId !in cfg.confs
    ensures Validate(dto, cutoff, cfg) == Invalid(Expired) <==>
      dto.discId in cfg.confs && !WithinWindow(cfg.confs[dto.discId], cutoff)
    ensures Validate(dto, cutoff, cfg) == Invalid(LimitReached) <==>
      dto.discId in cfg.confs && WithinWindow(cfg.confs[dto.discId], cutoff)
      && !UnderLimit(dto, cfg.confs[dto.discId])
    ensures Validate(dto, cutoff, cfg).Invalid? && Validate(dto, cutoff, cfg).reason in {PriceGroupRestricted, PriceGroupProhibited} <==>
      dto.discId in cfg.confs && WithinWindow(cfg.confs[dto.discId], cutoff)
      && UnderLimit(dto, cfg.confs[dto.discId]) && !PriceGroupAllowed(dto, cfg)
    ensures Validate(dto, cutoff, cfg) == Invalid(OfferNotEligible) <==>
      dto.discId in cfg.confs && WithinWindow(cfg.confs[dto.discId], cutoff)
      && UnderLimit(dto, cfg.confs[dto.discId]) && PriceGroupAllowed(dto, cfg)
      && !HasEligibleOffer(dto, cfg)
    ensures Validate(dto, cutoff, cfg).Invalid? && Validate(dto, cutoff, cfg).reason in {OfferSuspended, OfferOnHold} <==>
      dto.discId in cfg.confs && WithinWindow(cfg.confs[dto.discId], cutoff)
      && UnderLimit(dto, cfg.confs[dto.discId]) && PriceGroupAllowed(dto, cfg)
      && HasEligibleOffer(dto, cfg) && !StatusPermitted(dto, cfg.confs[dto.discId])
  {
    PriceGroupCheckMeaning(dto, cfg);
    OfferCheckMeaning(dto, cfg);
  }

  /** A cutoff equal to either bound of the window is outside it. */
  lemma WindowBoundsAreStrict(dto: AssignDto, cutoff: int, cfg: Snapshot)
    requires dto.discId in cfg.confs
    requires cfg.confs[dto.discId].validFrom == Some(cutoff) || cfg.confs[dto.discId].validTo == Some(cutoff)
    ensures Validate(dto, cutoff, cfg) == Invalid(Expired)
  {
  }

  /** The override count replaces the duration as the limit, even when it is larger. */
  lemma OverrideBeatsDuration(dto: AssignDto, conf: DiscConf)
    requires dto.ovwApplyCount.Some? && dto.ovwApplyCount.value != -1
    ensures UnderLimit(dto, conf) <==> dto.applyCount.GetOr(0) < dto.ovwApplyCount.value
  {
  }

  /** With no rule for the discount, the price group never matters. */
  lemma NoRulesNoRestriction(dto: AssignDto, cfg: Snapshot)
    requires RulesFor(cfg, dto.discId) == {}
    ensures PriceGroupCheck(dto, cfg) == None
  {
  }

  /** A non-empty allow-list decides alone: a code both allowed and denied passes. */
  lemma AllowListIgnoresDenyList(dto: AssignDto, cfg: Snapshot)
    requires AllowList(RulesFor(cfg, dto.discId)) != {}
    ensures PriceGroupCheck(dto, cfg) == None <==> Listed(dto.prgcode, AllowList(RulesFor(cfg, dto.discId)))
    ensures PriceGroupCheck(dto, cfg) != Some(PriceGroupProhibited)
  {
  }

  /** A rule that sets both or neither indicator is ignored. */
  lemma AmbiguousRulesIgnored(cfg: Snapshot, discId: int, g: PriceGroup)
    requires g.restrictInd == g.prohibitInd
    ensures g !in RulesFor(cfg, discId)
  {
  }

  /** The offer status: 'O' always refused, 'S' refused unless kept on suspension, anything else passes. */
  lemma StatusRules(dto: AssignDto, conf: DiscConf)
    ensures dto.offerStatus == 'O' ==> StatusCheck(dto, conf) == Some(OfferOnHold)
    ensures dto.offerStatus == 'S' ==> (StatusCheck(dto, conf) == None <==> conf.suspInd)
    ensures dto.offerStatus !in {'O', 'S'} ==> StatusCheck(dto, conf) == None
  {
  }
}
