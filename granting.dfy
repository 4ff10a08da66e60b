// Granting: for the offer discount, and for the ALO discount when its
// indicator is set, create a one-time charge (OCC) of the negated amount in
// the billing system, and record on the grant whether it was created.
module DiscountGranting {
  import opened Wrappers
  import opened Entities
  import opened Store

  datatype DiscountType = OfferType | AloType

  /** The suffix appended to the conf's OCC remark. */
  function Suffix(t: DiscountType): string
  {
    match t
    case OfferType => ""
    case AloType => " ALO"
  }

  /** String concatenation of a nullable remark: a null prints as "null". */
  function RemarkText(occRemark: Option<string>, suffix: string): (s: string)
    ensures occRemark.Some? ==> s == occRemark.value + suffix
    ensures occRemark.None? ==> s == "null" + suffix
  {
    match occRemark
    case Some(r) => r + suffix
    case None => "null" + suffix
  }

  /** The procedure call for one discount type: both dates the day before the cutoff, the amount negated. */
  function OccCallFor(e: EvalHistory, amount: int, t: DiscountType): OccCall
  {
    var validFrom := e.billPeriodEndDate - SecondsPerDay;
    OccCall(e.customerId, e.coId, validFrom, -amount, RemarkText(e.occRemark, Suffix(t)),
            e.occGlcode, e.occSncode, e.tmCode, validFrom)
  }

  /** The effect of granting one discount type: the created flag, the calls made and the fault propagated. */
  datatype TypeGrant = TypeGrant(created: bool, calls: seq<OccCall>, thrown: Option<Fault>)

  /**
   * grantOcc: disabled granting counts as created without a call; otherwise the
   * flag is true exactly when the call returned, an SQL fault propagates and any
   * other fault is swallowed.
   */
  function OccGrantOf(e: EvalHistory, amount: int, t: DiscountType, enabled: bool, outcome: CallOutcome): TypeGrant
  {
    if !enabled then TypeGrant(true, [], None)
    else
      var call := OccCallFor(e, amount, t);
      match outcome
      case Returned => TypeGrant(true, [call], None)
      case Raised(f) => TypeGrant(false, [call], if f.SqlFault? then Some(f) else None)
  }

  /** grantDiscountIfValid: only a positive amount is granted. */
  function TypeGrantOf(e: EvalHistory, amount: int, t: DiscountType, enabled: bool, outcome: CallOutcome): TypeGrant
  {
    if amount > 0 then OccGrantOf(e, amount, t, enabled, outcome)
    else TypeGrant(false, [], None)
  }

  /** The grant row with one type's flag set. */
  function WithFlag(row: GrantRow, t: DiscountType, success: bool): GrantRow
  {
    match t
    case OfferType => row.(offerOccCreated := success)
    case AloType => row.(aloOccCreated := success)
  }

  datatype Granting = Granting(row: GrantRow, calls: seq<OccCall>, thrown: Option<Fault>)

  /** grantDiscount: the offer first; the ALO only when its indicator is set and the offer did not propagate a fault. */
  function GrantingOf(e: EvalHistory, row: GrantRow, enabled: bool, offerOutcome: CallOutcome, aloOutcome: CallOutcome): Granting
  {
    var o := TypeGrantOf(e, row.figures.offerDiscAmount, OfferType, enabled, offerOutcome);
    var row1 := WithFlag(row, OfferType, o.created);
    if o.thrown.Some? || !row.figures.aloDiscInd then Granting(row1, o.calls, o.thrown)
    else
      var a := TypeGrantOf(e, row.figures.aloDiscAmount, AloType, enabled, aloOutcome);
      Granting(WithFlag(row1, AloType, a.created), o.calls + a.calls, a.thrown)
  }

  // ---- properties of the granting decision ----

  /** A zero or negative amount is not attempted: no call, flag false, nothing propagated. */
  lemma NonPositiveAmountNotAttempted(e: EvalHistory, amount: int, t: DiscountType, enabled: bool, outcome: CallOutcome)
    requires amount <= 0
    ensures TypeGrantOf(e, amount, t, enabled, outcome) == TypeGrant(false, [], None)
  {
  }

  /** With granting disabled a positive amount counts as created and no call is made. */
  lemma DisabledCreatesWithoutCall(e: EvalHistory, amount: int, t: DiscountType, outcome: CallOutcome)
    requires amount > 0
    ensures TypeGrantOf(e, amount, t, false, outcome) == TypeGrant(true, [], None)
  {
  }

  /**
   * An enabled grant of a positive amount makes exactly one call: the contract's
   * customer and contract, the day before the cutoff in both date positions,
   * the negated amount, the conf's remark with the type's suffix, and the conf's
   * GL code and service code.  The flag is set exactly when the call returned.
   */
  lemma EnabledGrantCalls(e: EvalHistory, amount: int, t: DiscountType, outcome: CallOutcome)
    requires amount > 0
    ensures
      var g := TypeGrantOf(e, amount, t, true, outcome);
      && |g.calls| == 1
      && g.calls[0].customerId == e.customerId && g.calls[0].coId == e.coId
      && g.calls[0].validFrom == e.billPeriodEndDate - SecondsPerDay
      && g.calls[0].secondDate == g.calls[0].validFrom
      && g.calls[0].amount == -amount && g.calls[0].amount < 0
      && g.calls[0].remark == RemarkText(e.occRemark, Suffix(t))
      && g.calls[0].glcode == e.occGlcode && g.calls[0].sncode == e.occSncode
      && g.calls[0].tmCode == e.tmCode
      && (g.created <==> outcome.Returned?)
      && (g.thrown.Some? <==> outcome == Raised(SqlFault))
  {
  }

  /** Only an SQL fault ever leaves granting. */
  lemma OnlySqlFaultPropagates(e: EvalHistory, row: GrantRow, enabled: bool, oo: CallOutcome, ao: CallOutcome)
    ensures var g := GrantingOf(e, row, enabled, oo, ao);
      g.thrown.None? || g.thrown == Some(SqlFault)
    ensures GrantingOf(e, row, enabled, oo, ao).thrown.Some? ==> (oo == Raised(SqlFault) || ao == Raised(SqlFault))
  {
  }

  /** Without the ALO indicator only the offer is considered and the ALO flag is left as it was. */
  lemma AloNeedsIndicator(e: EvalHistory, row: GrantRow, enabled: bool, oo: CallOutcome, ao: CallOutcome)
    requires !row.figures.aloDiscInd
    ensures
      var g := GrantingOf(e, row, enabled, oo, ao);
      && g.row.aloOccCreated == row.aloOccCreated
      && g == GrantingOf(e, row, enabled, oo, Returned)
      && |g.calls| <= 1
  {
  }

  /**
   * A non-SQL failure of the offer call is swallowed: the ALO discount is still
   * granted, so an enabled grant of two positive amounts makes both calls.
   */
  lemma OfferFailureStillGrantsAlo(e: EvalHistory, row: GrantRow, ao: CallOutcome, f: Fault)
    requires f != SqlFault
    requires row.figures.aloDiscInd
    requires row.figures.offerDiscAmount > 0 && row.figures.aloDiscAmount > 0
    ensures
      var g := GrantingOf(e, row, true, Raised(f), ao);
      && g.calls == [OccCallFor(e, row.figures.offerDiscAmount, OfferType), OccCallFor(e, row.figures.aloDiscAmount, AloType)]
      && !g.row.offerOccCreated
      && (g.row.aloOccCreated <==> ao.Returned?)
  {
  }

  /** An SQL failure of the offer call propagates at once: the ALO is not attempted and its flag is untouched. */
  lemma SqlFailureStopsAlo(e: EvalHistory, row: GrantRow, ao: CallOutcome)
    requires row.figures.offerDiscAmount > 0
    ensures
      var g := GrantingOf(e, row, true, Raised(SqlFault), ao);
      && g.thrown == Some(SqlFault)
      && g.calls == [OccCallFor(e, row.figures.offerDiscAmount, OfferType)]
      && !g.row.offerOccCreated
      && g.row.aloOccCreated == row.aloOccCreated
  {
  }

  /** The offer's flag does not depend on anything about the ALO, and granting touches nothing but the two flags. */
  lemma FlagsIndependent(e: EvalHistory, row: GrantRow, enabled: bool, oo: CallOutcome, ao1: CallOutcome, ao2: CallOutcome,
                         aloAmount: int, aloInd: bool)
    ensures
      var r2 := row.(figures := row.figures.(aloDiscAmount := aloAmount, aloDiscInd := aloInd));
      GrantingOf(e, row, enabled, oo, ao1).row.offerOccCreated == GrantingOf(e, r2, enabled, oo, ao2).row.offerOccCreated
    ensures GrantingOf(e, row, enabled, oo, ao1).row.figures == row.figures
  {
  }

  /** Setting one type's flag leaves the other type's flag and the figures as they were. */
  lemma WithFlagFrame(row: GrantRow, t: DiscountType, success: bool)
    ensures var r := WithFlag(row, t, success);
      && r.figures == row.figures
      && (t == OfferType ==> r.offerOccCreated == success && r.aloOccCreated == row.aloOccCreated)
      && (t == AloType ==> r.aloOccCreated == success && r.offerOccCreated == row.offerOccCreated)
  {
  }

  // ---- the service, on the grant object ----

  /** setOccCreatedFlag. */
  method SetOccCreatedFlag(grant: GrantHistory, t: DiscountType, success: bool)
    modifies grant
    ensures grant.Row() == WithFlag(old(grant.Row()), t, success)
  {
    match t
    case OfferType => grant.offerOccCreated := success;
    case AloType => grant.aloOccCreated := success;
  }

  /** grantOcc: the flag is set in every case, as the source's finally block does. */
  method GrantOcc(eval: EvalHistory, grant: GrantHistory, t: DiscountType, amount: int, enabled: bool,
                  outcome: CallOutcome, billing: Billing) returns (thrown: Option<Fault>)
    modifies grant, billing
    ensures var g := OccGrantOf(eval, amount, t, enabled, outcome);
      && grant.Row() == WithFlag(old(grant.Row()), t, g.created)
      && billing.calls == old(billing.calls) + g.calls
      && thrown == g.thrown
  {
    var success := false;
    thrown := None;
    if !enabled {
      success := true;
    } else {
      billing.calls := billing.calls + [OccCallFor(eval, amount, t)];
      match outcome
      case Returned =>
        success := true;
      case Raised(f) =>
        if f.SqlFault? {
          thrown := Some(f);
        }
    }
    SetOccCreatedFlag(grant, t, success);
  }

  /** grantDiscountIfValid. */
  method GrantDiscountIfValid(eval: EvalHistory, grant: GrantHistory, t: DiscountType, amount: int, enabled: bool,
                              outcome: CallOutcome, billing: Billing) returns (thrown: Option<Fault>)
    modifies grant, billing
    ensures var g := TypeGrantOf(eval, amount, t, enabled, outcome);
      && grant.Row() == WithFlag(old(grant.Row()), t, g.created)
      && billing.calls == old(billing.calls) + g.calls
      && thrown == g.thrown
  {
    if amount > 0 {
      thrown := GrantOcc(eval, grant, t, amount, enabled, outcome, billing);
    } else {
      SetOccCreatedFlag(grant, t, false);
      thrown := None;
    }
  }

  /** grantDiscount: sets the flags on the grant and makes the billing calls. */
  method GrantDiscount(eval: EvalHistory, grant: GrantHistory, enabled: bool, offerOutcome: CallOutcome,
                       aloOutcome: CallOutcome, billing: Billing) returns (thrown: Option<Fault>)
    modifies grant, billing
    ensures var g := GrantingOf(eval, old(grant.Row()), enabled, offerOutcome, aloOutcome);
      && grant.Row() == g.row
      && billing.calls == old(billing.calls) + g.calls
      && thrown == g.thrown
  {
    thrown := GrantDiscountIfValid(eval, grant, OfferType, grant.figures.offerDiscAmount, enabled, offerOutcome, billing);
    if thrown.None? && grant.figures.aloDiscInd {
      thrown := GrantDiscountIfValid(eval, grant, AloType, grant.figures.aloDiscAmount, enabled, aloOutcome, billing);
    }
  }
}
