// The rows and value objects of the discount system.  Dates are whole seconds
// on one local clock; monetary amounts are integers (the system only compares,
// clamps and negates them).  A nullable column is an Option.
module Entities {
  import opened Wrappers

  const SecondsPerDay: int := 86400

  /** Reasons the validator gives for rejecting a candidate assignment. */
  datatype Rejection =
    | NoConfig              // no conf row for the discount id
    | Expired               // cutoff outside the conf validity window
    | LimitReached          // application limit reached
    | PriceGroupRestricted  // price group missing from the allow-list
    | PriceGroupProhibited  // price group on the deny-list
    | OfferNotEligible      // no offer matches tariff model, service and date
    | OfferSuspended        // offer service suspended and the discount not kept on suspension
    | OfferOnHold           // offer service on hold

  /** One discount's configuration row. */
  datatype DiscConf = DiscConf(
    discId: int,
    duration: Option<int>,
    offerDiscAmt: int,
    aloDiscAmt: int,
    occSncode: Option<int>,
    occGlcode: Option<string>,
    occRemark: Option<string>,
    validFrom: Option<int>,
    validTo: Option<int>,
    aloDiscInd: bool,
    suspInd: bool)

  /** One offer row: which tariff model / service it applies to and its default amounts. */
  datatype Offer = Offer(
    offerId: int,
    discId: Option<int>,
    tmcode: int,
    sncode: int,
    offerDiscAmt: int,
    aloDiscAmt: int,
    eligStartDate: Option<int>,
    eligEndDate: Option<int>,
    freeMonthInd: bool,
    specialMonthInd: bool)

  datatype PriceGroupId = PriceGroupId(discId: int, prgcode: string)
  /** A price-group rule: allow-list entry (restrict) or deny-list entry (prohibit). */
  datatype PriceGroup = PriceGroup(id: PriceGroupId, restrictInd: bool, prohibitInd: bool)

  /** Key of the free-month and special-month tables. */
  datatype MonthKey = MonthKey(offerId: int, monthNo: int)
  datatype SpecialMonth = SpecialMonth(id: MonthKey, offerDiscAmt: int, aloDiscAmt: int)
  datatype FreeMonth = FreeMonth(id: MonthKey)
  datatype DiscType = DiscType(typeId: int, name: string)

  /** A candidate discount assignment of one contract, as the eligibility query delivers it. */
  datatype AssignDto = AssignDto(
    assignId: int,
    assignDate: int,
    discSncode: int,
    discId: int,
    applyCount: Option<int>,
    ovwApplyCount: Option<int>,
    customerId: int,
    coId: int,
    lbcDate: Option<int>,
    prgcode: Option<string>,
    tmCode: int,
    offerSnCode: int,
    offerValidFromDate: Option<int>,
    offerStatus: char,
    offerPrice: Option<int>,
    aloSnCode: Option<int>,
    aloValidFromDate: Option<int>,
    aloStatus: char,
    aloPrice: Option<int>)

  /** The evaluation history row written for the chosen candidate. */
  datatype EvalHistory = EvalHistory(
    requestId: int,
    assignId: int,
    customerId: int,
    coId: int,
    billPeriodEndDate: int,
    lbcDate: Option<int>,
    prgCode: Option<string>,
    tmCode: int,
    discSncode: int,
    discId: int,
    occSncode: Option<int>,
    occGlcode: Option<string>,
    occRemark: Option<string>,
    offerSncode: int,
    offerValidFromDate: int,
    offerStatus: string,
    offerPrice: int,
    aloSncode: int,
    aloValidFromDate: int,
    aloStatus: string,
    aloPrice: int)

  /** What the calculator decides for one contract and billing period. */
  datatype GrantFigures = GrantFigures(
    requestId: int,
    assignId: int,
    offerDiscAmount: int,
    freeMonth: bool,
    specialMonth: bool,
    offerCapped: bool,
    currentApplyCount: int,
    lastApply: bool,
    aloDiscAmount: int,
    aloDiscInd: bool,
    aloCapped: bool,
    note: string)

  /** A grant history row: the figures plus the two "adjustment created" flags. */
  datatype GrantRow = GrantRow(figures: GrantFigures, offerOccCreated: bool, aloOccCreated: bool)

  /** A grant history record; granting sets its two flags in place. */
  class GrantHistory {
    const figures: GrantFigures
    var offerOccCreated: bool
    var aloOccCreated: bool

    constructor (f: GrantFigures)
      ensures figures == f && !offerOccCreated && !aloOccCreated
    {
      figures := f;
      offerOccCreated := false;
      aloOccCreated := false;
    }

    function Row(): (r: GrantRow)
      reads this
      ensures r.figures == figures
      ensures r.offerOccCreated == offerOccCreated && r.aloOccCreated == aloOccCreated
    {
      GrantRow(figures, offerOccCreated, aloOccCreated)
    }
  }

  /** Structured contract remarks; the wording of each is fixed by the system. */
  datatype GrantedOccs = BothGranted | OfferOnlyGranted | AloOnlyGranted | NoneGranted

  datatype Fault =
    | SqlFault          // java.sql.SQLException
    | PersistenceFault  // jakarta.persistence.PersistenceException and subclasses
    | OtherFault        // any other runtime exception

  datatype Remark =
    | NoDiscountsProvided
    | NoValidDiscount(errors: map<int, Rejection>)   // reasons by assignment id
    | EvaluationError(coId: int)
    | Applied(assignId: int, granted: GrantedOccs)
    | FailedDueTo(assignId: int, offerFailed: bool, aloFailed: bool)
    | ContractError(reason: Fault)

  datatype ContractKey = ContractKey(requestId: int, packId: int, customerId: int, coId: int)

  datatype ContractRow = ContractRow(
    key: ContractKey,
    lbcDate: Option<int>,
    prgcode: Option<string>,
    tmcode: int,
    status: Option<string>,
    remark: Option<Remark>)

  /** A contract of a request; evaluation and recording update its status and remark. */
  class DynDiscContract {
    const key: ContractKey
    const lbcDate: Option<int>
    const prgcode: Option<string>
    const tmcode: int
    var status: Option<string>
    var remark: Option<Remark>

    constructor FromRow(r: ContractRow)
      ensures Row() == r
    {
      key := r.key;
      lbcDate := r.lbcDate;
      prgcode := r.prgcode;
      tmcode := r.tmcode;
      status := r.status;
      remark := r.remark;
    }

    function Row(): (r: ContractRow)
      reads this
      ensures r.key == key && r.status == status && r.remark == remark
    {
      ContractRow(key, lbcDate, prgcode, tmcode, status, remark)
    }
  }

  datatype RequestRow = RequestRow(
    requestId: int,
    status: string,
    statusDate: Option<int>,
    billcycle: string,
    billPeriodEndDate: int)

  datatype PackageRow = PackageRow(
    requestId: int,
    packId: int,
    status: string,
    entryDate: int,
    startDate: Option<int>,
    endDate: Option<int>,
    contractCount: int)

  /** A discount assignment of a contract, as the listener creates and the processor advances it. */
  datatype Assign = Assign(
    assignId: int,
    customerId: int,
    coId: int,
    discSncode: int,
    discId: int,
    entryDate: int,
    assignDate: int,
    deleteDate: Option<int>,
    expireDate: Option<int>,
    lastAppliedDate: Option<int>,
    applyCount: Option<int>,
    ovwApplyCount: Option<int>,
    gmdRequest: int)

  datatype StateKey = StateKey(assignId: int, seqno: int)
  datatype AssignState = AssignState(
    key: StateKey,
    actionId: int,
    status: string,
    statusDate: int,
    gmdRequest: int,
    entryDate: int)

  datatype HistoryKey = HistoryKey(requestId: int, assignId: int)

  datatype Statistic = Statistic(requestId: int, endDate: Option<int>)

  /** A service-change event waiting in the listener's queue. */
  datatype QueueItem = QueueItem(request: int, customerId: int, coId: int, actionId: int, status: string)
  datatype QueueHistItem = QueueHistItem(request: int, status: string)
}
