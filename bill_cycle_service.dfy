// Validation of the bill cycle a new run is started for, and of the cutoff
// date looked up for it.  The lookup result and the current time are inputs.
module BillCycleService {
  import opened Wrappers
  import BillCycles

  /** InvalidBillCycleException, with the situation that raised it. */
  datatype BillCycleError =
    | InvalidBillCycle(code: string)
    | NoCutoffDate(code: string)
    | CutoffInFuture(code: string, cutoff: int)

  /** validateBillCycle: passes iff the code names a cycle. */
  function ValidateBillCycle(code: string): Outcome<BillCycleError>
  {
    if BillCycles.FromString(code).Ok? then Pass else Fail(InvalidBillCycle(code))
  }

  /**
   * fetchCutoffDate, given what the cycle definition table holds for the code
   * (`lookup`) and the current time.
   */
  function FetchCutoffDate(code: string, lookup: Option<int>, now: int): Result<int, BillCycleError>
  {
    match lookup
    case None => Err(NoCutoffDate(code))
    case Some(cutoff) =>
      if cutoff > now then Err(CutoffInFuture(code, cutoff)) else Ok(cutoff)
  }

  /** The bill cycle is refused exactly when fromString refuses it. */
  lemma ValidateMatchesCycles(code: string)
    ensures ValidateBillCycle(code).Pass? <==> code in {"90", "05", "02", "03"}
    ensures ValidateBillCycle(code).Fail? ==> ValidateBillCycle(code).error == InvalidBillCycle(code)
  {
    BillCycles.FromStringAccepts(code);
  }

  /**
   * A missing date and a date after "now" are refused; any other date, "now"
   * itself included, is returned unchanged.  So a returned cutoff is never in
   * the future.
   */
  lemma CutoffRules(code: string, lookup: Option<int>, now: int)
    ensures lookup.None? ==> FetchCutoffDate(code, lookup, now) == Err(NoCutoffDate(code))
    ensures lookup.Some? && lookup.value > now ==> FetchCutoffDate(code, lookup, now).Err?
    ensures lookup.Some? && lookup.value <= now ==> FetchCutoffDate(code, lookup, now) == Ok(lookup.value)
    ensures FetchCutoffDate(code, lookup, now).Ok? ==> FetchCutoffDate(code, lookup, now).value <= now
  {
  }
}
