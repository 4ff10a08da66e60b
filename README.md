# Dynamic discount engine — a Dafny model

This project models the core of a telecom billing add-on that grants
time-limited discounts ("dynamic discounts") to contracts at the end of a
billing period, together with the listener that turns service-change events
into discount assignments. Everything is stated over abstract database tables
(`Store.Tables`) and an abstract billing system that records the adjustment
calls made to it (`Store.Billing`).

What is modelled:

- **Per-contract pipeline.** Each contract goes through evaluate, then grant, then record.
  - `DiscountValidator`: the rule gate over the configuration, limit, price-group, offer and status checks.
  - `DiscountCalculator`: the offer choice by priority, the month number, the free-month and special-month amounts, capping and the last-apply flag.
  - `DiscountEvaluation`: the valid/invalid partition, the rejection remark and the choice of the latest valid candidate.
  - `DiscountGranting`: which billing adjustments are attempted and the two "adjustment created" flags.
  - `DiscountLogging`: the contract status and remark derived from those flags, and the ordered writes of the contract, evaluation, grant and assignment.
- **`ContractProcessing`.** The pipeline for one contract as a transaction. A retry policy of at most five attempts applies on SQL and persistence faults.
- **`BatchProcessing`.** The packages of a request in status I, in pack id order.
  - Each package goes W at the start, then P when done, or F when it fails.
  - The status updates select on the pack id alone, as the repository writes them, so they also reach the package with the same number in other requests. The keyed update is modelled beside them as the corrected variant.
  - Its candidates are grouped by contract and its contracts cut into chunks, run one after another.
  - A failing contract is marked F on its own.
- **`RequestService`.** Registering a request with one contract per contract id, finalizing it F or P, resetting a failed one, and the look-ups.
- **`ExecutionManagement`.** The "c" (new request) and "r" (resume) modes.
  - Every refusal ends the run quietly.
  - The invariant that request ids are unique and at most one request is in W: each run of processDiscounts on its own, started from tables that hold it, keeps it.
- **`BillCycles`, `BillCycleService`.** The four bill cycle codes and the cutoff date check.
- **`Configurations`.** The configuration snapshot of six maps, built and refreshed from the configuration tables.
- **`StatusGuards`.** The status checks that run before a contract or package row is written.
- **The GMD listener.**
  - `GmdActions` and `DiscountStates`: the action ids and the state codes.
  - `GmdActionHandling`: what each service-change action writes.
  - `GmdRequestProcessing`: one job run. It claims the process registry row, skips unqualified queue entries, handles the pending ones in request order and releases the row.

How the model is built:

- Each operation that changes state is a `method` on the `Store.Database` and `Store.Billing` objects. Each such method is proved equal to a specification function of the old state. The lemmas then state what those functions promise.
- Packages, chunks and contracts are processed one after another. The pool sizes and semaphores of the source only bound how many run at once.
- Dates are integer timestamps and money amounts are integers.
- Clock readings, sequence values, query answers, the billing system's answers and the faults collaborators raise are all parameters. They are gathered in environment values such as `ExecutionManagement.Environment`, `GmdRequestProcessing.JobEnv` and `ContractProcessing.AttemptFaults`.

## Model

| member | source | states |
|---|---|---|
| StatusGuards.ContractGuardAccepts | src/main/java/com/atos/dynamicdiscount/model/entity/DynDiscContract.java:55-61 | the contract hook accepts exactly the contiguous blocks of "IPFS" (the empty string and "PF" included) and throws a null-dereference error on a null status |
| StatusGuards.PackageGuardAccepts | src/main/java/com/atos/dynamicdiscount/model/entity/DynDiscPackage.java:49-55 | the package hook accepts exactly the contiguous blocks of "IPFW" and throws a null-dereference error on a null status |
| StatusGuards.ContractGuardSingleLetter | src/main/java/com/atos/dynamicdiscount/model/entity/DynDiscContract.java:57-60 | a one-letter contract status passes iff it is I, P, F or S; any other letter (W among them) raises IllegalArgumentException |
| StatusGuards.PackageGuardSingleLetter | src/main/java/com/atos/dynamicdiscount/model/entity/DynDiscPackage.java:51-54 | a one-letter package status passes iff it is I, P, F or W; S raises IllegalArgumentException |
| StatusGuards.BlocksOfFour | src/main/java/com/atos/dynamicdiscount/model/entity/DynDiscContract.java:58 | String.contains on a four-letter string holds exactly for its eleven contiguous blocks |
| BillCycles.FirstWithValue | src/main/java/com/atos/dynamicdiscount/enums/BillCycle.java:19-23 | the first constant found carries the code; none found means no constant carries it |
| BillCycles.FourDistinctCodes | src/main/java/com/atos/dynamicdiscount/enums/BillCycle.java:7-10 | values() lists exactly the four cycles, whose codes are 90, 05, 02, 03 and pairwise distinct |
| BillCycles.FromStringAccepts | src/main/java/com/atos/dynamicdiscount/enums/BillCycle.java:18-25 | fromString succeeds exactly on the four codes, returns the constant with that code, and otherwise raises the invalid-cycle error for the given code |
| BillCycles.FromStringRoundTrip | src/main/java/com/atos/dynamicdiscount/enums/BillCycle.java:18-25 | looking up a constant's own code returns that constant |
| BillCycleService.ValidateMatchesCycles | src/main/java/com/atos/dynamicdiscount/processor/service/billcycle/BillCycleService.java:29-36 | validateBillCycle passes exactly for the four codes and otherwise raises InvalidBillCycleException for that code |
| BillCycleService.CutoffRules | src/main/java/com/atos/dynamicdiscount/processor/service/billcycle/BillCycleService.java:44-67 | a missing date and a date after now are refused; any other date is returned unchanged, so a returned cutoff is never in the future |
| Configurations.MapEntities | src/main/java/com/atos/dynamicdiscount/processor/config/DynDiscConfigurations.java:68-72 | toMap succeeds exactly when the keys are pairwise distinct; the map then holds every entity under its key and no other key |
| Configurations.OffersByDiscId | src/main/java/com/atos/dynamicdiscount/processor/config/DynDiscConfigurations.java:76-85 | the grouped map has an entry exactly for the discount ids some offer carries, each holding that id's offers in repository order; offers without an id are dropped |
| Configurations.OffersOfAbsentKey | src/main/java/com/atos/dynamicdiscount/processor/config/DynDiscConfigurations.java:82-84 | a discount id with no entry has no offers |
| Configurations.ReloadReplacesAll | src/main/java/com/atos/dynamicdiscount/processor/config/DynDiscConfigurations.java:57-66 | a load reports no error exactly when every keyed table has distinct keys, and the snapshot it then builds does not depend on the previous one |
| Configurations.ReloadRefused | src/main/java/com/atos/dynamicdiscount/processor/config/DynDiscConfigurations.java:60-64 | a duplicate key in any keyed table makes the load raise the duplicate-key error |
| Configurations.LoadedConfs | src/main/java/com/atos/dynamicdiscount/processor/config/DynDiscConfigurations.java:59-60 | after a clean load the offer map is the grouping of the offers and the conf map holds exactly the conf rows under their discount ids |
| Configurations.LoadedMaps | src/main/java/com/atos/dynamicdiscount/processor/config/DynDiscConfigurations.java:61-64 | after a clean load the type, price-group, special-month and free-month maps hold each row under its key |
| Configurations.DuplicateConfLeavesRestStale | src/main/java/com/atos/dynamicdiscount/processor/config/DynDiscConfigurations.java:59-61 | a duplicate discount id in the conf table fails the load after the offer map was already replaced, leaving the other five maps as they were |
| Configurations.DynDiscConfigurations.constructor | src/main/java/com/atos/dynamicdiscount/processor/config/DynDiscConfigurations.java:31-66 | construction followed at once by the post-construct load of well-keyed tables: the six maps are never seen unloaded, and the new service holds exactly the loaded snapshot |
| Configurations.DynDiscConfigurations.Create | src/main/java/com/atos/dynamicdiscount/processor/config/DynDiscConfigurations.java:31-66 | bean creation fails with the duplicate-key error exactly when some configuration table repeats a key; otherwise it yields a fresh service holding the loaded snapshot |
| Configurations.DynDiscConfigurations.LoadConfigurations | src/main/java/com/atos/dynamicdiscount/processor/config/DynDiscConfigurations.java:57-66 | the fields are reassigned one after another, so the new state and the thrown error are those of the reload of the old state |
| Configurations.DynDiscConfigurations.RefreshConfigurations | src/main/java/com/atos/dynamicdiscount/processor/config/DynDiscConfigurations.java:90-93 | a refresh is a plain reload |
| DiscountValidator.PriceGroupCheckMeaning | src/main/java/com/atos/dynamicdiscount/processor/service/evaluation/DiscountValidator.java:86-133 | the price-group check passes exactly when a non-empty restrict list contains the price group, or, with no restrict list, the prohibit list does not; a refusal is Restricted or Prohibited |
| DiscountValidator.OfferCheckMeaning | src/main/java/com/atos/dynamicdiscount/processor/service/evaluation/DiscountValidator.java:142-180 | the offer check passes exactly when some offer of the discount matches on TM/SN (with -1 as wildcard) and its eligibility dates enclose the assign date |
| DiscountValidator.ValidIffAllRulesHold | src/main/java/com/atos/dynamicdiscount/processor/service/evaluation/DiscountValidator.java:32-47 | a candidate is valid exactly when a conf exists, the cutoff lies strictly inside its window, the limit is not reached, the price group is allowed, an offer matches and the offer status permits it |
| DiscountValidator.FirstFailingRuleDecides | src/main/java/com/atos/dynamicdiscount/processor/service/evaluation/DiscountValidator.java:32-44 | the rejection reason is that of the first failing rule in the order config, window, limit, price group, offer, status |
| DiscountValidator.WindowBoundsAreStrict | src/main/java/com/atos/dynamicdiscount/processor/service/evaluation/DiscountValidator.java:61-62 | a cutoff equal to validFrom or validTo is outside the window |
| DiscountValidator.OverrideBeatsDuration | src/main/java/com/atos/dynamicdiscount/processor/service/evaluation/DiscountValidator.java:71-74 | an override count other than -1 is the limit even when the duration is larger, and a missing apply count counts as zero |
| DiscountValidator.NoRulesNoRestriction | src/main/java/com/atos/dynamicdiscount/processor/service/evaluation/DiscountValidator.java:92-94 | with no rule for the discount the price group never refuses |
| DiscountValidator.AllowListIgnoresDenyList | src/main/java/com/atos/dynamicdiscount/processor/service/evaluation/DiscountValidator.java:104-116 | a non-empty restrict list decides alone, so the prohibited refusal cannot occur |
| DiscountValidator.AmbiguousRulesIgnored | src/main/java/com/atos/dynamicdiscount/processor/service/evaluation/DiscountValidator.java:89 | a rule with both or neither indicator set is ignored |
| DiscountValidator.StatusRules | src/main/java/com/atos/dynamicdiscount/processor/service/evaluation/DiscountValidator.java:185-205 | offer status O is always refused, S is refused unless the conf keeps suspended offers, anything else passes |
| DiscountCalculator.Priority | src/main/java/com/atos/dynamicdiscount/processor/service/evaluation/DiscountCalculator.java:130-148 | an offer's priority is at most 4, and 0 marks an offer the scan skips |
| DiscountCalculator.BestIndex | src/main/java/com/atos/dynamicdiscount/processor/service/evaluation/DiscountCalculator.java:120-157 | the index the scan ends with, if any, lies inside the offer list |
| DiscountCalculator.BestIndexIsFirstOfLeastPriority | src/main/java/com/atos/dynamicdiscount/processor/service/evaluation/DiscountCalculator.java:126-157 | no offer is found exactly when every offer is skipped; otherwise the found offer has the least non-zero priority and every earlier offer is skipped or strictly worse, so ties keep the first |
| DiscountCalculator.PriorityMatchesValidator | src/main/java/com/atos/dynamicdiscount/processor/service/evaluation/DiscountCalculator.java:130-148 | the scan skips an offer exactly when it fails the validator's TM/SN pattern or its date window |
| DiscountCalculator.EligibleCandidateFindsOffer | src/main/java/com/atos/dynamicdiscount/processor/service/evaluation/DiscountCalculator.java:41-43 | a candidate that passed the offer check always finds an offer, so the offer-missing exception cannot follow it |
| DiscountCalculator.FindOffer | src/main/java/com/atos/dynamicdiscount/processor/service/evaluation/DiscountCalculator.java:113-158 | the loop returns the offer of the specification's best index, and none exactly when every offer is skipped |
| DiscountCalculator.MonthNoAgreesWhenCounted | src/main/java/com/atos/dynamicdiscount/processor/service/evaluation/DiscountCalculator.java:46 | the month number as written succeeds exactly when an apply count is present and then equals the count plus one |
| DiscountCalculator.NullApplyCountAsWritten | src/main/java/com/atos/dynamicdiscount/processor/service/evaluation/DiscountCalculator.java:46 | a candidate with no apply count passes the validator's limit test as zero applications, yet the month number as written throws; the intended month is 1 |
| DiscountCalculator.GrantIdentity | src/main/java/com/atos/dynamicdiscount/processor/service/evaluation/DiscountCalculator.java:37-47 | compute fails exactly for a missing offer (offer-missing error) or a missing conf; on success the figures carry the request, the assignment, the count plus one, the conf's ALO indicator and the note "Successfully applied" |
| DiscountCalculator.GrantAmounts | src/main/java/com/atos/dynamicdiscount/processor/service/evaluation/DiscountCalculator.java:53-84 | a free month grants the live prices uncapped; otherwise the special month's or the offer's amounts, each capped at its price with the cap flag set exactly when it exceeded it; no ALO amount without the ALO indicator; the free and special flags are decided independently, so both can hold, and then the free month decides the amounts |
| DiscountCalculator.LastApplyRule | src/main/java/com/atos/dynamicdiscount/processor/service/evaluation/DiscountCalculator.java:86-88 | lastApply holds exactly when the conf has a duration other than -1 equal to this month, and the override count has no effect on the figures |
| DiscountCalculator.BestIndexUnchanged | src/main/java/com/atos/dynamicdiscount/processor/service/evaluation/DiscountCalculator.java:116-148 | the offer chosen depends only on the candidate's assign date, tariff model and service code |
| DiscountCalculator.ConfAmountsUnused | src/main/java/com/atos/dynamicdiscount/processor/service/evaluation/DiscountCalculator.java:76-77 | the default amounts come from the offer row; changing the conf's own amounts changes nothing |
| DiscountCalculator.ValidCandidateComputes | src/main/java/com/atos/dynamicdiscount/processor/service/evaluation/DiscountCalculator.java:37-47 | with the intended month number, every candidate the validator accepts computes without error |
| DiscountCalculator.Compute | src/main/java/com/atos/dynamicdiscount/processor/service/evaluation/DiscountCalculator.java:37-109 | compute returns the specification's error, or a fresh grant record carrying the specification's figures with both OCC flags false |
| DiscountEvaluation.RejectionMapKeys | src/main/java/com/atos/dynamicdiscount/processor/service/evaluation/DiscountEvaluationService.java:46-58 | the error map has an entry exactly for the ids of invalid candidates, so the remark's count is the number of distinct invalid ids |
| DiscountEvaluation.RejectionMapValue | src/main/java/com/atos/dynamicdiscount/processor/service/evaluation/DiscountEvaluationService.java:55 | each entry holds the reason of the last invalid candidate with that id |
| DiscountEvaluation.Partition | src/main/java/com/atos/dynamicdiscount/processor/service/evaluation/DiscountEvaluationService.java:50-63 | the single pass yields the valid candidates in input order and the error map of the specification |
| DiscountEvaluation.LatestIndex | src/main/java/com/atos/dynamicdiscount/processor/service/evaluation/DiscountEvaluationService.java:82-84 | the selected candidate is one no candidate is later than, by assign date then assign id, and every earlier candidate is strictly earlier |
| DiscountEvaluation.EvaluationShapes | src/main/java/com/atos/dynamicdiscount/processor/service/evaluation/DiscountEvaluationService.java:37-101 | an evaluation ends skipped (S) or failed (F) with no records, or with both records and the status and remark left null; a failure carries the evaluation-error remark |
| DiscountEvaluation.NoCandidatesSkipped | src/main/java/com/atos/dynamicdiscount/processor/service/evaluation/DiscountEvaluationService.java:41-43 | an empty candidate list is skipped as "No discounts provided" |
| DiscountEvaluation.AllInvalidSkipped | src/main/java/com/atos/dynamicdiscount/processor/service/evaluation/DiscountEvaluationService.java:67-79 | when every candidate is invalid the contract is skipped, the remark carrying one reason per distinct invalid id |
| DiscountEvaluation.SuccessRecords | src/main/java/com/atos/dynamicdiscount/processor/service/evaluation/DiscountEvaluationService.java:82-94 | on success the grant belongs to a valid candidate that no valid candidate is later than; the eval record copies the grant's ids, the cutoff, the contract and the conf's OCC settings |
| DiscountEvaluation.FailureAfterSelection | src/main/java/com/atos/dynamicdiscount/processor/service/evaluation/DiscountEvaluationService.java:90-100 | any exception while computing the selected candidate is caught and the contract is failed with the evaluation-error remark |
| DiscountEvaluation.LaterDateWins | src/main/java/com/atos/dynamicdiscount/processor/service/evaluation/DiscountEvaluationService.java:82-84 | of two valid candidates the later-dated one is granted, whatever their order |
| DiscountEvaluation.BuildResult | src/main/java/com/atos/dynamicdiscount/processor/service/evaluation/DiscountEvaluationService.java:103-108 | the status and remark are written onto the contract, which is returned with the records |
| DiscountEvaluation.EvaluateDiscounts | src/main/java/com/atos/dynamicdiscount/processor/service/evaluation/DiscountEvaluationService.java:37-101 | the contract's new status and remark and the returned records are those of the specification's evaluation; a grant is a fresh record with both OCC flags false |
| DiscountGranting.NonPositiveAmountNotAttempted | src/main/java/com/atos/dynamicdiscount/processor/service/granting/DiscountGrantingService.java:43-52 | a zero or negative amount makes no call, sets the flag false and raises nothing |
| DiscountGranting.DisabledCreatesWithoutCall | src/main/java/com/atos/dynamicdiscount/processor/service/granting/DiscountGrantingService.java:62-66 | with granting disabled a positive amount counts as created and no call is made |
| DiscountGranting.EnabledGrantCalls | src/main/java/com/atos/dynamicdiscount/processor/service/granting/DiscountGrantingService.java:57-96 | an enabled grant makes exactly one call with the contract's ids, the day before the cutoff in both date positions, the negated amount, the conf remark plus the type's suffix, the GL and service codes and the tariff model; the flag is set exactly when the call returned and only an SQL fault propagates |
| DiscountGranting.OnlySqlFaultPropagates | src/main/java/com/atos/dynamicdiscount/processor/service/granting/DiscountGrantingService.java:84-92 | nothing but an SQL fault of one of the calls ever leaves granting |
| DiscountGranting.AloNeedsIndicator | src/main/java/com/atos/dynamicdiscount/processor/service/granting/DiscountGrantingService.java:34-37 | without the ALO indicator only the offer is considered, at most one call is made and the ALO flag is untouched |
| DiscountGranting.OfferFailureStillGrantsAlo | src/main/java/com/atos/dynamicdiscount/processor/service/granting/DiscountGrantingService.java:30-37 | a non-SQL failure of the offer call is swallowed and the ALO discount is still granted, so both calls are made |
| DiscountGranting.SqlFailureStopsAlo | src/main/java/com/atos/dynamicdiscount/processor/service/granting/DiscountGrantingService.java:84-95 | an SQL failure of the offer call propagates at once with the offer flag false; the ALO is not attempted |
| DiscountGranting.FlagsIndependent | src/main/java/com/atos/dynamicdiscount/processor/service/granting/DiscountGrantingService.java:30-37 | the offer flag does not depend on the ALO amount, indicator or outcome, and granting changes no figure |
| DiscountGranting.WithFlagFrame | src/main/java/com/atos/dynamicdiscount/processor/service/granting/DiscountGrantingService.java:101-107 | setting one type's flag leaves the other flag and the figures as they were |
| DiscountGranting.SetOccCreatedFlag | src/main/java/com/atos/dynamicdiscount/processor/service/granting/DiscountGrantingService.java:101-107 | the grant's new state is the old one with that type's flag set |
| DiscountGranting.GrantOcc | src/main/java/com/atos/dynamicdiscount/processor/service/granting/DiscountGrantingService.java:57-96 | the flag is set in every case as the finally block does, the call (if any) is appended to the billing log, and the thrown fault is the specification's |
| DiscountGranting.GrantDiscountIfValid | src/main/java/com/atos/dynamicdiscount/processor/service/granting/DiscountGrantingService.java:43-52 | the grant, the billing log and the thrown fault are those of the per-type specification |
| DiscountGranting.GrantDiscount | src/main/java/com/atos/dynamicdiscount/processor/service/granting/DiscountGrantingService.java:30-38 | the grant's new flags, the calls appended and the fault raised are those of the granting specification of the old grant |
| DiscountLogging.StatusRule | src/main/java/com/atos/dynamicdiscount/processor/service/logging/DiscountLogService.java:51-55 | the status is F exactly when an adjustment with a non-zero amount was not created, and P otherwise |
| DiscountLogging.RemarkRule | src/main/java/com/atos/dynamicdiscount/processor/service/logging/DiscountLogService.java:56-70 | a P remark names exactly the adjustments created; an F remark names the failed ones, at least one |
| DiscountLogging.LoggedStatusPassesGuard | src/main/java/com/atos/dynamicdiscount/processor/service/logging/DiscountLogService.java:51-84 | whatever status recording writes onto a contract (P or F, or the evaluation's S or F) passes the contract's status guard |
| DiscountLogging.NegativeOfferAmountFails | src/main/java/com/atos/dynamicdiscount/processor/service/logging/DiscountLogService.java:52-55 | a negative offer amount is not attempted by granting, yet recording counts it as a failure and the contract ends F |
| DiscountLogging.AllCallsReturnedApplies | src/main/java/com/atos/dynamicdiscount/processor/service/logging/DiscountLogService.java:51-55 | with every call returning and non-negative amounts the contract ends P |
| DiscountLogging.NoGrantKeepsEvaluationOutcome | src/main/java/com/atos/dynamicdiscount/processor/service/logging/DiscountLogService.java:73-75 | without a grant the contract keeps the evaluation's status and remark, and no grant or assignment row is written |
| DiscountLogging.EarlyFailuresSkipLaterWrites | src/main/java/com/atos/dynamicdiscount/processor/service/logging/DiscountLogService.java:77-95 | a failing contract save writes nothing and rethrows; a failing eval save leaves only the contract written |
| DiscountLogging.MissingAssignRaises | src/main/java/com/atos/dynamicdiscount/processor/service/logging/DiscountLogService.java:108-122 | a missing assignment raises EntityNotFoundException after the grant row was written, and no assignment changes |
| DiscountLogging.SuccessfulRecording | src/main/java/com/atos/dynamicdiscount/processor/service/logging/DiscountLogService.java:77-123 | with every save returning, the contract, eval and grant rows are written and only the granted assignment changes: applied at the cutoff, its count advanced, expired on the last application |
| DiscountLogging.SqlFaultComesFromASave | src/main/java/com/atos/dynamicdiscount/processor/service/logging/DiscountLogService.java:77-122 | recording ends in an SQL fault only when one of its four saves raised it |
| DiscountLogging.RecordFrame | src/main/java/com/atos/dynamicdiscount/processor/service/logging/DiscountLogService.java:39-134 | recording writes only the contract, eval, grant and assignment tables and keeps the contract's key |
| DiscountLogging.RecordDiscountLifecycle | src/main/java/com/atos/dynamicdiscount/processor/service/logging/DiscountLogService.java:39-134 | with no contract nothing is written; otherwise the tables, the contract and the fault are those of the recording specification |
| ContractProcessing.GrantOnlyAfterSuccessfulEvaluation | src/main/java/com/atos/dynamicdiscount/processor/manager/ContractProcessor.java:62-69 | an evaluation without a grant makes no billing call and goes straight to recording |
| ContractProcessing.SavedStatusAccepted | src/main/java/com/atos/dynamicdiscount/processor/manager/ContractProcessor.java:59-72 | every status the pipeline saves onto a contract is S, F or P and passes the contract's status guard |
| ContractProcessing.CleanAttemptCompletes | src/main/java/com/atos/dynamicdiscount/processor/manager/ContractProcessor.java:48-74 | an attempt whose external calls all return completes and leaves the contract in S, F or P under its own key |
| ContractProcessing.SqlFaultWritesNothing | src/main/java/com/atos/dynamicdiscount/processor/manager/ContractProcessor.java:60-72 | when no save raises an SQL fault, an attempt ending in an SQL fault (from a billing call) has written no table |
| ContractProcessing.AttemptsBounded | src/main/java/com/atos/dynamicdiscount/processor/manager/ContractProcessor.java:43-46 | at least one and at most five attempts are made |
| ContractProcessing.FailureIsFinal | src/main/java/com/atos/dynamicdiscount/processor/manager/ContractProcessor.java:43-46 | a failed run ends with a fault that is not retryable or after the fifth attempt |
| ContractProcessing.FirstSuccessIsFinal | src/main/java/com/atos/dynamicdiscount/processor/manager/ContractProcessor.java:43-47 | a first attempt that completes is the only one and its effects are the run's |
| ContractProcessing.OtherFaultNotRetried | src/main/java/com/atos/dynamicdiscount/processor/manager/ContractProcessor.java:43-47 | a fault other than an SQL or persistence fault ends the run after one attempt with its writes rolled back |
| ContractProcessing.RetriedCallsRepeat | src/main/java/com/atos/dynamicdiscount/processor/manager/ContractProcessor.java:43-47 | the billing log keeps the calls of a failed attempt at the head of the run's calls, and a second attempt follows |
| ContractProcessing.FailedRunWritesNothing | src/main/java/com/atos/dynamicdiscount/processor/manager/ContractProcessor.java:43-47 | when no save raises an SQL fault, a run that ends in a fault leaves every table as it found it |
| ContractProcessing.AttemptFrame | src/main/java/com/atos/dynamicdiscount/processor/manager/ContractProcessor.java:48-74 | one attempt writes only contracts, evals, grants and assignments and keeps the contract's key |
| ContractProcessing.RetryFrame | src/main/java/com/atos/dynamicdiscount/processor/manager/ContractProcessor.java:43-74 | the whole run, retries included, writes only contracts, evals, grants and assignments |
| ContractProcessing.RetryStep | src/main/java/com/atos/dynamicdiscount/processor/manager/ContractProcessor.java:43-46 | a run is its first attempt followed, for a retryable fault with attempts left, by the rest of the run on the committed tables, the calls concatenated |
| ContractProcessing.ProcessContractAttempt | src/main/java/com/atos/dynamicdiscount/processor/manager/ContractProcessor.java:48-74 | one attempt leaves the tables, the contract and the billing log of the attempt specification and raises its fault |
| ContractProcessing.TransactionalAttempt | src/main/java/com/atos/dynamicdiscount/processor/manager/ContractProcessor.java:47 | the attempt's writes are kept unless it ended in a runtime fault, which rolls them back |
| ContractProcessing.RetryContract | src/main/java/com/atos/dynamicdiscount/processor/manager/ContractProcessor.java:43-46 | attempts from number k on leave the state of the retry specification from k |
| ContractProcessing.ProcessContract | src/main/java/com/atos/dynamicdiscount/processor/manager/ContractProcessor.java:43-74 | processContract under its retry policy leaves the tables, contract, billing log, fault and attempt count of the specification at the request's cutoff |
| BatchProcessing.PackIdUpdateReachesOtherRequests | src/main/java/com/atos/dynamicdiscount/repository/DynDiscPackageRepository.java:95-120 | the update selecting on the pack id alone rewrites the finished package with that number in an earlier request, where the keyed update leaves it alone |
| BatchProcessing.UpdatePackageTouchesOnlyItsRow | src/main/java/com/atos/dynamicdiscount/repository/DynDiscPackageRepository.java:95-120 | the keyed status update sets the status and the one date column of the package it names, keeps its other columns, and leaves every other row as it was |
| BatchProcessing.PackIdsWithMembers | src/main/java/com/atos/dynamicdiscount/repository/DynDiscPackageRepository.java:83-90 | a pack id is selected exactly when some package row of the request has it and the status asked for |
| BatchProcessing.AvailablePackagesSpec | src/main/java/com/atos/dynamicdiscount/repository/DynDiscPackageRepository.java:83-90 | the available packages are exactly the request's packages in status I, ascending by pack id |
| BatchProcessing.GroupByCoId | src/main/java/com/atos/dynamicdiscount/processor/manager/BatchProcessor.java:122-127 | the grouping has a key for exactly the contract ids that occur, each mapped to its candidates in query order |
| BatchProcessing.ContractGetsItsCandidates | src/main/java/com/atos/dynamicdiscount/processor/manager/BatchProcessor.java:197 | a contract receives exactly the candidates carrying its id, in query order, and none when it has none |
| BatchProcessing.ChunksPartition | src/main/java/com/atos/dynamicdiscount/processor/manager/BatchProcessor.java:136 | the chunks concatenate to the contract list, none is empty, none exceeds the chunk size and all but the last have exactly that size |
| BatchProcessing.ContractFailureIsolated | src/main/java/com/atos/dynamicdiscount/processor/manager/BatchProcessor.java:195-212 | a contract whose processing raises has every row of it in the request set to F with the fault as remark, and nothing else changes; a completed contract keeps what its pipeline wrote |
| BatchProcessing.ContractStepFrame | src/main/java/com/atos/dynamicdiscount/processor/manager/BatchProcessor.java:195-202 | processing one contract writes nothing outside the contract, evaluation, grant and assignment tables |
| BatchProcessing.ContractsRunFrame | src/main/java/com/atos/dynamicdiscount/processor/manager/BatchProcessor.java:195-202 | a run of contracts writes nothing outside the pipeline's tables and only appends to the billing calls |
| BatchProcessing.ContractsRunAppend | src/main/java/com/atos/dynamicdiscount/processor/manager/BatchProcessor.java:195-202 | running two lists one after the other is running their concatenation |
| BatchProcessing.ChunksRunFlatten | src/main/java/com/atos/dynamicdiscount/processor/manager/BatchProcessor.java:143-169 | running the chunks one after another is running their concatenation |
| BatchProcessing.ChunkingIsInvisible | src/main/java/com/atos/dynamicdiscount/processor/manager/BatchProcessor.java:134-180 | whatever the chunk size, the chunks run every contract of the package once, in list order |
| BatchProcessing.PackageEndsProcessedOrFailed | src/main/java/com/atos/dynamicdiscount/processor/manager/BatchProcessor.java:96-120 | a package ends F exactly when a query raised or its contracts could not be partitioned, P otherwise; every package row the status updates reach (with the updates as written, every row with that pack id, of any request) gets that status and both dates, and no other package row changes |
| BatchProcessing.PackageRunsItsContracts | src/main/java/com/atos/dynamicdiscount/processor/manager/BatchProcessor.java:102-113 | a package that does not fail runs each of its contracts once, in order, with its candidates; an empty or failing package runs none |
| BatchProcessing.NoAvailablePackageNoChange | src/main/java/com/atos/dynamicdiscount/processor/manager/BatchProcessor.java:64-69 | a request without a package in status I changes nothing |
| BatchProcessing.PackIdRunRewritesSharedPackIds | src/main/java/com/atos/dynamicdiscount/processor/manager/BatchProcessor.java:62-120 | with the updates as written, processing a request's packages leaves every package row whose pack id was processed, of whatever request, in P or F with the run's start and end dates, and every other row as it was |
| BatchProcessing.OtherRequestsUntouched | src/main/java/com/atos/dynamicdiscount/repository/DynDiscPackageRepository.java:95-120 | the corrected flow, with updates on the request id and pack id, leaves the package rows of every other request as they were |
| BatchProcessing.PackageRunKeepsRequests | src/main/java/com/atos/dynamicdiscount/processor/manager/BatchProcessor.java:96-120 | processing a package leaves the request table as it was |
| BatchProcessing.PackagesRunKeepsRequests | src/main/java/com/atos/dynamicdiscount/processor/manager/BatchProcessor.java:62-90 | processing a list of packages leaves the request table as it was |
| BatchProcessing.HandleContractProcessingError | src/main/java/com/atos/dynamicdiscount/processor/manager/BatchProcessor.java:208-212 | the contract's rows in the request become F with the fault as remark |
| BatchProcessing.ProcessChunkContract | src/main/java/com/atos/dynamicdiscount/processor/manager/BatchProcessor.java:196-201 | one contract's processing and error handling leave the tables and calls of the contract step |
| BatchProcessing.ProcessContractChunk | src/main/java/com/atos/dynamicdiscount/processor/manager/BatchProcessor.java:188-205 | the chunk loop leaves the tables and calls of running its contracts in order |
| BatchProcessing.ProcessContractChunks | src/main/java/com/atos/dynamicdiscount/processor/manager/BatchProcessor.java:134-180 | a chunk size the partition refuses raises and writes nothing; otherwise the chunks run one after another |
| BatchProcessing.UpdatePackageStatus | src/main/java/com/atos/dynamicdiscount/repository/DynDiscPackageRepository.java:95-120 | the status and the one date column of every package row with the pack id, in any request, are set; nothing else changes |
| BatchProcessing.ProcessPackage | src/main/java/com/atos/dynamicdiscount/processor/manager/BatchProcessor.java:96-132 | processPackage leaves the tables and calls of the package specification with the pack-id-only updates |
| BatchProcessing.ProcessRequestPackages | src/main/java/com/atos/dynamicdiscount/processor/manager/BatchProcessor.java:62-90 | processRequestPackages leaves the tables and calls of running the request's available packages in pack id order, with the pack-id-only updates |
| RequestService.FirstWhere | src/main/java/com/atos/dynamicdiscount/processor/service/request/DiscountRequestService.java:164-168 | nothing is found exactly when no row satisfies the condition; a row found satisfies it, is in the table and no earlier row does |
| RequestService.OngoingRequestRule | src/main/java/com/atos/dynamicdiscount/processor/service/request/DiscountRequestService.java:164-168 | there is no ongoing request exactly when no request is in W; one found is in W and in the table |
| RequestService.RequestByIdRule | src/main/java/com/atos/dynamicdiscount/processor/service/request/DiscountRequestService.java:170-172 | no request is found exactly when no row has the id; one found has it and is in the table |
| RequestService.MappedCoIds | src/main/java/com/atos/dynamicdiscount/processor/service/request/DiscountRequestService.java:86-115 | the mapped contracts carry exactly the contract ids of the eligible rows |
| RequestService.MappedDistinct | src/main/java/com/atos/dynamicdiscount/processor/service/request/DiscountRequestService.java:90-94 | no contract id is mapped twice |
| RequestService.MappedFromFirstRows | src/main/java/com/atos/dynamicdiscount/processor/service/request/DiscountRequestService.java:92-110 | each mapped contract is made of the first eligible row with its contract id, in the new request, status I |
| RequestService.MappedContractsPrefix | src/main/java/com/atos/dynamicdiscount/processor/service/request/DiscountRequestService.java:92-111 | mapping a longer input extends the mapping of a shorter one, so input order is kept |
| RequestService.MappedContractsPending | src/main/java/com/atos/dynamicdiscount/processor/service/request/DiscountRequestService.java:95-102 | every contract of a new request is I, without remark, in that request |
| RequestService.MapToDynDiscContracts | src/main/java/com/atos/dynamicdiscount/processor/service/request/DiscountRequestService.java:87-115 | the loop with its set of processed contract ids produces the first-row-per-contract-id mapping |
| RequestService.SaveContractsSpec | src/main/java/com/atos/dynamicdiscount/processor/service/request/DiscountRequestService.java:118-124 | saving contracts with distinct keys stores each of them and keeps every row they do not name |
| RequestService.SaveRequestStores | src/main/java/com/atos/dynamicdiscount/processor/service/request/DiscountRequestService.java:120 | a saved request is in the table |
| RequestService.MappedKeysDistinct | src/main/java/com/atos/dynamicdiscount/processor/service/request/DiscountRequestService.java:90-94 | the contracts of a new request have pairwise different keys |
| RequestService.SavedContractsOfRequest | src/main/java/com/atos/dynamicdiscount/processor/service/request/DiscountRequestService.java:118-124 | saving one request's contracts stores each and keeps the rows of every other request |
| RequestService.RegistrationRule | src/main/java/com/atos/dynamicdiscount/processor/service/request/DiscountRequestService.java:50-64 | without eligible contracts nothing is written and no request made; otherwise a request in W with the cycle and cutoff is stored with one I contract per contract id, other requests' contracts kept |
| RequestService.RegisterNewRequest | src/main/java/com/atos/dynamicdiscount/processor/service/request/DiscountRequestService.java:50-64 | the configuration is refreshed first; a refused refresh raises and writes nothing; otherwise the tables and request of the registration specification |
| RequestService.FinalizeRule | src/main/java/com/atos/dynamicdiscount/processor/service/request/DiscountRequestService.java:126-148 | an unknown request raises; a finalized request is F exactly when one of its contracts is F, P otherwise, with the status date; the statistics end date is written only without failures; nothing else changes; no fault is an SQL fault |
| RequestService.FinalizedStatus | src/main/java/com/atos/dynamicdiscount/processor/service/request/DiscountRequestService.java:131-136 | a successful finalization leaves the request in F or P |
| RequestService.CleanRequestFinalizes | src/main/java/com/atos/dynamicdiscount/processor/service/request/DiscountRequestService.java:126-148 | a known request with contracts and no failed one is finalized without a fault |
| RequestService.FinalizeRequest | src/main/java/com/atos/dynamicdiscount/processor/service/request/DiscountRequestService.java:126-148 | finalizeRequest leaves the tables of the finalization, or raises its fault with every write rolled back |
| RequestService.ResetRule | src/main/java/com/atos/dynamicdiscount/repository/DynDiscContractRepository.java:112-121 | after a reset the request's I and F contracts are I, no contract of it is F, P and S contracts and other requests are untouched, and the count is positive exactly when some contract was I or F |
| RequestService.ResetCountPositive | src/main/java/com/atos/dynamicdiscount/repository/DynDiscContractRepository.java:112-121 | the number of rows reset is positive exactly when some contract of the request is I or F |
| RequestService.ResetFailedContractsAndPackages | src/main/java/com/atos/dynamicdiscount/processor/manager/ExecutionManager.java:135 | the reset leaves the tables and count of the reset specification |
| ExecutionManagement.ParseInt | src/main/java/com/atos/dynamicdiscount/processor/manager/ExecutionManager.java:108-115 | a request number that parses is a 32-bit value written as an optional sign and at least one decimal digit |
| ExecutionManagement.ParseIntRoundTrip | src/main/java/com/atos/dynamicdiscount/processor/manager/ExecutionManager.java:110 | every 32-bit integer reads back from its decimal form |
| ExecutionManagement.ParseIntRefusesMalformed | src/main/java/com/atos/dynamicdiscount/processor/manager/ExecutionManager.java:110-115 | an empty string, a bare sign, a trailing letter and a leading blank are refused |
| ExecutionManagement.ParseIntRefusesOutOfRange | src/main/java/com/atos/dynamicdiscount/processor/manager/ExecutionManager.java:110-115 | a decimal value beyond the 32-bit range is refused, with or without its minus sign |
| ExecutionManagement.InvalidModeChangesNothing | src/main/java/com/atos/dynamicdiscount/processor/manager/ExecutionManager.java:46-56 | a mode other than c and r is reported and changes nothing |
| ExecutionManagement.NewRequestRefusedWhileOngoing | src/main/java/com/atos/dynamicdiscount/processor/manager/ExecutionManager.java:65-70 | while some request is W a new request is refused and nothing changes |
| ExecutionManagement.NewRequestNeedsValidCycleAndFreshConfig | src/main/java/com/atos/dynamicdiscount/processor/manager/ExecutionManager.java:62-99 | a new request is registered only for one of the four bill cycles with a cutoff not in the future, after refreshes that succeeded, and is processed with the configuration built from the tables and the next request id |
| ExecutionManagement.ProcessRequestFinalizes | src/main/java/com/atos/dynamicdiscount/processor/manager/ExecutionManager.java:156-164 | processing runs the packages and then finalizes the given request: without a fault it ends F or P, and the not-found fault comes exactly when the request is missing |
| ExecutionManagement.ResumeRules | src/main/java/com/atos/dynamicdiscount/processor/manager/ExecutionManager.java:105-150 | an unparsable number, an unknown id, a request in W or P and an unexpected status change nothing; an F request with nothing reset makes no billing call; only an F request is processed |
| ExecutionManagement.UpdateKeepsWellFormed | src/main/java/com/atos/dynamicdiscount/processor/manager/ExecutionManager.java:156-164 | setting a request's status to F or P keeps the ids unique and at most one request W |
| ExecutionManagement.SaveKeepsWellFormed | src/main/java/com/atos/dynamicdiscount/processor/manager/ExecutionManager.java:65-90 | registering a W request while none is W keeps the ids unique and at most one request W |
| ExecutionManagement.ProcessRequestKeepsWellFormed | src/main/java/com/atos/dynamicdiscount/processor/manager/ExecutionManager.java:156-164 | processing a request keeps the ids unique and at most one request W |
| ExecutionManagement.NewRequestKeepsWellFormed | src/main/java/com/atos/dynamicdiscount/processor/manager/ExecutionManager.java:62-99 | the new-request path keeps the ids unique and at most one request W |
| ExecutionManagement.ResumeKeepsWellFormed | src/main/java/com/atos/dynamicdiscount/processor/manager/ExecutionManager.java:105-150 | the resume path keeps the ids unique and at most one request W |
| ExecutionManagement.AtMostOneOngoingRequest | src/main/java/com/atos/dynamicdiscount/processor/manager/ExecutionManager.java:42-57 | every run of processDiscounts keeps the request ids unique and at most one request in W |
| ExecutionManagement.ProcessRequest | src/main/java/com/atos/dynamicdiscount/processor/manager/ExecutionManager.java:156-164 | processRequest leaves the world and outcome of the processing specification |
| ExecutionManagement.ProcessNewRequest | src/main/java/com/atos/dynamicdiscount/processor/manager/ExecutionManager.java:62-99 | processNewRequest leaves the world and outcome of the new-request specification |
| ExecutionManagement.ProcessResumeRequest | src/main/java/com/atos/dynamicdiscount/processor/manager/ExecutionManager.java:105-150 | processResumeRequest leaves the world and outcome of the resume specification |
| ExecutionManagement.ProcessDiscounts | src/main/java/com/atos/dynamicdiscount/processor/manager/ExecutionManager.java:42-57 | processDiscounts never raises and leaves the world and outcome of the dispatch specification |
| GmdActions.FirstWithAction | src/main/java/com/atos/dynamicdiscount/listener/service/GmdActionHandler.java:51-58 | an action found is in the list and has the id; nothing is found exactly when no action in the list has it |
| GmdActions.GetActionRoundTrip | src/main/java/com/atos/dynamicdiscount/enums/GmdAction.java:3-16 | every action is found by its own id |
| GmdActions.KnownActionIds | src/main/java/com/atos/dynamicdiscount/enums/GmdAction.java:4-5 | exactly the ids 1, 2, 3, 4, 5, 8 and 9 name an action |
| DiscountStates.CodesDistinct | src/main/java/com/atos/dynamicdiscount/enums/DynDiscountState.java:3-16 | the codes A, S and D are pairwise different, so a stored code names one state |
| GmdActionHandling.LatestAssign | src/main/java/com/atos/dynamicdiscount/repository/DynDiscAssignRepository.java:19-20 | the assignment found is live, of the contract and service, with the highest id among those; none is found exactly when there is no such assignment |
| GmdActionHandling.MaxSeqno | src/main/java/com/atos/dynamicdiscount/repository/DynDiscAssignStateRepository.java:13-14 | the result bounds every seqno of the assignment's state rows and is 0 when it has none |
| GmdActionHandling.NextSeqnoIsFresh | src/main/java/com/atos/dynamicdiscount/listener/service/GmdActionHandler.java:98-102 | the next seqno names no existing state row, and is 1 for an assignment without state rows |
| GmdActionHandling.AddStateFramed | src/main/java/com/atos/dynamicdiscount/listener/service/GmdActionHandler.java:98-110 | adding a state row changes only the state rows, keeps every existing one, and raises only when its save failed |
| GmdActionHandling.AddNewInstanceFramed | src/main/java/com/atos/dynamicdiscount/listener/service/GmdActionHandler.java:60-71 | adding an instance changes only assignments and state rows, keeps every existing state row, and raises only when a save failed |
| GmdActionHandling.UpdateInstanceFramed | src/main/java/com/atos/dynamicdiscount/listener/service/GmdActionHandler.java:73-96 | a status update changes only assignments and state rows, keeps every existing state row, and raises only when a save failed |
| GmdActionHandling.HandlerFrame | src/main/java/com/atos/dynamicdiscount/listener/service/GmdActionHandler.java:37-49 | handling a request writes only assignments and state rows, never alters an existing state row, and raises only for an unknown action or a save that failed other than by an integrity violation |
| GmdActionHandling.UnknownActionRaises | src/main/java/com/atos/dynamicdiscount/listener/service/GmdActionHandler.java:39-41 | an action id outside the enum makes the switch raise and nothing is written |
| GmdActionHandling.IntegrityViolationsSwallowed | src/main/java/com/atos/dynamicdiscount/listener/service/GmdActionHandler.java:67-70 | with no save failing other than by an integrity violation, a known action never raises |
| GmdActionHandling.ActivationAddsAssignment | src/main/java/com/atos/dynamicdiscount/listener/service/GmdActionHandler.java:42 | activation and service assignment add the new assignment, with apply count 0, no overwrite count and the valid-from date, and its A state row with the next seqno, 1 for the first |
| GmdActionHandling.DeactivationClosesLatest | src/main/java/com/atos/dynamicdiscount/listener/service/GmdActionHandler.java:43-44 | the deactivations and service removal give the latest live assignment the valid-from date as delete date and a D state row; no other assignment changes |
| GmdActionHandling.StatusChangeKeepsAssignment | src/main/java/com/atos/dynamicdiscount/listener/service/GmdActionHandler.java:45-46 | reactivation adds an A state row and suspension an S state row to the latest live assignment, which is otherwise left as it was |
| GmdActionHandling.NoLiveAssignmentNoWrite | src/main/java/com/atos/dynamicdiscount/listener/service/GmdActionHandler.java:91-94 | a status change with no live assignment of the contract and service writes nothing and does not raise |
| GmdActionHandling.AddAssignState | src/main/java/com/atos/dynamicdiscount/listener/service/GmdActionHandler.java:98-110 | addAssignState leaves the tables and fault of the state-row specification |
| GmdActionHandling.AddNewDiscountInstance | src/main/java/com/atos/dynamicdiscount/listener/service/GmdActionHandler.java:60-71 | addNewDiscountInstance leaves the tables and fault of the new-instance specification |
| GmdActionHandling.UpdateDiscountInstanceStatus | src/main/java/com/atos/dynamicdiscount/listener/service/GmdActionHandler.java:73-96 | updateDiscountInstanceStatus leaves the tables and fault of the status-update specification |
| GmdActionHandling.HandleAction | src/main/java/com/atos/dynamicdiscount/listener/service/GmdActionHandler.java:37-49 | handleAction leaves the tables and fault of the dispatch specification |
| GmdRequestProcessing.HistoryRows | src/main/java/com/atos/dynamicdiscount/repository/DynDiscGmdQueueRepository.java:136-143 | one archive row per request number, in the given order, each with the given status |
| GmdRequestProcessing.OtherOwnerAbortsJob | src/main/java/com/atos/dynamicdiscount/listener/service/GmdRequestService.java:102-119 | a registry row held by another process, or no registry row, aborts the job with nothing written |
| GmdRequestProcessing.SkipQueue | src/main/java/com/atos/dynamicdiscount/repository/DynDiscGmdQueueRepository.java:102-153 | after skipping, the queue holds exactly the entries that were neither skipped already nor unqualified, unchanged |
| GmdRequestProcessing.SkipHistory | src/main/java/com/atos/dynamicdiscount/repository/DynDiscGmdQueueRepository.java:136-143 | skipping only appends to the archive, and every skipped or unqualified entry gets an S archive row |
| GmdRequestProcessing.SkipArchivesUnqualified | src/main/java/com/atos/dynamicdiscount/repository/DynDiscGmdQueueRepository.java:102-165 | skipping removes exactly the skipped and unqualified entries, archives each as S, keeps the other entries as they were and writes no other table |
| GmdRequestProcessing.FetchInitialRequestsSpec | src/main/java/com/atos/dynamicdiscount/repository/DynDiscGmdQueueRepository.java:26-43 | the fetched requests are every initial entry with a configured service change, each once, by ascending request number, with its own fields |
| GmdRequestProcessing.ItemFate | src/main/java/com/atos/dynamicdiscount/listener/service/GmdRequestService.java:67-80 | an entry handled without a fault leaves the queue with one P archive row; one whose handler raised stays, marked E |
| GmdRequestProcessing.ItemStepQueue | src/main/java/com/atos/dynamicdiscount/listener/service/GmdRequestService.java:67-80 | one pass changes the queue only at the entry's own request number and leaves it archived or E |
| GmdRequestProcessing.ItemsRunFrame | src/main/java/com/atos/dynamicdiscount/listener/service/GmdRequestService.java:67-80 | the loop writes only assignments, state rows, the queue and its archive, and keeps the registry row |
| GmdRequestProcessing.ItemsRunClearsInitials | src/main/java/com/atos/dynamicdiscount/listener/service/GmdRequestService.java:67-80 | when marking an entry E succeeds, every initial entry handed to the loop ends archived or E |
| GmdRequestProcessing.ErrorMarkFaultEndsLoop | src/main/java/com/atos/dynamicdiscount/listener/service/GmdRequestService.java:67-84 | when the handler raises and markAsError raises too, the loop ends at that entry: the queue and its archive are as before it, so the entry stays initial and no later entry is handled |
| GmdRequestProcessing.JobSettlesQueue | src/main/java/com/atos/dynamicdiscount/listener/service/GmdRequestService.java:37-93 | a job that claims the registry row writes only the listener's tables and frees the row again; when markAsError succeeds it leaves no entry initial |
| GmdRequestProcessing.InitializeJob | src/main/java/com/atos/dynamicdiscount/listener/service/GmdRequestService.java:102-128 | initializeJob claims a free registry row for the process and answers whether it did |
| GmdRequestProcessing.ClearProcessId | src/main/java/com/atos/dynamicdiscount/repository/DynDiscProcessRepository.java:40-44 | clearProcessId frees the registry row only when this process holds it |
| GmdRequestProcessing.SkipUnqualifiedAndArchive | src/main/java/com/atos/dynamicdiscount/repository/DynDiscGmdQueueRepository.java:159-165 | the three statements leave the tables of the skip specification |
| GmdRequestProcessing.MarkAsProcessedAndArchive | src/main/java/com/atos/dynamicdiscount/repository/DynDiscGmdQueueRepository.java:46-89 | an entry in the queue leaves it with a P archive row; otherwise nothing changes |
| GmdRequestProcessing.MarkAsError | src/main/java/com/atos/dynamicdiscount/repository/DynDiscGmdQueueRepository.java:91-100 | when the update is refused it raises and changes nothing; otherwise an entry in the queue is marked E and nothing else changes |
| GmdRequestProcessing.ProcessJob | src/main/java/com/atos/dynamicdiscount/listener/service/GmdRequestService.java:37-93 | processJob leaves the tables of the job specification, including the early end of the loop when markAsError raises |
| Entities.DynDiscContract.FromRow | src/main/java/com/atos/dynamicdiscount/model/entity/DynDiscContract.java:22-53 | the contract object holds exactly the columns of its row |
| Entities.GrantHistory.constructor | src/main/java/com/atos/dynamicdiscount/model/entity/DynDiscGrantHistory.java:22-66 | a new grant history record holds its figures with neither adjustment flag set |

## Left out

- Overlapping runs: the controller hands each request to an asynchronous executor on a thread pool, so two runs of processDiscounts can overlap. Two "c" runs can both pass the check for a W request before either registers its own, and the tables then hold two W requests. Overlapping runs are not modelled, and `ExecutionManagement.AtMostOneOngoingRequest` is about one run at a time.
- Concurrency: the package and chunk pools, semaphores, futures and the executor are not modelled. Packages, chunks and contracts run one after another in list order, and the synchronized configuration refresh is an ordinary call.
- Retry timing: the 2000 ms back-off that doubles after each attempt is not modelled. A retry is the next attempt on the committed tables.
- ContractProcessing.RetryContract: the recovery method's parameter list does not match processContract's, so the exception class that reaches the batch error handler is not modelled; the failing attempt's fault is passed on. This holds after the fifth attempt and equally for a fault outside the retried classes, which Spring Retry also sends straight to recovery.
- Billing calls and rollback: the billing log records every call an attempt makes, including the calls of an attempt that is later rolled back or retried. The procedure is called through a JdbcTemplate on the only data source, so it runs on the attempt's transactional connection and its work is rolled back with the attempt unless the procedure commits on its own. The procedure's body is not part of this model, so whether a rolled-back attempt's adjustment survives, and a retried contract is billed twice, is not modelled.
- The stored procedure itself: each call's outcome (returns, SQL fault, other fault) is a parameter. Spring's translation of SQL exceptions into its own exception hierarchy is not modelled: a billing fault is taken to arrive as the class the granting code catches.
- Floating point: Float and BigDecimal amounts are integers. Capping, negation and comparison keep their meaning; rounding does not occur.
- Clocks and time zones: every LocalDateTime.now() of one run is the single `now` of its environment. The system-zone conversion of service valid-from dates is the identity.
- Remark and log wording: remarks are structured values (`Entities.Remark`) rather than the formatted strings, and logging is left out.
- SQL query mechanics: query answers are parameters and the rest are plain reads of the abstract tables. This covers the eligible-contracts query, the candidate query with its CTE, the contract query of a package, the statistics query and the GMD join. The GMD join is taken to give at most one service change per queue entry (`GmdRequestProcessing.JobEnv.joined` is a map), so duplicate join rows are not modelled.
- Statistics: only the end date of a request's statistics row is modelled, and the row's presence is taken to follow from the request having contracts.
- Registration: the package a new contract belongs to is given by a parameter (`packOf`). The visible registration code never sets the pack id, and package rows are not created there. Save failures during registration are not modelled.
- RequestService.RegisterNewRequest: request ids come from a parameter (`nextId`), so `getNextAvailableRequestId` and any clash with an existing id are not modelled beyond the table's save semantics.
- ExecutionManagement: the source assigns the void result of validateBillCycle and the result object of registerNewRequest to variables of other types. The model follows the evident intent: a refused bill cycle ends the run, and the registered request is processed.
- ExecutionManagement: resetFailedContractsAndPackages is called but not defined in the source. It is modelled from its name and from the contract reset query: the I and F contracts of the request go to I, and every package of the request then holding an I contract goes back to I.
- BatchProcessing: fetchContractsForPackage and updateContractStatusAndRemark are called but not defined in the source. They are modelled as the query's answer (a parameter) and as a status and remark update of the contract's rows in the request.
- BatchProcessing: failures of the error handlers' own updates are not modelled. The package or contract status update in an error path always succeeds.
- DiscountCalculator.GrantFor (with GrantIdentity, GrantAmounts, LastApplyRule and Compute): the month number is the corrected one, a missing apply count counting as 0, where line 46 of the calculator throws on it. The candidate query selects `NVL(apply_count, 0)`, so no candidate the batch processor fetches has a missing count and the two agree on every input the flow produces.
- BatchProcessing.PackageRun, PackagesRun and RequestPackagesRun take the rows the package updates reach as a parameter (`Selector`). The service methods use the updates as written (pack id only); OtherRequestsUntouched holds only for the keyed variant.
- Entities: the contract id class lists three key columns while the entity has four. The model keys contracts by all four (request, pack, customer, contract).
- ExecutionManagement.ResumeOf: a request whose status is null would make the status switch raise; statuses are non-null strings in the model.
- ExecutionManagement.ParseInt: Java's parser also accepts non-ASCII decimal digits. The model accepts the ASCII digits 0-9 only.
- Null columns the core unboxes are non-null in the model: the Boolean indicators, the offer's tariff model and service code (`Entities.Offer.tmcode` and `sncode`, compared with -1 in the calculator and the validator) and the candidate's offer service code (`Entities.AssignDto.offerSnCode`, read with `intValue()` in the calculator). A null there, which the source would unbox into a null-dereference exception, is not represented. Three further groups of nullable columns are plain integers in the model, so a null in them is not represented either:
  - `Entities.Offer.offerDiscAmt` and `aloDiscAmt` (Float). The calculator assigns them to primitive floats, so a null raises a null-dereference exception, and the evaluation's catch then ends the contract F with the evaluation-error remark.
  - `Entities.AssignDto.tmCode` (Integer). The validator and the calculator compare it with `equals`, so a null raises nothing and silently fails every pattern that names a tariff model.
  - `Entities.Assign.gmdRequest` and `Entities.AssignState.gmdRequest` (Integer). They are null on assignment rows the listener did not create, and the skip query's `EXISTS ... GMD_REQUEST = q.REQUEST` never matches a null, so such rows never cause a queue entry to be skipped.
- GmdActionHandling: the handler receives the queue entry joined with its service change (GmdRequest), whereas the source passes one DTO type where the handler's signature names another. A null valid-from date, which would raise when converted, is not represented.
- GmdActionHandling: the listener's @Transactional annotations are bypassed by self-invocation, so every save commits on its own; the model writes each save separately. A data-integrity violation is decided at the save, not later at commit.
- GmdActionHandling.NewAssign: the assignment entity declares neither an override count nor a user name, yet the handler sets both when it builds a new assignment, so the source does not compile there. The model follows the evident intent: the override count of a new assignment is absent (`Entities.Assign.ovwApplyCount` is `None`, as `ActivationAddsAssignment` states), and the user name column, filled from the data-source configuration, is not modelled.
- GmdRequestProcessing: markAsError is an update query with no transaction of its own, and neither processJob nor the scheduler opens one; JPA then refuses the update. Whether it raises is the parameter `JobEnv.markErrorRaises`. When it raises, the first handler failure ends the loop (`ErrorMarkFaultEndsLoop`), and `JobSettlesQueue` promises an empty initial queue only when it does not.
- GmdRequestProcessing: faults of the other queue updates, of the skip statement and of the registry updates are not modelled. They commit or are ignored as the code around them does when they succeed.
- GmdRequestProcessing.ArchiveSkipped: the INSERT ... SELECT fixes no order; the model appends the skipped entries in ascending request order.
- GmdRequestProcessing.JobOf: the operating-system process id is a parameter.
- getContractsByStatus in the request service is a read-only look-up that nothing in the modelled flow calls. It is not modelled.
- Monitoring, schedulers, connection-pool configuration, the HTTP controller and application bootstrap are outside the modelled core.

## Findings

| source | as written | input that shows it | evidently intended | confidence | as-written member | corrected member |
|---|---|---|---|---|---|---|
| src/main/java/com/atos/dynamicdiscount/processor/service/evaluation/DiscountCalculator.java:46 | the month number calls `intValue()` on the apply count before wrapping it in an Optional, so a null apply count throws | a candidate with apply count null and a configuration that the validator accepts (it reads a null count as 0); the candidate query of the batch processor selects `NVL(apply_count, 0)`, so it cannot produce this input, and only another caller of compute could | a null apply count is month 1, as the validator already assumes | not executed | DiscountCalculator.NullApplyCountAsWritten | DiscountCalculator.ValidCandidateComputes |
| src/main/java/com/atos/dynamicdiscount/repository/DynDiscPackageRepository.java:95-120 | the package status updates select on `pack_id` alone | request 2 processing pack 1 while request 1 also has a finished pack 1: the W/P/F update rewrites request 1's package too (PackIdRunRewritesSharedPackIds states this for the whole flow) | update only the package of the request being processed (request id and pack id) | not executed | BatchProcessing.PackIdUpdateReachesOtherRequests | BatchProcessing.UpdatePackageTouchesOnlyItsRow |
