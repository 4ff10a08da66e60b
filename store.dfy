// The persistent state the system reads and writes, as in-memory tables, and
// the billing system's adjustment procedure as a log of calls.  A repository
// save or a procedure call either returns or raises a fault; which one is an
// input of the model (the environment's choice).
module Store {
  import opened Wrappers
  import opened Entities

  /** How one external call ended. */
  datatype CallOutcome = Returned | Raised(fault: Fault)

  /** The faults the contract pipeline retries: SQLException and PersistenceException. */
  predicate Retryable(f: Fault)
  {
    f.SqlFault? || f.PersistenceFault?
  }

  /** The arguments of one call of the billing system's "add adjustment" procedure. */
  datatype OccCall = OccCall(
    customerId: int,
    coId: int,
    validFrom: int,
    amount: int,
    remark: string,
    glcode: Option<string>,
    sncode: Option<int>,
    tmCode: int,
    secondDate: int)

  /** The tables of the discount schema. */
  datatype Tables = Tables(
    requests: seq<RequestRow>,                  // keyed by request id, in insertion order
    packages: seq<PackageRow>,                  // keyed by (request id, pack id), in insertion order
    contracts: map<ContractKey, ContractRow>,
    evals: map<HistoryKey, EvalHistory>,
    grants: map<HistoryKey, GrantRow>,
    assigns: map<int, Assign>,
    statistics: map<int, Statistic>,
    assignStates: map<StateKey, AssignState>,
    queue: map<int, QueueItem>,                 // by listener request number
    queueHistory: seq<QueueHistItem>,
    process: Option<Option<int>>)               // the registry row (None: no row) and its process id

  /** The database: one mutable set of tables. */
  class Database {
    var tables: Tables

    constructor (t: Tables)
      ensures tables == t
    {
      tables := t;
    }
  }

  /** The billing system, seen only through the adjustment calls made to it. */
  class Billing {
    var calls: seq<OccCall>

    constructor ()
      ensures calls == []
    {
      calls := [];
    }
  }
}
