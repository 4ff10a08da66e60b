// The batch processor: the packages of a request with status I, in pack id
// order; for each, W at start, the discount candidates grouped by contract,
// the contracts split into chunks and run one by one through the contract
// pipeline, then P, or F when the package itself fails.  A contract whose
// pipeline fails is marked F on its own and the run goes on.  Packages and
// chunks are processed one after another here.
module BatchProcessing {
  import opened Wrappers
  import opened Entities
  import opened Store
  import opened Configurations
  import opened DiscountLogging
  import opened ContractProcessing
  import Sorting
  import Seqs

  // ---- the package table ----

  /** The date column a package status update writes. */
  datatype DateColumn = StartDate | EndDate

  function WithStatus(p: PackageRow, status: string, column: DateColumn, date: int): PackageRow
  {
    match column
    case StartDate => p.(status := status, startDate := Some(date))
    case EndDate => p.(status := status, endDate := Some(date))
  }

  predicate IsPackage(p: PackageRow, requestId: int, packId: int)
  {
    p.requestId == requestId && p.packId == packId
  }

  /**
   * The package status updates as written: they select on the pack id alone,
   * so they reach the package with that number in every request.
   */
  function UpdatePackagesByPackId(rows: seq<PackageRow>, packId: int, status: string, column: DateColumn, date: int)
    : (r: seq<PackageRow>)
    ensures |r| == |rows|
  {
    seq(|rows|, i requires 0 <= i < |rows| =>
      if rows[i].packId == packId then WithStatus(rows[i], status, column, date) else rows[i])
  }

  /** The package status update on the table's key, the request id and the pack id. */
  function UpdatePackage(rows: seq<PackageRow>, requestId: int, packId: int, status: string, column: DateColumn, date: int)
    : (r: seq<PackageRow>)
    ensures |r| == |rows|
  {
    seq(|rows|, i requires 0 <= i < |rows| =>
      if IsPackage(rows[i], requestId, packId) then WithStatus(rows[i], status, column, date) else rows[i])
  }

  /**
   * Which rows a package status update selects: the pack id alone, as the
   * repository's UPDATE statements are written, or the table's key.
   */
  datatype Selector = PackIdOnly | RequestAndPackId

  predicate Reaches(sel: Selector, p: PackageRow, requestId: int, packId: int)
  {
    match sel
    case PackIdOnly => p.packId == packId
    case RequestAndPackId => IsPackage(p, requestId, packId)
  }

  function UpdatePackageRows(sel: Selector, rows: seq<PackageRow>, requestId: int, packId: int, status: string,
                             column: DateColumn, date: int): (r: seq<PackageRow>)
    ensures |r| == |rows|
  {
    match sel
    case PackIdOnly => UpdatePackagesByPackId(rows, packId, status, column, date)
    case RequestAndPackId => UpdatePackage(rows, requestId, packId, status, column, date)
  }

  /** Updating by pack id alone reopens a finished package of another request. */
  lemma PackIdUpdateReachesOtherRequests()
    ensures
      var earlier := PackageRow(1, 1, "P", 0, Some(10), Some(20), 5);
      var current := PackageRow(2, 1, "I", 30, None, None, 3);
      var r := UpdatePackagesByPackId([earlier, current], 1, "W", StartDate, 40);
      && r[0].requestId == 1 && r[0].status == "W"
      && UpdatePackage([earlier, current], 2, 1, "W", StartDate, 40)[0] == earlier
  {
  }

  /** The keyed update changes the one package it names, in status and its date, and no other row. */
  lemma UpdatePackageTouchesOnlyItsRow(rows: seq<PackageRow>, requestId: int, packId: int, status: string,
                                       column: DateColumn, date: int)
    ensures var r := UpdatePackage(rows, requestId, packId, status, column, date);
      forall i :: 0 <= i < |rows| ==>
        if IsPackage(rows[i], requestId, packId) then
          && r[i].status == status && r[i].requestId == requestId && r[i].packId == packId
          && (column == StartDate ==> r[i].startDate == Some(date) && r[i].endDate == rows[i].endDate)
          && (column == EndDate ==> r[i].endDate == Some(date) && r[i].startDate == rows[i].startDate)
          && r[i].entryDate == rows[i].entryDate && r[i].contractCount == rows[i].contractCount
        else r[i] == rows[i]
  {
  }

  // ---- fetchAvailablePackagesWithStatus ----

  predicate Selected(p: PackageRow, requestId: int, status: string)
  {
    p.requestId == requestId && p.status == status
  }

  /** The pack ids of the request's packages with the status, in table order. */
  function PackIdsWith(rows: seq<PackageRow>, requestId: int, status: string): seq<int>
  {
    if rows == [] then []
    else
      var p := rows[|rows| - 1];
      PackIdsWith(rows[..|rows| - 1], requestId, status) + (if Selected(p, requestId, status) then [p.packId] else [])
  }

  lemma {:induction false} PackIdsWithMembers(rows: seq<PackageRow>, requestId: int, status: string, id: int)
    ensures id in PackIdsWith(rows, requestId, status) <==>
      exists i :: 0 <= i < |rows| && Selected(rows[i], requestId, status) && rows[i].packId == id
  {
    if rows != [] {
      var init := rows[..|rows| - 1];
      PackIdsWithMembers(init, requestId, status, id);
      if exists i :: 0 <= i < |rows| && Selected(rows[i], requestId, status) && rows[i].packId == id {
        var i :| 0 <= i < |rows| && Selected(rows[i], requestId, status) && rows[i].packId == id;
        if i < |init| {
          assert init[i] == rows[i];
        }
      }
      if id in PackIdsWith(init, requestId, status) {
        var i :| 0 <= i < |init| && Selected(init[i], requestId, status) && init[i].packId == id;
        assert rows[i] == init[i];
      }
    }
  }

  lemma {:induction false} PackIdsWithNone(rows: seq<PackageRow>, requestId: int, status: string)
    requires forall i :: 0 <= i < |rows| ==> !Selected(rows[i], requestId, status)
    ensures PackIdsWith(rows, requestId, status) == []
  {
    if rows != [] {
      PackIdsWithNone(rows[..|rows| - 1], requestId, status);
    }
  }

  /** The pack ids of the request's packages in status I, ascending. */
  function AvailablePackages(t: Tables, requestId: int): seq<int>
  {
    Sorting.SortAscending(PackIdsWith(t.packages, requestId, "I"))
  }

  /** Exactly the request's I packages, in ascending pack id order. */
  lemma AvailablePackagesSpec(t: Tables, requestId: int)
    ensures Sorting.Ascending(AvailablePackages(t, requestId))
    ensures forall id :: id in AvailablePackages(t, requestId) <==>
      exists i :: 0 <= i < |t.packages| && Selected(t.packages[i], requestId, "I") && t.packages[i].packId == id
  {
    Sorting.SortAscendingCorrect(PackIdsWith(t.packages, requestId, "I"));
    forall id ensures id in AvailablePackages(t, requestId) <==>
      exists i :: 0 <= i < |t.packages| && Selected(t.packages[i], requestId, "I") && t.packages[i].packId == id
    {
      Sorting.SortAscendingMembers(PackIdsWith(t.packages, requestId, "I"), id);
      PackIdsWithMembers(t.packages, requestId, "I", id);
    }
  }

  // ---- loadDiscountsByCoId ----

  predicate HasCoId(coId: int, d: AssignDto)
  {
    d.coId == coId
  }

  /** The candidates of one contract, in query order. */
  function CandidatesOf(ds: seq<AssignDto>, coId: int): seq<AssignDto>
  {
    Seqs.Filter(ds, d => HasCoId(coId, d))
  }

  /** groupingBy(coId): each contract id present maps to its candidates in query order. */
  function GroupByCoId(ds: seq<AssignDto>): (m: map<int, seq<AssignDto>>)
    ensures forall c :: c in m <==> exists i :: 0 <= i < |ds| && ds[i].coId == c
    ensures forall c :: c in m ==> m[c] == CandidatesOf(ds, c)
  {
    if ds == [] then map[]
    else
      var rest := ds[..|ds| - 1];
      var d := ds[|ds| - 1];
      var m := GroupByCoId(rest);
      assert forall c :: CandidatesOf(ds, c) == CandidatesOf(rest, c) + (if HasCoId(c, d) then [d] else []) by {
        forall c ensures CandidatesOf(ds, c) == CandidatesOf(rest, c) + (if HasCoId(c, d) then [d] else []) {
          assert ds == rest + [d];
          Seqs.FilterSnoc(rest, d, d' => HasCoId(c, d'));
        }
      }
      assert d.coId !in m ==> CandidatesOf(rest, d.coId) == [] by {
        Seqs.FilterEmpty(rest, d' => HasCoId(d.coId, d'));
      }
      m[d.coId := (if d.coId in m then m[d.coId] else []) + [d]]
  }

  /** getOrDefault(coId, emptyList()). */
  function DiscountsFor(m: map<int, seq<AssignDto>>, coId: int): seq<AssignDto>
  {
    if coId in m then m[coId] else []
  }

  /** Each contract receives exactly the candidates carrying its contract id, in query order, and none when it has none. */
  lemma ContractGetsItsCandidates(ds: seq<AssignDto>, coId: int)
    ensures DiscountsFor(GroupByCoId(ds), coId) == CandidatesOf(ds, coId)
    ensures forall d :: d in DiscountsFor(GroupByCoId(ds), coId) <==> d in ds && d.coId == coId
  {
    if coId !in GroupByCoId(ds) {
      Seqs.FilterEmpty(ds, d => HasCoId(coId, d));
    }
    forall d ensures d in CandidatesOf(ds, coId) <==> d in ds && d.coId == coId {
      Seqs.FilterMembers(ds, d' => HasCoId(coId, d'), d);
    }
  }

  // ---- Lists.partition ----

  /** Consecutive chunks of n elements, the last one possibly shorter. */
  function Chunks<T>(xs: seq<T>, n: int): seq<seq<T>>
    requires n > 0
    decreases |xs|
  {
    if xs == [] then []
    else if |xs| <= n then [xs]
    else [xs[..n]] + Chunks(xs[n..], n)
  }

  function Flatten<T>(xss: seq<seq<T>>): seq<T>
  {
    if xss == [] then [] else xss[0] + Flatten(xss[1..])
  }

  /** Lists.partition: a size below one raises IllegalArgumentException. */
  function Partition<T>(xs: seq<T>, n: int): Result<seq<seq<T>>, Fault>
  {
    if n <= 0 then Err(OtherFault) else Ok(Chunks(xs, n))
  }

  /** The chunks concatenate to the list, none is empty, and all but the last hold exactly n elements. */
  lemma {:induction false} ChunksPartition<T>(xs: seq<T>, n: int)
    requires n > 0
    ensures Flatten(Chunks(xs, n)) == xs
    ensures forall i :: 0 <= i < |Chunks(xs, n)| ==> 0 < |Chunks(xs, n)[i]| <= n
    ensures forall i :: 0 <= i < |Chunks(xs, n)| - 1 ==> |Chunks(xs, n)[i]| == n
    decreases |xs|
  {
    if xs != [] && |xs| > n {
      ChunksPartition(xs[n..], n);
      var cs := Chunks(xs, n);
      assert cs[1..] == Chunks(xs[n..], n);
      assert xs == xs[..n] + xs[n..];
      forall i | 0 < i < |cs| ensures 0 < |cs[i]| <= n && (i < |cs| - 1 ==> |cs[i]| == n) {
        assert cs[i] == Chunks(xs[n..], n)[i - 1];
      }
    }
  }

  // ---- contracts ----

  /** The database tables and the billing calls made so far. */
  datatype Batch = Batch(tables: Tables, calls: seq<OccCall>)

  /** What every contract of a package is processed with. */
  datatype ContractEnv = ContractEnv(
    request: RequestRow,
    byCoId: map<int, seq<AssignDto>>,
    cfg: Snapshot,
    enabled: bool,
    faults: map<int, seq<AttemptFaults>>)   // by contract id: the faults its attempts meet

  function FaultsFor(faults: map<int, seq<AttemptFaults>>, coId: int): seq<AttemptFaults>
  {
    if coId in faults then faults[coId] else []
  }

  /** handleContractProcessingError: the contract's rows in the request become F, the fault as the reason. */
  function MarkContractFailed(t: Tables, requestId: int, coId: int, f: Fault): Tables
  {
    t.(contracts := map k | k in t.contracts ::
      if k.requestId == requestId && k.coId == coId
      then t.contracts[k].(status := Some("F"), remark := Some(ContractError(f)))
      else t.contracts[k])
  }

  /** One contract of a chunk: the pipeline with its retries, and on failure the error handler. */
  function ContractStep(b: Batch, env: ContractEnv, row: ContractRow): Batch
  {
    var p := ProcessContractOf(b.tables, row, env.request, DiscountsFor(env.byCoId, row.key.coId), env.cfg, env.enabled,
                               FaultsFor(env.faults, row.key.coId));
    var t := if p.thrown.Some? then MarkContractFailed(p.tables, env.request.requestId, row.key.coId, p.thrown.value)
             else p.tables;
    Batch(t, b.calls + p.calls)
  }

  /** The contracts of a list, one after another. */
  function ContractsRun(b: Batch, env: ContractEnv, rows: seq<ContractRow>): Batch
  {
    if rows == [] then b else ContractStep(ContractsRun(b, env, rows[..|rows| - 1]), env, rows[|rows| - 1])
  }

  /** The chunks of a package, one after another. */
  function ChunksRun(b: Batch, env: ContractEnv, chunks: seq<seq<ContractRow>>): Batch
    decreases |chunks|
  {
    if chunks == [] then b else ChunksRun(ContractsRun(b, env, chunks[0]), env, chunks[1..])
  }

  /**
   * A failing contract is marked F with its fault, every row of it in the
   * request; a contract that completes keeps what the pipeline wrote.
   */
  lemma ContractFailureIsolated(b: Batch, env: ContractEnv, row: ContractRow)
    ensures
      var p := ProcessContractOf(b.tables, row, env.request, DiscountsFor(env.byCoId, row.key.coId), env.cfg, env.enabled,
                                 FaultsFor(env.faults, row.key.coId));
      var s := ContractStep(b, env, row);
      && s.calls == b.calls + p.calls
      && (p.thrown.None? ==> s.tables == p.tables)
      && (p.thrown.Some? ==>
            && s.tables.contracts.Keys == p.tables.contracts.Keys
            && forall k :: k in s.tables.contracts ==>
                 if k.requestId == env.request.requestId && k.coId == row.key.coId
                 then s.tables.contracts[k] == p.tables.contracts[k].(status := Some("F"), remark := Some(ContractError(p.thrown.value)))
                 else s.tables.contracts[k] == p.tables.contracts[k])
  {
  }

  /** Processing a contract writes nothing outside contracts, evals, grants and assignments. */
  lemma ContractStepFrame(b: Batch, env: ContractEnv, row: ContractRow)
    ensures SameOutsidePipeline(b.tables, ContractStep(b, env, row).tables)
  {
    RetryFrame(0, b.tables, row, DiscountsFor(env.byCoId, row.key.coId), env.request.billPeriodEndDate, env.cfg, env.enabled,
               FaultsFor(env.faults, row.key.coId));
  }

  lemma {:induction false} ContractsRunFrame(b: Batch, env: ContractEnv, rows: seq<ContractRow>)
    ensures SameOutsidePipeline(b.tables, ContractsRun(b, env, rows).tables)
    ensures |b.calls| <= |ContractsRun(b, env, rows).calls| && ContractsRun(b, env, rows).calls[..|b.calls|] == b.calls
  {
    if rows != [] {
      var mid := ContractsRun(b, env, rows[..|rows| - 1]);
      ContractsRunFrame(b, env, rows[..|rows| - 1]);
      ContractStepFrame(mid, env, rows[|rows| - 1]);
      var s := ContractStep(mid, env, rows[|rows| - 1]);
      assert s.calls[..|mid.calls|] == mid.calls;
      assert s.calls[..|b.calls|] == mid.calls[..|b.calls|];
    }
  }

  /** Running two lists one after the other is running their concatenation. */
  lemma {:induction false} ContractsRunAppend(b: Batch, env: ContractEnv, xs: seq<ContractRow>, ys: seq<ContractRow>)
    ensures ContractsRun(b, env, xs + ys) == ContractsRun(ContractsRun(b, env, xs), env, ys)
    decreases |ys|
  {
    if ys != [] {
      var init := ys[..|ys| - 1];
      ContractsRunAppend(b, env, xs, init);
      assert (xs + ys)[..|xs + ys| - 1] == xs + init;
      assert (xs + ys)[|xs + ys| - 1] == ys[|ys| - 1];
    } else {
      assert xs + ys == xs;
    }
  }

  lemma {:induction false} ChunksRunFlatten(b: Batch, env: ContractEnv, chunks: seq<seq<ContractRow>>)
    ensures ChunksRun(b, env, chunks) == ContractsRun(b, env, Flatten(chunks))
    decreases |chunks|
  {
    if chunks != [] {
      ChunksRunFlatten(ContractsRun(b, env, chunks[0]), env, chunks[1..]);
      ContractsRunAppend(b, env, chunks[0], Flatten(chunks[1..]));
    }
  }

  /** The chunk size does not change the outcome: the chunks run the contracts in list order, each once. */
  lemma ChunkingIsInvisible(b: Batch, env: ContractEnv, rows: seq<ContractRow>, n: int)
    requires n > 0
    ensures ChunksRun(b, env, Chunks(rows, n)) == ContractsRun(b, env, rows)
  {
    ChunksPartition(rows, n);
    ChunksRunFlatten(b, env, Chunks(rows, n));
  }

  // ---- packages ----

  /** The environment's answers for one package: the candidate query, the contract query, each contract's faults. */
  datatype PackageInput = PackageInput(
    discounts: Option<seq<AssignDto>>,       // None: the query raised
    contracts: Option<seq<ContractRow>>,     // None: the query raised
    faults: map<int, seq<AttemptFaults>>)

  /** The settings of one run of the batch processor. */
  datatype Settings = Settings(chunkSize: int, cfg: Snapshot, enabled: bool, now: int)

  function SetPackage(b: Batch, sel: Selector, requestId: int, packId: int, status: string, column: DateColumn, now: int)
    : Batch
  {
    Batch(b.tables.(packages := UpdatePackageRows(sel, b.tables.packages, requestId, packId, status, column, now)), b.calls)
  }

  /** When a package fails as a whole. */
  predicate PackageFails(input: PackageInput, chunkSize: int)
  {
    input.discounts.None? || input.contracts.None? || (input.contracts.value != [] && chunkSize <= 0)
  }

  /**
   * processPackage: W, the candidates, the contracts; P when empty or done, F
   * on a fault.  The status updates select the rows that sel names.
   */
  function PackageRun(b: Batch, sel: Selector, request: RequestRow, packId: int, input: PackageInput, s: Settings): Batch
  {
    var rid := request.requestId;
    var started := SetPackage(b, sel, rid, packId, "W", StartDate, s.now);
    if input.discounts.None? || input.contracts.None? then SetPackage(started, sel, rid, packId, "F", EndDate, s.now)
    else if input.contracts.value == [] then SetPackage(started, sel, rid, packId, "P", EndDate, s.now)
    else match Partition(input.contracts.value, s.chunkSize)
      case Err(_) => SetPackage(started, sel, rid, packId, "F", EndDate, s.now)
      case Ok(chunks) =>
        var env := ContractEnv(request, GroupByCoId(input.discounts.value), s.cfg, s.enabled, input.faults);
        SetPackage(ChunksRun(started, env, chunks), sel, rid, packId, "P", EndDate, s.now)
  }

  /**
   * A package ends P, or F exactly when a query raised or its contracts could
   * not be partitioned; every row the status updates reach gets that status
   * and both dates, and no other package row changes.
   */
  lemma PackageEndsProcessedOrFailed(b: Batch, sel: Selector, request: RequestRow, packId: int, input: PackageInput,
                                     s: Settings)
    ensures
      var rows := b.tables.packages;
      var r := PackageRun(b, sel, request, packId, input, s).tables.packages;
      && |r| == |rows|
      && forall i :: 0 <= i < |rows| ==>
           if Reaches(sel, rows[i], request.requestId, packId) then
             r[i] == rows[i].(status := if PackageFails(input, s.chunkSize) then "F" else "P",
                              startDate := Some(s.now), endDate := Some(s.now))
           else r[i] == rows[i]
  {
    var rid := request.requestId;
    var started := SetPackage(b, sel, rid, packId, "W", StartDate, s.now);
    var st := if PackageFails(input, s.chunkSize) then "F" else "P";
    var expected := UpdatePackageRows(sel, started.tables.packages, rid, packId, st, EndDate, s.now);
    StartThenEnd(sel, b.tables.packages, rid, packId, st, s.now);
    assert PackageRun(b, sel, request, packId, input, s).tables.packages == expected by {
      if !PackageFails(input, s.chunkSize) && input.contracts.value != [] {
        var env := ContractEnv(request, GroupByCoId(input.discounts.value), s.cfg, s.enabled, input.faults);
        ChunkingIsInvisible(started, env, input.contracts.value, s.chunkSize);
        ContractsRunFrame(started, env, input.contracts.value);
      }
    }
  }

  /** A start update followed by an end update of the same package reaches the same rows. */
  lemma StartThenEnd(sel: Selector, rows: seq<PackageRow>, requestId: int, packId: int, status: string, now: int)
    ensures var r := UpdatePackageRows(sel, UpdatePackageRows(sel, rows, requestId, packId, "W", StartDate, now),
                                       requestId, packId, status, EndDate, now);
      && |r| == |rows|
      && forall i :: 0 <= i < |rows| ==>
           r[i] == if Reaches(sel, rows[i], requestId, packId)
                   then rows[i].(status := status, startDate := Some(now), endDate := Some(now))
                   else rows[i]
  {
  }

  /**
   * A package that does not fail runs each of its contracts once, in list
   * order, with the candidates of its contract id; one that fails runs none.
   */
  lemma PackageRunsItsContracts(b: Batch, sel: Selector, request: RequestRow, packId: int, input: PackageInput, s: Settings)
    ensures
      var r := PackageRun(b, sel, request, packId, input, s);
      var started := SetPackage(b, sel, request.requestId, packId, "W", StartDate, s.now);
      if PackageFails(input, s.chunkSize) || input.contracts.value == [] then
        r.tables.contracts == b.tables.contracts && r.calls == b.calls
      else
        var env := ContractEnv(request, GroupByCoId(input.discounts.value), s.cfg, s.enabled, input.faults);
        var c := ContractsRun(started, env, input.contracts.value);
        r.tables == c.tables.(packages := r.tables.packages) && r.calls == c.calls
  {
    if !PackageFails(input, s.chunkSize) && input.contracts.value != [] {
      var started := SetPackage(b, sel, request.requestId, packId, "W", StartDate, s.now);
      var env := ContractEnv(request, GroupByCoId(input.discounts.value), s.cfg, s.enabled, input.faults);
      ChunkingIsInvisible(started, env, input.contracts.value, s.chunkSize);
    }
  }

  /** The packages of a list, one after another. */
  function PackagesRun(b: Batch, sel: Selector, request: RequestRow, ids: seq<int>, inputs: int -> PackageInput,
                       s: Settings): Batch
    decreases |ids|
  {
    if ids == [] then b
    else PackagesRun(PackageRun(b, sel, request, ids[0], inputs(ids[0]), s), sel, request, ids[1..], inputs, s)
  }

  /** processRequestPackages: the request's I packages in ascending pack id order. */
  function RequestPackagesRun(b: Batch, sel: Selector, request: RequestRow, inputs: int -> PackageInput, s: Settings): Batch
  {
    PackagesRun(b, sel, request, AvailablePackages(b.tables, request.requestId), inputs, s)
  }

  /** With no I package nothing changes. */
  lemma NoAvailablePackageNoChange(b: Batch, sel: Selector, request: RequestRow, inputs: int -> PackageInput, s: Settings)
    requires forall i :: 0 <= i < |b.tables.packages| ==> !Selected(b.tables.packages[i], request.requestId, "I")
    ensures RequestPackagesRun(b, sel, request, inputs, s) == b
  {
    PackIdsWithNone(b.tables.packages, request.requestId, "I");
  }

  /** Row q is row p after a run that processed its pack id: P or F, with the run's start and end dates. */
  predicate Settled(p: PackageRow, q: PackageRow, now: int)
  {
    q.status in {"F", "P"} && q == p.(status := q.status, startDate := Some(now), endDate := Some(now))
  }

  /**
   * With the updates as written, processing a request's packages rewrites
   * every package row, of whatever request, whose pack id was processed: it
   * ends P or F with the run's dates.  Rows with another pack id keep their
   * values.
   */
  lemma {:induction false} PackIdRunRewritesSharedPackIds(b: Batch, request: RequestRow, ids: seq<int>,
                                                          inputs: int -> PackageInput, s: Settings)
    ensures var rows := b.tables.packages;
      var r := PackagesRun(b, PackIdOnly, request, ids, inputs, s).tables.packages;
      && |r| == |rows|
      && forall i :: 0 <= i < |rows| ==> if rows[i].packId in ids then Settled(rows[i], r[i], s.now) else r[i] == rows[i]
    decreases |ids|
  {
    if ids != [] {
      var rows := b.tables.packages;
      var b1 := PackageRun(b, PackIdOnly, request, ids[0], inputs(ids[0]), s);
      var mid := b1.tables.packages;
      var r := PackagesRun(b, PackIdOnly, request, ids, inputs, s).tables.packages;
      PackageEndsProcessedOrFailed(b, PackIdOnly, request, ids[0], inputs(ids[0]), s);
      PackIdRunRewritesSharedPackIds(b1, request, ids[1..], inputs, s);
      assert r == PackagesRun(b1, PackIdOnly, request, ids[1..], inputs, s).tables.packages;
      forall i | 0 <= i < |rows|
        ensures if rows[i].packId in ids then Settled(rows[i], r[i], s.now) else r[i] == rows[i]
      {
        assert mid[i].packId == rows[i].packId;
        assert rows[i].packId in ids <==> rows[i].packId == ids[0] || rows[i].packId in ids[1..] by {
          assert ids == [ids[0]] + ids[1..];
        }
      }
    }
  }

  /**
   * With the updates on the table's key, processing a request's packages
   * leaves the package rows of every other request as they were.
   */
  lemma {:induction false} OtherRequestsUntouched(b: Batch, request: RequestRow, ids: seq<int>, inputs: int -> PackageInput,
                                                  s: Settings)
    ensures var r := PackagesRun(b, RequestAndPackId, request, ids, inputs, s).tables.packages;
      && |r| == |b.tables.packages|
      && forall i :: 0 <= i < |r| && b.tables.packages[i].requestId != request.requestId ==> r[i] == b.tables.packages[i]
    decreases |ids|
  {
    if ids != [] {
      var b1 := PackageRun(b, RequestAndPackId, request, ids[0], inputs(ids[0]), s);
      PackageEndsProcessedOrFailed(b, RequestAndPackId, request, ids[0], inputs(ids[0]), s);
      OtherRequestsUntouched(b1, request, ids[1..], inputs, s);
    }
  }

  /** Processing a package leaves the request table as it was. */
  lemma PackageRunKeepsRequests(b: Batch, sel: Selector, request: RequestRow, packId: int, input: PackageInput, s: Settings)
    ensures PackageRun(b, sel, request, packId, input, s).tables.requests == b.tables.requests
  {
    if !PackageFails(input, s.chunkSize) && input.contracts.value != [] {
      var started := SetPackage(b, sel, request.requestId, packId, "W", StartDate, s.now);
      var env := ContractEnv(request, GroupByCoId(input.discounts.value), s.cfg, s.enabled, input.faults);
      ChunkingIsInvisible(started, env, input.contracts.value, s.chunkSize);
      ContractsRunFrame(started, env, input.contracts.value);
    }
  }

  /** Processing a request's packages leaves the request table as it was. */
  lemma {:induction false} PackagesRunKeepsRequests(b: Batch, sel: Selector, request: RequestRow, ids: seq<int>,
                                                    inputs: int -> PackageInput, s: Settings)
    ensures PackagesRun(b, sel, request, ids, inputs, s).tables.requests == b.tables.requests
    decreases |ids|
  {
    if ids != [] {
      var b1 := PackageRun(b, sel, request, ids[0], inputs(ids[0]), s);
      PackageRunKeepsRequests(b, sel, request, ids[0], inputs(ids[0]), s);
      PackagesRunKeepsRequests(b1, sel, request, ids[1..], inputs, s);
    }
  }

  // ---- the service ----

  /** handleContractProcessingError. */
  method HandleContractProcessingError(requestId: int, coId: int, f: Fault, db: Database)
    modifies db
    ensures db.tables == MarkContractFailed(old(db.tables), requestId, coId, f)
  {
    db.tables := MarkContractFailed(db.tables, requestId, coId, f);
  }

  /** The body of processContractChunk's loop: one contract, and the error handler when it fails. */
  method ProcessChunkContract(env: ContractEnv, row: ContractRow, db: Database, billing: Billing)
    modifies db, billing
    ensures Batch(db.tables, billing.calls) == ContractStep(Batch(old(db.tables), old(billing.calls)), env, row)
  {
    var contract := new DynDiscContract.FromRow(row);
    var thrown, attempts := ProcessContract(env.request, contract, DiscountsFor(env.byCoId, row.key.coId), env.cfg,
                                            env.enabled, FaultsFor(env.faults, row.key.coId), db, billing);
    if thrown.Some? {
      HandleContractProcessingError(env.request.requestId, row.key.coId, thrown.value, db);
    }
  }

  lemma ContractsRunSnoc(b: Batch, env: ContractEnv, rows: seq<ContractRow>, i: nat)
    requires i < |rows|
    ensures ContractsRun(b, env, rows[..i + 1]) == ContractStep(ContractsRun(b, env, rows[..i]), env, rows[i])
  {
    assert rows[..i + 1][..i] == rows[..i];
  }

  /** processContractChunk: each contract in turn; a failure is handled and the loop goes on. */
  method ProcessContractChunk(env: ContractEnv, chunk: seq<ContractRow>, db: Database, billing: Billing)
    modifies db, billing
    ensures Batch(db.tables, billing.calls) == ContractsRun(Batch(old(db.tables), old(billing.calls)), env, chunk)
  {
    ghost var b0 := Batch(db.tables, billing.calls);
    var i := 0;
    while i < |chunk|
      invariant 0 <= i <= |chunk|
      invariant Batch(db.tables, billing.calls) == ContractsRun(b0, env, chunk[..i])
    {
      ProcessChunkContract(env, chunk[i], db, billing);
      ContractsRunSnoc(b0, env, chunk, i);
      i := i + 1;
    }
    assert chunk[..i] == chunk;
  }

  /** processContractChunks: partition, then the chunks one after another. */
  method ProcessContractChunks(env: ContractEnv, contracts: seq<ContractRow>, chunkSize: int, db: Database, billing: Billing)
    returns (thrown: Option<Fault>)
    modifies db, billing
    ensures match Partition(contracts, chunkSize)
      case Err(f) => thrown == Some(f) && db.tables == old(db.tables) && billing.calls == old(billing.calls)
      case Ok(chunks) =>
        thrown.None? && Batch(db.tables, billing.calls) == ChunksRun(Batch(old(db.tables), old(billing.calls)), env, chunks)
  {
    var p := Partition(contracts, chunkSize);
    if p.Err? {
      return Some(p.error);
    }
    var chunks := p.value;
    ghost var target := ChunksRun(Batch(db.tables, billing.calls), env, chunks);
    var i := 0;
    while i < |chunks|
      invariant 0 <= i <= |chunks|
      invariant ChunksRun(Batch(db.tables, billing.calls), env, chunks[i..]) == target
    {
      ProcessContractChunk(env, chunks[i], db, billing);
      assert chunks[i..][1..] == chunks[i + 1..];
      i := i + 1;
    }
    thrown := None;
  }

  /**
   * updatePackageStatusAndStartDate / updatePackageStatusAndEndDate: the
   * status and one date column of every package row with the pack id.
   */
  method UpdatePackageStatus(packId: int, status: string, column: DateColumn, now: int, db: Database)
    modifies db
    ensures db.tables == old(db.tables).(packages := UpdatePackagesByPackId(old(db.tables).packages, packId, status, column, now))
  {
    db.tables := db.tables.(packages := UpdatePackagesByPackId(db.tables.packages, packId, status, column, now));
  }

  /** processPackage, with the repository's status updates as written. */
  method ProcessPackage(request: RequestRow, packId: int, input: PackageInput, s: Settings, db: Database, billing: Billing)
    modifies db, billing
    ensures Batch(db.tables, billing.calls) ==
            PackageRun(Batch(old(db.tables), old(billing.calls)), PackIdOnly, request, packId, input, s)
  {
    UpdatePackageStatus(packId, "W", StartDate, s.now, db);
    if input.discounts.None? || input.contracts.None? {
      UpdatePackageStatus(packId, "F", EndDate, s.now, db);
      return;
    }
    var byCoId := GroupByCoId(input.discounts.value);
    var contracts := input.contracts.value;
    if contracts == [] {
      UpdatePackageStatus(packId, "P", EndDate, s.now, db);
      return;
    }
    var env := ContractEnv(request, byCoId, s.cfg, s.enabled, input.faults);
    var thrown := ProcessContractChunks(env, contracts, s.chunkSize, db, billing);
    if thrown.Some? {
      UpdatePackageStatus(packId, "F", EndDate, s.now, db);
      return;
    }
    UpdatePackageStatus(packId, "P", EndDate, s.now, db);
  }

  /** processRequestPackages, with the repository's status updates as written. */
  method ProcessRequestPackages(request: RequestRow, inputs: int -> PackageInput, s: Settings, db: Database, billing: Billing)
    modifies db, billing
    ensures Batch(db.tables, billing.calls) ==
            RequestPackagesRun(Batch(old(db.tables), old(billing.calls)), PackIdOnly, request, inputs, s)
  {
    var ids := AvailablePackages(db.tables, request.requestId);
    if ids == [] {
      return;
    }
    ghost var target := PackagesRun(Batch(db.tables, billing.calls), PackIdOnly, request, ids, inputs, s);
    var i := 0;
    while i < |ids|
      invariant 0 <= i <= |ids|
      invariant PackagesRun(Batch(db.tables, billing.calls), PackIdOnly, request, ids[i..], inputs, s) == target
    {
      ProcessPackage(request, ids[i], inputs(ids[i]), s, db, billing);
      assert ids[i..][1..] == ids[i + 1..];
      i := i + 1;
    }
  }
}
