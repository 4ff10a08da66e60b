// The request service: registering a new request with its contracts (one per
// contract id, the first eligible row winning), finalizing a request, the
// reset of a failed request, and the request look-ups.
module RequestService {
  import opened Wrappers
  import opened Entities
  import opened Store
  import opened Configurations

  // ---- the request table ----

  /** The first row satisfying p, in table order. */
  function FirstWhere(rows: seq<RequestRow>, p: RequestRow -> bool): (r: Option<RequestRow>)
    ensures r.None? <==> forall i :: 0 <= i < |rows| ==> !p(rows[i])
    ensures r.Some? ==>
      exists i :: 0 <= i < |rows| && rows[i] == r.value && p(r.value) && forall j :: 0 <= j < i ==> !p(rows[j])
  {
    if rows == [] then None
    else if p(rows[0]) then Some(rows[0])
    else
      var r := FirstWhere(rows[1..], p);
      assert forall i :: 1 <= i < |rows| ==> rows[1..][i - 1] == rows[i];
      if r.Some? then
        assert exists i :: 1 <= i < |rows| && rows[i] == r.value && p(r.value) && forall j :: 0 <= j < i ==> !p(rows[j]) by {
          var i :| 0 <= i < |rows[1..]| && rows[1..][i] == r.value && p(r.value) && forall j :: 0 <= j < i ==> !p(rows[1..][j]);
          assert rows[i + 1] == r.value;
          assert forall j :: 0 <= j < i + 1 ==> !p(rows[j]) by {
            forall j | 0 <= j < i + 1 ensures !p(rows[j]) {
              if j > 0 { assert rows[j] == rows[1..][j - 1]; }
            }
          }
        }
        r
      else r
  }

  /** fetchOngoingRequest: the first request in status W, if any. */
  function FetchOngoingRequest(t: Tables): Option<RequestRow>
  {
    FirstWhere(t.requests, (r: RequestRow) => r.status == "W")
  }

  /** fetchRequestById. */
  function FetchRequestById(t: Tables, requestId: int): Option<RequestRow>
  {
    FirstWhere(t.requests, (r: RequestRow) => r.requestId == requestId)
  }

  /** There is no ongoing request exactly when no request is in W; one found is in W and is in the table. */
  lemma OngoingRequestRule(t: Tables)
    ensures FetchOngoingRequest(t).None? <==> forall i :: 0 <= i < |t.requests| ==> t.requests[i].status != "W"
    ensures FetchOngoingRequest(t).Some? ==> FetchOngoingRequest(t).value.status == "W" && FetchOngoingRequest(t).value in t.requests
  {
  }

  /** No request is found exactly when no row has the id; one found has it and is in the table. */
  lemma RequestByIdRule(t: Tables, requestId: int)
    ensures FetchRequestById(t, requestId).None? <==> !RequestExists(t.requests, requestId)
    ensures FetchRequestById(t, requestId).Some? ==>
      FetchRequestById(t, requestId).value.requestId == requestId && FetchRequestById(t, requestId).value in t.requests
  {
  }

  /** UPDATE ... WHERE request_id = :requestId. */
  function UpdateRequestStatus(rows: seq<RequestRow>, requestId: int, status: string, date: int): (r: seq<RequestRow>)
    ensures |r| == |rows|
  {
    seq(|rows|, i requires 0 <= i < |rows| =>
      if rows[i].requestId == requestId then rows[i].(status := status, statusDate := Some(date)) else rows[i])
  }

  predicate RequestExists(rows: seq<RequestRow>, requestId: int)
  {
    exists i :: 0 <= i < |rows| && rows[i].requestId == requestId
  }

  // ---- registerNewRequest ----

  /** A row of the eligible-contracts query. */
  datatype EligibleRow = EligibleRow(customerId: int, coId: int, lbcDate: Option<int>, prgcode: Option<string>, tmcode: int)

  /** A new request: status W with the given cycle and cutoff. */
  function NewRequest(requestId: int, billCycle: string, cutoff: int): RequestRow
  {
    RequestRow(requestId, "W", None, billCycle, cutoff)
  }

  /** The contract row made of an eligible row: status I, no remark, in the new request. */
  function NewContract(e: EligibleRow, requestId: int, packOf: int -> int): ContractRow
  {
    ContractRow(ContractKey(requestId, packOf(e.coId), e.customerId, e.coId), e.lbcDate, e.prgcode, e.tmcode, Some("I"), None)
  }

  /** An earlier row carries the same contract id as row k. */
  predicate SeenBefore(rows: seq<EligibleRow>, k: int)
    requires 0 <= k < |rows|
  {
    exists j :: 0 <= j < k && rows[j].coId == rows[k].coId
  }

  /** mapToDynDiscContracts: the first row of each contract id, in input order. */
  function MappedContracts(rows: seq<EligibleRow>, requestId: int, packOf: int -> int): seq<ContractRow>
  {
    if rows == [] then []
    else
      var k := |rows| - 1;
      MappedContracts(rows[..k], requestId, packOf) + (if SeenBefore(rows, k) then [] else [NewContract(rows[k], requestId, packOf)])
  }

  predicate Occurs(rows: seq<EligibleRow>, coId: int)
  {
    exists i :: 0 <= i < |rows| && rows[i].coId == coId
  }

  predicate Mapped(cs: seq<ContractRow>, coId: int)
  {
    exists j :: 0 <= j < |cs| && cs[j].key.coId == coId
  }

  /** Whether row i repeats an earlier contract id does not depend on the rows after it. */
  lemma SeenBeforeInPrefix(rows: seq<EligibleRow>, n: nat, i: nat)
    requires i < n <= |rows|
    ensures SeenBefore(rows[..n], i) <==> SeenBefore(rows, i)
  {
    if SeenBefore(rows, i) {
      var j :| 0 <= j < i && rows[j].coId == rows[i].coId;
      assert rows[..n][j].coId == rows[..n][i].coId;
    }
  }

  /** The last row is dropped exactly when its contract id occurs earlier. */
  lemma SeenBeforeLast(rows: seq<EligibleRow>)
    requires rows != []
    ensures SeenBefore(rows, |rows| - 1) <==> Occurs(rows[..|rows| - 1], rows[|rows| - 1].coId)
  {
    var k := |rows| - 1;
    if Occurs(rows[..k], rows[k].coId) {
      var j :| 0 <= j < k && rows[..k][j].coId == rows[k].coId;
      assert rows[j].coId == rows[k].coId;
    }
  }

  /** The mapped contracts carry exactly the input's contract ids. */
  lemma {:induction false} MappedCoIds(rows: seq<EligibleRow>, requestId: int, packOf: int -> int)
    ensures forall c :: Mapped(MappedContracts(rows, requestId, packOf), c) <==> Occurs(rows, c)
  {
    if rows != [] {
      var k := |rows| - 1;
      var init := rows[..k];
      var prev := MappedContracts(init, requestId, packOf);
      var cs := MappedContracts(rows, requestId, packOf);
      var last := if SeenBefore(rows, k) then [] else [NewContract(rows[k], requestId, packOf)];
      assert cs == prev + last;
      MappedCoIds(init, requestId, packOf);
      SeenBeforeLast(rows);
      forall c ensures Mapped(cs, c) <==> Occurs(rows, c) {
        if Mapped(cs, c) {
          var j :| 0 <= j < |cs| && cs[j].key.coId == c;
          if j < |prev| {
            assert prev[j].key.coId == c;
            assert Mapped(prev, c);
            assert Occurs(init, c);
            var i :| 0 <= i < |init| && init[i].coId == c;
            assert rows[i].coId == c;
          } else {
            assert rows[k].coId == c;
          }
        }
        if Occurs(rows, c) {
          var i :| 0 <= i < |rows| && rows[i].coId == c;
          if i < k || SeenBefore(rows, k) {
            if i < k {
              assert init[i].coId == c;
            } else {
              assert rows[k].coId == c;
            }
            assert Occurs(init, c);
            assert Mapped(prev, c);
            var j :| 0 <= j < |prev| && prev[j].key.coId == c;
            assert cs[j] == prev[j];
          } else {
            assert cs[|cs| - 1].key.coId == c;
          }
        }
      }
    }
  }

  /** No two contracts carry the same contract id. */
  predicate DistinctCoIds(cs: seq<ContractRow>)
  {
    forall i, j :: 0 <= i < j < |cs| ==> cs[i].key.coId != cs[j].key.coId
  }

  /** c is the contract made of a row whose contract id does not occur before it. */
  predicate MadeFromFirstRow(rows: seq<EligibleRow>, c: ContractRow, requestId: int, packOf: int -> int)
  {
    exists i :: 0 <= i < |rows| && !SeenBefore(rows, i) && c == NewContract(rows[i], requestId, packOf)
  }

  /** No contract id is mapped twice. */
  lemma {:induction false} MappedDistinct(rows: seq<EligibleRow>, requestId: int, packOf: int -> int)
    ensures DistinctCoIds(MappedContracts(rows, requestId, packOf))
  {
    if rows != [] {
      var k := |rows| - 1;
      var init := rows[..k];
      var prev := MappedContracts(init, requestId, packOf);
      var cs := MappedContracts(rows, requestId, packOf);
      var last := if SeenBefore(rows, k) then [] else [NewContract(rows[k], requestId, packOf)];
      assert cs == prev + last;
      MappedDistinct(init, requestId, packOf);
      MappedCoIds(init, requestId, packOf);
      SeenBeforeLast(rows);
      forall i, j | 0 <= i < j < |cs| ensures cs[i].key.coId != cs[j].key.coId {
        if j >= |prev| {
          assert !SeenBefore(rows, k) && cs[j].key.coId == rows[k].coId;
          assert cs[i] == prev[i];
        } else {
          assert cs[i] == prev[i] && cs[j] == prev[j];
        }
      }
    }
  }

  /** Each mapped contract is made of the first row with its contract id. */
  lemma {:induction false} MappedFromFirstRows(rows: seq<EligibleRow>, requestId: int, packOf: int -> int, j: int)
    requires 0 <= j < |MappedContracts(rows, requestId, packOf)|
    ensures MadeFromFirstRow(rows, MappedContracts(rows, requestId, packOf)[j], requestId, packOf)
  {
    var k := |rows| - 1;
    var init := rows[..k];
    var prev := MappedContracts(init, requestId, packOf);
    var cs := MappedContracts(rows, requestId, packOf);
    var last := if SeenBefore(rows, k) then [] else [NewContract(rows[k], requestId, packOf)];
    assert cs == prev + last;
    if j < |prev| {
      MappedFromFirstRows(init, requestId, packOf, j);
      var i :| 0 <= i < |init| && !SeenBefore(init, i) && prev[j] == NewContract(init[i], requestId, packOf);
      SeenBeforeInPrefix(rows, k, i);
      assert cs[j] == NewContract(rows[i], requestId, packOf);
    } else {
      assert !SeenBefore(rows, k) && cs[j] == NewContract(rows[k], requestId, packOf);
    }
  }

  /** Mapping a longer input extends the mapping of a shorter one: the input order is kept. */
  lemma {:induction false} MappedContractsPrefix(rows: seq<EligibleRow>, n: nat, requestId: int, packOf: int -> int)
    requires n <= |rows|
    ensures MappedContracts(rows[..n], requestId, packOf) <= MappedContracts(rows, requestId, packOf)
    decreases |rows| - n
  {
    if n < |rows| {
      MappedContractsPrefix(rows, n + 1, requestId, packOf);
      assert rows[..n + 1][..n] == rows[..n];
    } else {
      assert rows[..n] == rows;
    }
  }

  /** The contract rows a new request starts with are all I and belong to it. */
  lemma MappedContractsPending(rows: seq<EligibleRow>, requestId: int, packOf: int -> int)
    ensures forall c :: c in MappedContracts(rows, requestId, packOf) ==>
      c.status == Some("I") && c.remark.None? && c.key.requestId == requestId
  {
    var cs := MappedContracts(rows, requestId, packOf);
    forall c | c in cs ensures c.status == Some("I") && c.remark.None? && c.key.requestId == requestId {
      var j :| 0 <= j < |cs| && cs[j] == c;
      MappedFromFirstRows(rows, requestId, packOf, j);
    }
  }

  /** mapToDynDiscContracts: one pass with the set of contract ids already taken. */
  method MapToDynDiscContracts(eligible: seq<EligibleRow>, requestId: int, packOf: int -> int) returns (contracts: seq<ContractRow>)
    ensures contracts == MappedContracts(eligible, requestId, packOf)
  {
    contracts := [];
    var processedCoIds: set<int> := {};
    var i := 0;
    while i < |eligible|
      invariant 0 <= i <= |eligible|
      invariant contracts == MappedContracts(eligible[..i], requestId, packOf)
      invariant forall c :: c in processedCoIds <==> Occurs(eligible[..i], c)
    {
      var e := eligible[i];
      var prefix := eligible[..i + 1];
      assert prefix[..i] == eligible[..i];
      assert SeenBefore(prefix, i) <==> e.coId in processedCoIds by {
        if e.coId in processedCoIds {
          var j :| 0 <= j < i && eligible[..i][j].coId == e.coId;
          assert prefix[j].coId == prefix[i].coId;
        }
        if SeenBefore(prefix, i) {
          var j :| 0 <= j < i && prefix[j].coId == prefix[i].coId;
          assert eligible[..i][j].coId == e.coId;
        }
      }
      if e.coId !in processedCoIds {
        processedCoIds := processedCoIds + {e.coId};
        contracts := contracts + [NewContract(e, requestId, packOf)];
      }
      forall c ensures c in processedCoIds <==> Occurs(prefix, c) {
        if Occurs(prefix, c) {
          var j :| 0 <= j < i + 1 && prefix[j].coId == c;
          if j < i {
            assert eligible[..i][j].coId == c;
          }
        }
        if Occurs(eligible[..i], c) {
          var j :| 0 <= j < i && eligible[..i][j].coId == c;
          assert prefix[j].coId == c;
        }
      }
      i := i + 1;
    }
    assert eligible[..i] == eligible;
  }

  /** saveAll of the contracts, one after another. */
  function SaveContracts(m: map<ContractKey, ContractRow>, cs: seq<ContractRow>): map<ContractKey, ContractRow>
  {
    if cs == [] then m else SaveContracts(m, cs[..|cs| - 1])[cs[|cs| - 1].key := cs[|cs| - 1]]
  }

  /** requestRepo.save: the row with the request's id is replaced, or the row added. */
  function SaveRequest(rows: seq<RequestRow>, r: RequestRow): seq<RequestRow>
  {
    if RequestExists(rows, r.requestId) then
      seq(|rows|, i requires 0 <= i < |rows| => if rows[i].requestId == r.requestId then r else rows[i])
    else rows + [r]
  }

  datatype Registration = Registration(tables: Tables, request: Option<RequestRow>)

  /**
   * registerNewRequest after its configuration refresh: with no eligible
   * contract nothing is written; otherwise the request and its contracts.
   */
  function RegisterOf(t: Tables, eligible: seq<EligibleRow>, billCycle: string, cutoff: int, nextId: int,
                      packOf: int -> int): Registration
  {
    if eligible == [] then Registration(t, None)
    else
      var request := NewRequest(nextId, billCycle, cutoff);
      var contracts := MappedContracts(eligible, nextId, packOf);
      Registration(t.(requests := SaveRequest(t.requests, request), contracts := SaveContracts(t.contracts, contracts)),
                   Some(request))
  }

  predicate DistinctKeys(cs: seq<ContractRow>)
  {
    forall i, j :: 0 <= i < j < |cs| ==> cs[i].key != cs[j].key
  }

  lemma {:induction false} SaveContractsSpec(m: map<ContractKey, ContractRow>, cs: seq<ContractRow>)
    requires DistinctKeys(cs)
    ensures var r := SaveContracts(m, cs);
      && (forall i :: 0 <= i < |cs| ==> cs[i].key in r && r[cs[i].key] == cs[i])
      && (forall k :: k in m && (forall i :: 0 <= i < |cs| ==> cs[i].key != k) ==> k in r && r[k] == m[k])
  {
    if cs != [] {
      SaveContractsSpec(m, cs[..|cs| - 1]);
    }
  }

  /** Saving a request leaves it in the table. */
  lemma SaveRequestStores(rows: seq<RequestRow>, r: RequestRow)
    ensures r in SaveRequest(rows, r)
  {
    var saved := SaveRequest(rows, r);
    if RequestExists(rows, r.requestId) {
      var i :| 0 <= i < |rows| && rows[i].requestId == r.requestId;
      assert saved[i] == r;
    } else {
      assert saved[|saved| - 1] == r;
    }
  }

  /** The contracts of a new request have pairwise different keys. */
  lemma MappedKeysDistinct(rows: seq<EligibleRow>, requestId: int, packOf: int -> int)
    ensures DistinctKeys(MappedContracts(rows, requestId, packOf))
  {
    var cs := MappedContracts(rows, requestId, packOf);
    MappedDistinct(rows, requestId, packOf);
    forall i, j | 0 <= i < j < |cs| ensures cs[i].key != cs[j].key {
      assert cs[i].key.coId != cs[j].key.coId;
    }
  }

  /**
   * Registration: nothing without eligible contracts; otherwise a request in W
   * with the cycle and cutoff, and one saved contract per contract id, each I.
   */
  lemma RegistrationRule(t: Tables, eligible: seq<EligibleRow>, billCycle: string, cutoff: int, nextId: int,
                         packOf: int -> int)
    ensures eligible == [] ==> RegisterOf(t, eligible, billCycle, cutoff, nextId, packOf) == Registration(t, None)
    ensures eligible != [] ==>
      var r := RegisterOf(t, eligible, billCycle, cutoff, nextId, packOf);
      var cs := MappedContracts(eligible, nextId, packOf);
      && r.request == Some(RequestRow(nextId, "W", None, billCycle, cutoff))
      && r.request.value in r.tables.requests
      && (forall c :: c in cs ==> c.key in r.tables.contracts && r.tables.contracts[c.key] == c && c.status == Some("I"))
      && (forall k :: k in t.contracts && k.requestId != nextId ==> k in r.tables.contracts && r.tables.contracts[k] == t.contracts[k])
  {
    if eligible != [] {
      var cs := MappedContracts(eligible, nextId, packOf);
      MappedKeysDistinct(eligible, nextId, packOf);
      MappedContractsPending(eligible, nextId, packOf);
      SavedContractsOfRequest(t.contracts, cs, nextId);
      SaveRequestStores(t.requests, NewRequest(nextId, billCycle, cutoff));
    }
  }

  /** Saving the distinct-keyed contracts of one request stores each and keeps every other request's rows. */
  lemma SavedContractsOfRequest(m: map<ContractKey, ContractRow>, cs: seq<ContractRow>, requestId: int)
    requires DistinctKeys(cs)
    requires forall c :: c in cs ==> c.key.requestId == requestId
    ensures var saved := SaveContracts(m, cs);
      && (forall c :: c in cs ==> c.key in saved && saved[c.key] == c)
      && (forall k :: k in m && k.requestId != requestId ==> k in saved && saved[k] == m[k])
  {
    SaveContractsSpec(m, cs);
    var saved := SaveContracts(m, cs);
    forall c | c in cs ensures c.key in saved && saved[c.key] == c {
      var i :| 0 <= i < |cs| && cs[i] == c;
    }
    forall k | k in m && k.requestId != requestId ensures k in saved && saved[k] == m[k] {
      assert forall i :: 0 <= i < |cs| ==> cs[i] in cs;
    }
  }

  /** registerNewRequest: refresh the configuration, then register. */
  method RegisterNewRequest(conf: DynDiscConfigurations, rows: ConfigRows, eligible: seq<EligibleRow>, billCycle: string,
                            cutoff: int, nextId: int, packOf: int -> int, db: Database)
    returns (request: Option<RequestRow>, thrown: Option<DuplicateKey>)
    modifies conf, db
    ensures (conf.Current(), thrown) == Reload(old(conf.Current()), rows)
    ensures thrown.Some? ==> db.tables == old(db.tables) && request.None?
    ensures thrown.None? ==>
      var r := RegisterOf(old(db.tables), eligible, billCycle, cutoff, nextId, packOf);
      db.tables == r.tables && request == r.request
  {
    thrown := conf.RefreshConfigurations(rows);
    if thrown.Some? {
      return None, thrown;
    }
    if eligible == [] {
      return None, None;
    }
    var newRequest := NewRequest(nextId, billCycle, cutoff);
    var contracts := MapToDynDiscContracts(eligible, nextId, packOf);
    db.tables := db.tables.(requests := SaveRequest(db.tables.requests, newRequest),
                            contracts := SaveContracts(db.tables.contracts, contracts));
    request := Some(newRequest);
  }

  // ---- finalizeRequest ----

  predicate HasFailedContract(t: Tables, requestId: int)
  {
    exists k :: k in t.contracts && k.requestId == requestId && t.contracts[k].status == Some("F")
  }

  /** The statistics query joins the request's contracts: without any, it finds no row. */
  predicate HasStatistics(t: Tables, requestId: int)
  {
    exists k :: k in t.contracts && k.requestId == requestId
  }

  /**
   * finalizeRequest, one transaction: F when some contract failed, else P; an
   * unknown request raises EntityNotFoundException; without failures the
   * statistics row gets its end date, and a missing one raises (detach of
   * null), rolling the status update back.
   */
  function FinalizeOf(t: Tables, requestId: int, now: int): Result<Tables, Fault>
  {
    var failed := HasFailedContract(t, requestId);
    var status := if failed then "F" else "P";
    if !RequestExists(t.requests, requestId) then Err(PersistenceFault)
    else
      var t1 := t.(requests := UpdateRequestStatus(t.requests, requestId, status, now));
      if failed then Ok(t1)
      else if !HasStatistics(t, requestId) then Err(OtherFault)
      else Ok(t1.(statistics := t1.statistics[requestId := Statistic(requestId, Some(now))]))
  }

  /**
   * A finalized request is F exactly when one of its contracts is F, and P
   * otherwise; the end date is written only without failures; nothing else
   * changes.
   */
  lemma FinalizeRule(t: Tables, requestId: int, now: int)
    ensures !RequestExists(t.requests, requestId) ==> FinalizeOf(t, requestId, now) == Err(PersistenceFault)
    ensures FinalizeOf(t, requestId, now).Ok? ==>
      var t' := FinalizeOf(t, requestId, now).value;
      && |t'.requests| == |t.requests|
      && (forall i :: 0 <= i < |t.requests| ==>
            if t.requests[i].requestId == requestId then
              && (t'.requests[i].status == "F" <==> HasFailedContract(t, requestId))
              && (t'.requests[i].status == "P" <==> !HasFailedContract(t, requestId))
              && t'.requests[i] == t.requests[i].(status := t'.requests[i].status, statusDate := Some(now))
            else t'.requests[i] == t.requests[i])
      && (HasFailedContract(t, requestId) ==> t'.statistics == t.statistics)
      && (!HasFailedContract(t, requestId) ==> t'.statistics == t.statistics[requestId := Statistic(requestId, Some(now))])
      && t' == t.(requests := t'.requests, statistics := t'.statistics)
    ensures FinalizeOf(t, requestId, now).Err? ==> FinalizeOf(t, requestId, now).error != SqlFault
  {
    if RequestExists(t.requests, requestId) {
      var failed := HasFailedContract(t, requestId);
      var rows := UpdateRequestStatus(t.requests, requestId, if failed then "F" else "P", now);
      assert forall i :: 0 <= i < |t.requests| ==>
        rows[i] == if t.requests[i].requestId == requestId
          then t.requests[i].(status := rows[i].status, statusDate := Some(now)) else t.requests[i];
    }
  }

  /** A finalization that succeeds leaves every row of the request in F or P. */
  lemma FinalizedStatus(t: Tables, requestId: int, now: int)
    requires FinalizeOf(t, requestId, now).Ok?
    ensures forall i ::
      (0 <= i < |FinalizeOf(t, requestId, now).value.requests| &&
       FinalizeOf(t, requestId, now).value.requests[i].requestId == requestId) ==>
        FinalizeOf(t, requestId, now).value.requests[i].status in {"F", "P"}
  {
    FinalizeRule(t, requestId, now);
    var t' := FinalizeOf(t, requestId, now).value;
    forall i | 0 <= i < |t'.requests| && t'.requests[i].requestId == requestId
      ensures t'.requests[i].status in {"F", "P"}
    {
      assert t.requests[i].requestId == requestId;
    }
  }

  /** A known request with no failed contract and at least one contract is finalized P. */
  lemma CleanRequestFinalizes(t: Tables, requestId: int, now: int)
    requires RequestExists(t.requests, requestId) && HasStatistics(t, requestId)
    requires !HasFailedContract(t, requestId)
    ensures FinalizeOf(t, requestId, now).Ok?
  {
  }

  /** finalizeRequest: a fault rolls the whole transaction back. */
  method FinalizeRequest(requestId: int, now: int, db: Database) returns (thrown: Option<Fault>)
    modifies db
    ensures match FinalizeOf(old(db.tables), requestId, now)
      case Ok(t) => db.tables == t && thrown.None?
      case Err(f) => db.tables == old(db.tables) && thrown == Some(f)
  {
    var before := db.tables;
    var hasFailures := HasFailedContract(db.tables, requestId);
    var newStatus := if hasFailures then "F" else "P";
    var found := RequestExists(db.tables.requests, requestId);
    db.tables := db.tables.(requests := UpdateRequestStatus(db.tables.requests, requestId, newStatus, now));
    if !found {
      db.tables := before;
      return Some(PersistenceFault);
    }
    if !hasFailures {
      if !HasStatistics(db.tables, requestId) {
        db.tables := before;
        return Some(OtherFault);
      }
      db.tables := db.tables.(statistics := db.tables.statistics[requestId := Statistic(requestId, Some(now))]);
    }
    thrown := None;
  }

  // ---- resetting a failed request ----

  predicate Resettable(c: ContractRow)
  {
    c.status == Some("I") || c.status == Some("F")
  }

  /** resetFailedContracts: the request's contracts in I or F go to I. */
  function ResetContracts(m: map<ContractKey, ContractRow>, requestId: int): map<ContractKey, ContractRow>
  {
    map k | k in m :: if k.requestId == requestId && Resettable(m[k]) then m[k].(status := Some("I")) else m[k]
  }

  /** The number of rows the reset updates. */
  function ResetCount(m: map<ContractKey, ContractRow>, requestId: int): nat
  {
    |set k | k in m && k.requestId == requestId && Resettable(m[k])|
  }

  predicate HoldsPending(m: map<ContractKey, ContractRow>, requestId: int, packId: int)
  {
    exists k :: k in m && k.requestId == requestId && k.packId == packId && m[k].status == Some("I")
  }

  /**
   * resetFailedContractsAndPackages: the contracts reset, and every package of
   * the request that then holds an I contract set back to I.  It answers the
   * number of contracts reset.
   */
  function ResetOf(t: Tables, requestId: int): (Tables, nat)
  {
    var contracts := ResetContracts(t.contracts, requestId);
    var packages := seq(|t.packages|, i requires 0 <= i < |t.packages| =>
      if t.packages[i].requestId == requestId && HoldsPending(contracts, requestId, t.packages[i].packId)
      then t.packages[i].(status := "I") else t.packages[i]);
    (t.(contracts := contracts, packages := packages), ResetCount(t.contracts, requestId))
  }

  /**
   * After a reset no contract of the request is F, contracts in P or S and
   * those of other requests are untouched, and the count is positive exactly
   * when some contract of the request was I or F.
   */
  lemma ResetRule(t: Tables, requestId: int)
    ensures var (t', n) := ResetOf(t, requestId);
      && t'.contracts.Keys == t.contracts.Keys
      && (forall k :: k in t.contracts ==>
            if k.requestId == requestId && Resettable(t.contracts[k])
            then t'.contracts[k] == t.contracts[k].(status := Some("I"))
            else t'.contracts[k] == t.contracts[k])
      && !HasFailedContract(t', requestId)
      && (n > 0 <==> exists k :: k in t.contracts && k.requestId == requestId && Resettable(t.contracts[k]))
  {
    var (t', n) := ResetOf(t, requestId);
    assert t'.contracts == ResetContracts(t.contracts, requestId);
    assert n == ResetCount(t.contracts, requestId);
    ResetLeavesNoFailure(t.contracts, requestId);
    ResetCountPositive(t.contracts, requestId);
  }

  lemma ResetLeavesNoFailure(m: map<ContractKey, ContractRow>, requestId: int)
    ensures forall k :: k in ResetContracts(m, requestId) && k.requestId == requestId ==>
      ResetContracts(m, requestId)[k].status != Some("F")
  {
  }

  lemma ResetCountPositive(m: map<ContractKey, ContractRow>, requestId: int)
    ensures ResetCount(m, requestId) > 0 <==> exists k :: k in m && k.requestId == requestId && Resettable(m[k])
  {
    var s := set k | k in m && k.requestId == requestId && Resettable(m[k]);
    if exists k :: k in m && k.requestId == requestId && Resettable(m[k]) {
      var k :| k in m && k.requestId == requestId && Resettable(m[k]);
      assert k in s;
    } else {
      assert s == {};
    }
  }

  /** resetFailedContractsAndPackages, one transaction: the reset, answering the number of contracts reset. */
  method ResetFailedContractsAndPackages(requestId: int, db: Database) returns (updated: nat)
    modifies db
    ensures (db.tables, updated) == ResetOf(old(db.tables), requestId)
  {
    var reset := ResetOf(db.tables, requestId);
    db.tables := reset.0;
    updated := reset.1;
  }
}
