// The entry point of a discount run: mode "c" starts a new request for a
// bill cycle, mode "r" resumes a failed one.  Every failure on the way ends
// the run quietly (it is logged and swallowed), so the run itself never
// raises; which way it ended is returned as a Run value.
module ExecutionManagement {
  import opened Wrappers
  import opened Entities
  import opened Store
  import opened Configurations
  import opened BillCycleService
  import opened RequestService
  import opened BatchProcessing

  const NewRequestMode: string := "c"
  const ResumeRequestMode: string := "r"

  // ---- Integer.parseInt ----

  const IntMin: int := -0x8000_0000
  const IntMax: int := 0x7fff_ffff

  predicate IsDigit(c: char)
  {
    '0' <= c <= '9'
  }

  predicate AllDigits(s: string)
  {
    forall i :: 0 <= i < |s| ==> IsDigit(s[i])
  }

  /** The value of a string of decimal digits, most significant first. */
  function DigitsValue(s: string): nat
    requires AllDigits(s)
  {
    if s == [] then 0 else DigitsValue(s[..|s| - 1]) * 10 + ((s[|s| - 1] as int) - ('0' as int))
  }

  /** The string without its leading sign, if it has one. */
  function Magnitude(s: string): string
  {
    if s != [] && (s[0] == '-' || s[0] == '+') then s[1..] else s
  }

  /**
   * Integer.parseInt: an optional sign and at least one digit, whose value
   * fits in 32 bits; anything else is a NumberFormatException (None).
   */
  function ParseInt(s: string): (r: Option<int>)
    ensures r.Some? ==> IntMin <= r.value <= IntMax && Magnitude(s) != [] && AllDigits(Magnitude(s))
  {
    var digits := Magnitude(s);
    if digits == [] || !AllDigits(digits) then None
    else
      var v: int := if s[0] == '-' then -(DigitsValue(digits) as int) else DigitsValue(digits) as int;
      if IntMin <= v <= IntMax then Some(v) else None
  }

  /** The decimal digits of n, without leading zeros. */
  function Decimal(n: nat): (r: string)
    ensures r != [] && AllDigits(r)
  {
    if n < 10 then [('0' as int + n) as char] else Decimal(n / 10) + [('0' as int + n % 10) as char]
  }

  /** Integer.toString. */
  function IntToString(n: int): string
  {
    if n < 0 then "-" + Decimal(-n) else Decimal(n)
  }

  lemma {:induction false} DecimalValue(n: nat)
    ensures DigitsValue(Decimal(n)) == n
  {
    if n >= 10 {
      DecimalValue(n / 10);
      var d := Decimal(n);
      assert d[..|d| - 1] == Decimal(n / 10);
    }
  }

  /** Every 32-bit integer reads back from its decimal form. */
  lemma ParseIntRoundTrip(n: int)
    requires IntMin <= n <= IntMax
    ensures ParseInt(IntToString(n)) == Some(n)
  {
    var s := IntToString(n);
    if n < 0 {
      DecimalValue(-n);
      assert Magnitude(s) == Decimal(-n);
    } else {
      DecimalValue(n);
      assert Magnitude(s) == Decimal(n);
    }
  }

  /** A bare sign and a stray character are refused. */
  lemma ParseIntRefusesMalformed()
    ensures ParseInt("") == None && ParseInt("-") == None && ParseInt("+") == None
    ensures ParseInt("12a") == None && ParseInt(" 12") == None
  {
    assert !AllDigits("12a") by { assert !IsDigit("12a"[2]); }
    assert Magnitude(" 12") == " 12" && !AllDigits(" 12") by { assert !IsDigit(" 12"[0]); }
  }

  /** A decimal value past the 32-bit range is refused, with or without its sign. */
  lemma ParseIntRefusesOutOfRange(n: nat)
    ensures n > IntMax ==> ParseInt(Decimal(n)) == None
    ensures n > -IntMin ==> ParseInt("-" + Decimal(n)) == None
  {
    var d := Decimal(n);
    DecimalValue(n);
    assert IsDigit(d[0]);
    assert Magnitude(d) == d;
    assert ("-" + d)[1..] == d;
  }

  // ---- a run ----

  /** What the environment answers during one run. */
  datatype Environment = Environment(
    now: int,
    cutoffLookup: Option<int>,         // the cycle definition table's cutoff for the code
    configRows: ConfigRows,            // the configuration tables
    eligible: seq<EligibleRow>,        // the eligible-contracts query
    nextId: int,                       // getNextAvailableRequestId
    packOf: int -> int,                // the package each contract id is placed in
    packages: int -> PackageInput,     // per pack id, the package queries' answers
    chunkSize: int,
    grantingEnabled: bool)

  /** The configuration snapshot, the tables and the billing calls. */
  datatype World = World(cfg: Snapshot, tables: Tables, calls: seq<OccCall>)

  /** How a run ended. */
  datatype Run =
    | InvalidMode(mode: string)
    | AlreadyInProgress(requestId: int)
    | BillCycleRefused(error: BillCycleError)
    | ConfigurationFailed
    | NoEligibleContracts
    | BadRequestNumber(input: string)
    | RequestNotFound(requestId: int)
    | ResumeRefused(requestId: int, status: string)
    | NothingToReset(requestId: int)
    | UnexpectedStatus(requestId: int, status: string)
    | Processed(requestId: int, finalizeFault: Option<Fault>)

  /** processRequest: the request's packages, then its finalization. */
  function ProcessRequestOf(w: World, request: RequestRow, env: Environment): (World, Run)
  {
    var s := Settings(env.chunkSize, w.cfg, env.grantingEnabled, env.now);
    var b := RequestPackagesRun(Batch(w.tables, w.calls), PackIdOnly, request, env.packages, s);
    match FinalizeOf(b.tables, request.requestId, env.now)
    case Ok(t) => (World(w.cfg, t, b.calls), Processed(request.requestId, None))
    case Err(f) => (World(w.cfg, b.tables, b.calls), Processed(request.requestId, Some(f)))
  }

  /**
   * processNewRequest: refused while a request is W; then the bill cycle and
   * its cutoff; then the configuration is refreshed (and refreshed once more
   * by the registration) before the request is registered and processed.
   */
  function NewRequestOf(w: World, code: string, env: Environment): (World, Run)
  {
    match FetchOngoingRequest(w.tables)
    case Some(r) => (w, AlreadyInProgress(r.requestId))
    case None =>
      match ValidateBillCycle(code)
      case Fail(e) => (w, BillCycleRefused(e))
      case Pass =>
        match FetchCutoffDate(code, env.cutoffLookup, env.now)
        case Err(e) => (w, BillCycleRefused(e))
        case Ok(cutoff) =>
          var (cfg1, thrown1) := Reload(w.cfg, env.configRows);
          if thrown1.Some? then (w.(cfg := cfg1), ConfigurationFailed)
          else
            var (cfg2, thrown2) := Reload(cfg1, env.configRows);
            if thrown2.Some? then (w.(cfg := cfg2), ConfigurationFailed)
            else
              var reg := RegisterOf(w.tables, env.eligible, code, cutoff, env.nextId, env.packOf);
              var w' := World(cfg2, reg.tables, w.calls);
              if reg.request.None? then (w', NoEligibleContracts)
              else ProcessRequestOf(w', reg.request.value, env)
  }

  /**
   * processResumeRequest: the input must parse and name a request; W and P
   * are refused; F is reset and processed when the reset found contracts;
   * any other status ends the run.
   */
  function ResumeOf(w: World, input: string, env: Environment): (World, Run)
  {
    match ParseInt(input)
    case None => (w, BadRequestNumber(input))
    case Some(id) =>
      match FetchRequestById(w.tables, id)
      case None => (w, RequestNotFound(id))
      case Some(request) =>
        if request.status == "W" || request.status == "P" then (w, ResumeRefused(id, request.status))
        else if request.status == "F" then
          var (t, updated) := ResetOf(w.tables, id);
          if updated > 0 then ProcessRequestOf(w.(tables := t), request, env)
          else (w.(tables := t), NothingToReset(id))
        else (w, UnexpectedStatus(id, request.status))
  }

  /** processDiscounts: dispatch on the mode. */
  function ProcessDiscountsOf(w: World, mode: string, input: string, env: Environment): (World, Run)
  {
    if mode == NewRequestMode then NewRequestOf(w, input, env)
    else if mode == ResumeRequestMode then ResumeOf(w, input, env)
    else (w, InvalidMode(mode))
  }

  // ---- properties of a run ----

  /** A mode other than "c" and "r" changes nothing. */
  lemma InvalidModeChangesNothing(w: World, mode: string, input: string, env: Environment)
    requires mode != "c" && mode != "r"
    ensures ProcessDiscountsOf(w, mode, input, env) == (w, InvalidMode(mode))
  {
  }

  /** While some request is W, a new request is refused and nothing changes. */
  lemma NewRequestRefusedWhileOngoing(w: World, code: string, env: Environment, i: int)
    requires 0 <= i < |w.tables.requests| && w.tables.requests[i].status == "W"
    ensures NewRequestOf(w, code, env).0 == w
    ensures NewRequestOf(w, code, env).1.AlreadyInProgress?
  {
    OngoingRequestRule(w.tables);
  }

  /**
   * A new request is registered only for a known bill cycle with a cutoff
   * that is not in the future, and only after a successful refresh: the
   * configuration it is processed with is the one built from the tables.
   */
  lemma NewRequestNeedsValidCycleAndFreshConfig(w: World, code: string, env: Environment)
    ensures var (w', run) := NewRequestOf(w, code, env);
      (run.Processed? || run.NoEligibleContracts?) ==>
        && code in {"90", "05", "02", "03"}
        && env.cutoffLookup.Some? && env.cutoffLookup.value <= env.now
        && WellKeyed(env.configRows)
        && w'.cfg == Loaded(env.configRows)
        && (run.Processed? ==> run.requestId == env.nextId && env.eligible != [])
  {
    ValidateMatchesCycles(code);
    CutoffRules(code, env.cutoffLookup, env.now);
    if FetchOngoingRequest(w.tables).None? && ValidateBillCycle(code).Pass?
       && FetchCutoffDate(code, env.cutoffLookup, env.now).Ok?
    {
      var cutoff := FetchCutoffDate(code, env.cutoffLookup, env.now).value;
      var (cfg1, thrown1) := Reload(w.cfg, env.configRows);
      ReloadReplacesAll(w.cfg, env.configRows);
      ReloadReplacesAll(cfg1, env.configRows);
      if thrown1.None? {
        var (cfg2, thrown2) := Reload(cfg1, env.configRows);
        var reg := RegisterOf(w.tables, env.eligible, code, cutoff, env.nextId, env.packOf);
        var w' := World(cfg2, reg.tables, w.calls);
        if thrown2.None? && reg.request.Some? {
          assert reg.request.value.requestId == env.nextId;
          ProcessRequestFinalizes(w', reg.request.value, env);
        }
      }
    }
  }

  /** Processing finalizes the request it was given: with finalization succeeding, the request is F or P. */
  lemma ProcessRequestFinalizes(w: World, request: RequestRow, env: Environment)
    ensures var (w', run) := ProcessRequestOf(w, request, env);
      && run == Processed(request.requestId, run.finalizeFault)
      && (run.finalizeFault.None? ==>
            forall i :: 0 <= i < |w'.tables.requests| && w'.tables.requests[i].requestId == request.requestId ==>
              w'.tables.requests[i].status in {"F", "P"})
      && (run.finalizeFault == Some(PersistenceFault) <==> !RequestExists(w.tables.requests, request.requestId))
  {
    var s := Settings(env.chunkSize, w.cfg, env.grantingEnabled, env.now);
    var b := RequestPackagesRun(Batch(w.tables, w.calls), PackIdOnly, request, env.packages, s);
    PackagesRunKeepsRequests(Batch(w.tables, w.calls), PackIdOnly, request, AvailablePackages(w.tables, request.requestId), env.packages, s);
    var f := FinalizeOf(b.tables, request.requestId, env.now);
    FinalizeRule(b.tables, request.requestId, env.now);
    if f.Ok? {
      FinalizedStatus(b.tables, request.requestId, env.now);
    }
  }

  /**
   * Resuming: an input that does not parse, an unknown id, a request in W or
   * P, or an unexpected status change nothing; an F request with nothing to
   * reset is not processed, so no billing call is made.
   */
  lemma ResumeRules(w: World, input: string, env: Environment)
    ensures var (w', run) := ResumeOf(w, input, env);
      && (ParseInt(input).None? ==> run == BadRequestNumber(input) && w' == w)
      && (run.RequestNotFound? || run.ResumeRefused? || run.UnexpectedStatus? ==> w' == w)
      && (run.ResumeRefused? ==> run.status in {"W", "P"})
      && (run.NothingToReset? ==> w'.calls == w.calls)
      && (run.Processed? ==> ParseInt(input) == Some(run.requestId) && FetchRequestById(w.tables, run.requestId).value.status == "F")
  {
  }

  // ---- the invariant: at most one request in W ----

  predicate UniqueRequestIds(rows: seq<RequestRow>)
  {
    forall i, j :: 0 <= i < j < |rows| ==> rows[i].requestId != rows[j].requestId
  }

  predicate AtMostOneOngoing(rows: seq<RequestRow>)
  {
    forall i, j :: 0 <= i < j < |rows| && rows[i].status == "W" ==> rows[j].status != "W"
  }

  predicate RequestsWellFormed(rows: seq<RequestRow>)
  {
    UniqueRequestIds(rows) && AtMostOneOngoing(rows)
  }

  /** Setting one request's status to something other than W keeps the invariant. */
  lemma UpdateKeepsWellFormed(rows: seq<RequestRow>, requestId: int, status: string, date: int)
    requires RequestsWellFormed(rows) && status != "W"
    ensures RequestsWellFormed(UpdateRequestStatus(rows, requestId, status, date))
  {
    var r := UpdateRequestStatus(rows, requestId, status, date);
    assert forall i :: 0 <= i < |r| ==> r[i].requestId == rows[i].requestId && (r[i].status == "W" ==> rows[i].status == "W");
  }

  /** Saving a W request into a table without W requests keeps the invariant. */
  lemma SaveKeepsWellFormed(rows: seq<RequestRow>, request: RequestRow)
    requires RequestsWellFormed(rows)
    requires forall i :: 0 <= i < |rows| ==> rows[i].status != "W"
    ensures RequestsWellFormed(SaveRequest(rows, request))
  {
    var r := SaveRequest(rows, request);
    if !RequestExists(rows, request.requestId) {
      assert forall i :: 0 <= i < |rows| ==> r[i] == rows[i];
      assert forall i :: 0 <= i < |rows| ==> rows[i].requestId != request.requestId;
    } else {
      assert forall i :: 0 <= i < |r| ==> r[i].requestId == rows[i].requestId;
      assert forall i :: 0 <= i < |r| && r[i].status == "W" ==> r[i].requestId == request.requestId;
    }
  }

  lemma ProcessRequestKeepsWellFormed(w: World, request: RequestRow, env: Environment)
    requires RequestsWellFormed(w.tables.requests)
    ensures RequestsWellFormed(ProcessRequestOf(w, request, env).0.tables.requests)
  {
    var s := Settings(env.chunkSize, w.cfg, env.grantingEnabled, env.now);
    var b := RequestPackagesRun(Batch(w.tables, w.calls), PackIdOnly, request, env.packages, s);
    PackagesRunKeepsRequests(Batch(w.tables, w.calls), PackIdOnly, request, AvailablePackages(w.tables, request.requestId), env.packages, s);
    var failed := HasFailedContract(b.tables, request.requestId);
    UpdateKeepsWellFormed(b.tables.requests, request.requestId, if failed then "F" else "P", env.now);
  }

  lemma NewRequestKeepsWellFormed(w: World, code: string, env: Environment)
    requires RequestsWellFormed(w.tables.requests)
    ensures RequestsWellFormed(NewRequestOf(w, code, env).0.tables.requests)
  {
    if FetchOngoingRequest(w.tables).None? && ValidateBillCycle(code).Pass? && FetchCutoffDate(code, env.cutoffLookup, env.now).Ok? {
      OngoingRequestRule(w.tables);
      var cutoff := FetchCutoffDate(code, env.cutoffLookup, env.now).value;
      var reg := RegisterOf(w.tables, env.eligible, code, cutoff, env.nextId, env.packOf);
      if env.eligible != [] {
        SaveKeepsWellFormed(w.tables.requests, NewRequest(env.nextId, code, cutoff));
        var cfg2 := Reload(Reload(w.cfg, env.configRows).0, env.configRows).0;
        ProcessRequestKeepsWellFormed(World(cfg2, reg.tables, w.calls), reg.request.value, env);
      }
    }
  }

  lemma ResumeKeepsWellFormed(w: World, input: string, env: Environment)
    requires RequestsWellFormed(w.tables.requests)
    ensures RequestsWellFormed(ResumeOf(w, input, env).0.tables.requests)
  {
    var parsed := ParseInt(input);
    if parsed.Some? && FetchRequestById(w.tables, parsed.value).Some? {
      var reset := ResetOf(w.tables, parsed.value);
      ProcessRequestKeepsWellFormed(w.(tables := reset.0), FetchRequestById(w.tables, parsed.value).value, env);
    }
  }

  /**
   * Request ids stay unique and at most one request is ever W: a new request
   * is only registered when none is W, and processing ends it F or P (or
   * leaves it W when finalization raised).
   */
  lemma AtMostOneOngoingRequest(w: World, mode: string, input: string, env: Environment)
    requires RequestsWellFormed(w.tables.requests)
    ensures RequestsWellFormed(ProcessDiscountsOf(w, mode, input, env).0.tables.requests)
  {
    if mode == NewRequestMode {
      NewRequestKeepsWellFormed(w, input, env);
    } else if mode == ResumeRequestMode {
      ResumeKeepsWellFormed(w, input, env);
    }
  }

  // ---- the service ----

  /** processRequest. */
  method ProcessRequest(request: RequestRow, env: Environment, conf: DynDiscConfigurations, db: Database, billing: Billing)
    returns (finalizeFault: Option<Fault>)
    modifies db, billing
    ensures (World(conf.Current(), db.tables, billing.calls), Processed(request.requestId, finalizeFault))
            == ProcessRequestOf(World(conf.Current(), old(db.tables), old(billing.calls)), request, env)
  {
    var s := Settings(env.chunkSize, conf.Current(), env.grantingEnabled, env.now);
    ProcessRequestPackages(request, env.packages, s, db, billing);
    finalizeFault := FinalizeRequest(request.requestId, env.now, db);
  }

  /** processNewRequest. */
  method ProcessNewRequest(code: string, env: Environment, conf: DynDiscConfigurations, db: Database, billing: Billing)
    returns (run: Run)
    modifies conf, db, billing
    ensures (World(conf.Current(), db.tables, billing.calls), run)
            == NewRequestOf(World(old(conf.Current()), old(db.tables), old(billing.calls)), code, env)
  {
    var ongoing := FetchOngoingRequest(db.tables);
    if ongoing.Some? {
      return AlreadyInProgress(ongoing.value.requestId);
    }
    var valid := ValidateBillCycle(code);
    if valid.Fail? {
      return BillCycleRefused(valid.error);
    }
    var cutoff := FetchCutoffDate(code, env.cutoffLookup, env.now);
    if cutoff.Err? {
      return BillCycleRefused(cutoff.error);
    }
    var thrown := conf.RefreshConfigurations(env.configRows);
    if thrown.Some? {
      return ConfigurationFailed;
    }
    var request, thrownAgain := RegisterNewRequest(conf, env.configRows, env.eligible, code, cutoff.value, env.nextId,
                                                   env.packOf, db);
    if thrownAgain.Some? {
      return ConfigurationFailed;
    }
    if request.None? {
      return NoEligibleContracts;
    }
    var fault := ProcessRequest(request.value, env, conf, db, billing);
    run := Processed(request.value.requestId, fault);
  }

  /** processResumeRequest. */
  method ProcessResumeRequest(input: string, env: Environment, conf: DynDiscConfigurations, db: Database, billing: Billing)
    returns (run: Run)
    modifies db, billing
    ensures (World(conf.Current(), db.tables, billing.calls), run)
            == ResumeOf(World(conf.Current(), old(db.tables), old(billing.calls)), input, env)
  {
    var parsed := ParseInt(input);
    if parsed.None? {
      return BadRequestNumber(input);
    }
    var id := parsed.value;
    var request := FetchRequestById(db.tables, id);
    if request.None? {
      return RequestNotFound(id);
    }
    var status := request.value.status;
    if status == "W" || status == "P" {
      return ResumeRefused(id, status);
    }
    if status == "F" {
      var updated := ResetFailedContractsAndPackages(id, db);
      if updated > 0 {
        var fault := ProcessRequest(request.value, env, conf, db, billing);
        run := Processed(id, fault);
      } else {
        run := NothingToReset(id);
      }
      return;
    }
    run := UnexpectedStatus(id, status);
  }

  /** processDiscounts: never raises; the Run says how it ended. */
  method ProcessDiscounts(mode: string, input: string, env: Environment, conf: DynDiscConfigurations, db: Database,
                          billing: Billing)
    returns (run: Run)
    modifies conf, db, billing
    ensures (World(conf.Current(), db.tables, billing.calls), run)
            == ProcessDiscountsOf(World(old(conf.Current()), old(db.tables), old(billing.calls)), mode, input, env)
  {
    if mode == NewRequestMode {
      run := ProcessNewRequest(input, env, conf, db, billing);
    } else if mode == ResumeRequestMode {
      run := ProcessResumeRequest(input, env, conf, db, billing);
    } else {
      run := InvalidMode(mode);
    }
  }
}
