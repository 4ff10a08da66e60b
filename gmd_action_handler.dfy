// What the listener does for one service-change request: a new discount
// assignment with an A state row (activation, service assignment), a D state
// row and a delete date on the latest live assignment (deactivations, service
// removal), or an A or S state row (reactivation, suspension).  Each save is
// its own transaction; a data-integrity violation is logged and swallowed,
// any other failure propagates.
module GmdActionHandling {
  import opened Wrappers
  import opened Entities
  import opened Store
  import opened GmdActions
  import opened DiscountStates
  import IntSets

  /** A queue entry joined with its service history row and discount configuration. */
  datatype GmdRequest = GmdRequest(
    request: int,
    customerId: int,
    coId: int,
    actionId: int,
    discId: int,
    discSncode: int,
    validFrom: int)

  /** How one save ended. */
  datatype SaveOutcome = Saved | IntegrityViolation | SaveFailed(fault: Fault)

  /** The environment's side of handling one request. */
  datatype HandlerEnv = HandlerEnv(
    now: int,
    nextAssignId: int,          // the next value of the assignment id sequence
    assignSave: SaveOutcome,
    stateSave: SaveOutcome)

  /** The tables after the handler, and the fault it raised, if any. */
  datatype Handled = Handled(tables: Tables, thrown: Option<Fault>)

  // ---- the look-ups ----

  predicate LiveAssignOf(a: Assign, coId: int, discSncode: int)
  {
    a.deleteDate.None? && a.coId == coId && a.discSncode == discSncode
  }

  /** findLatestAssign: the id of the live assignment of the contract and service with the highest id. */
  function LatestAssign(assigns: map<int, Assign>, coId: int, discSncode: int): (r: Option<int>)
    ensures r.Some? ==>
      && r.value in assigns && LiveAssignOf(assigns[r.value], coId, discSncode)
      && forall id :: id in assigns && LiveAssignOf(assigns[id], coId, discSncode) ==> id <= r.value
    ensures r.None? <==> forall id :: id in assigns ==> !LiveAssignOf(assigns[id], coId, discSncode)
  {
    var ids := set id | id in assigns && LiveAssignOf(assigns[id], coId, discSncode);
    assert forall id :: id in assigns && LiveAssignOf(assigns[id], coId, discSncode) ==> id in ids;
    if IntSets.NonEmpty(ids) then Some(IntSets.MaxOf(ids)) else None
  }

  /** findMaxSeqnoByAssignId: COALESCE(MAX(seqno), 0) over the assignment's state rows. */
  function MaxSeqno(states: map<StateKey, AssignState>, assignId: int): (r: int)
    ensures forall k :: k in states && k.assignId == assignId ==> k.seqno <= r
    ensures (forall k :: k in states ==> k.assignId != assignId) ==> r == 0
  {
    var seqnos := set k | k in states && k.assignId == assignId :: k.seqno;
    assert forall k :: k in states && k.assignId == assignId ==> k.seqno in seqnos;
    if IntSets.NonEmpty(seqnos) then IntSets.MaxOf(seqnos) else 0
  }

  /** buildNewDiscountAssign: apply count 0, no overwrite, assigned as of the service's valid-from date. */
  function NewAssign(r: GmdRequest, assignId: int, now: int): Assign
  {
    Assign(assignId, r.customerId, r.coId, r.discSncode, r.discId, now, r.validFrom, None, None, None, Some(0), None,
           r.request)
  }

  // ---- the handler ----

  /** addAssignState: the next seqno of the assignment, the request's action and date. */
  function AddStateOf(t: Tables, assignId: int, r: GmdRequest, status: string, env: HandlerEnv): Handled
  {
    var key := StateKey(assignId, MaxSeqno(t.assignStates, assignId) + 1);
    var state := AssignState(key, r.actionId, status, r.validFrom, r.request, env.now);
    match env.stateSave
    case Saved => Handled(t.(assignStates := t.assignStates[key := state]), None)
    case IntegrityViolation => Handled(t, None)
    case SaveFailed(f) => Handled(t, Some(f))
  }

  /**
   * addNewDiscountInstance: the assignment under the sequence's next id (an
   * id already taken violates the primary key), then its A state row.
   */
  function AddNewInstanceOf(t: Tables, r: GmdRequest, env: HandlerEnv): Handled
  {
    var id := env.nextAssignId;
    var outcome := if id in t.assigns then IntegrityViolation else env.assignSave;
    match outcome
    case IntegrityViolation => Handled(t, None)
    case SaveFailed(f) => Handled(t, Some(f))
    case Saved => AddStateOf(t.(assigns := t.assigns[id := NewAssign(r, id, env.now)]), id, r, Active.Code(), env)
  }

  /**
   * updateDiscountInstanceStatus: on the latest live assignment of the
   * contract and service, if there is one; a deactivation also sets its
   * delete date.
   */
  function UpdateInstanceOf(t: Tables, r: GmdRequest, state: DynDiscountState, env: HandlerEnv): Handled
  {
    match LatestAssign(t.assigns, r.coId, r.discSncode)
    case None => Handled(t, None)
    case Some(id) =>
      if state == Deactive then
        match env.assignSave
        case IntegrityViolation => Handled(t, None)
        case SaveFailed(f) => Handled(t, Some(f))
        case Saved =>
          var t1 := t.(assigns := t.assigns[id := t.assigns[id].(deleteDate := Some(r.validFrom))]);
          AddStateOf(t1, id, r, state.Code(), env)
      else AddStateOf(t, id, r, state.Code(), env)
  }

  /** handleAction: dispatch on the action; an unknown id makes the switch raise (a null enum). */
  function HandleOf(t: Tables, r: GmdRequest, env: HandlerEnv): Handled
  {
    match GetActionById(r.actionId)
    case None => Handled(t, Some(OtherFault))
    case Some(action) =>
      match action
      case ActivateContract => AddNewInstanceOf(t, r, env)
      case AssignService => AddNewInstanceOf(t, r, env)
      case DeactivateContract => UpdateInstanceOf(t, r, Deactive, env)
      case DeactivateSuspendedContract => UpdateInstanceOf(t, r, Deactive, env)
      case RemoveService => UpdateInstanceOf(t, r, Deactive, env)
      case ReactivateContract => UpdateInstanceOf(t, r, Active, env)
      case SuspendContract => UpdateInstanceOf(t, r, Suspended, env)
  }

  // ---- properties ----

  /** The handler writes assignments and state rows only. */
  predicate OnlyAssignmentsChanged(t: Tables, t': Tables)
  {
    t' == t.(assigns := t'.assigns, assignStates := t'.assignStates)
  }

  /** A new state row gets a seqno above every existing one of its assignment: 1 for the first. */
  lemma NextSeqnoIsFresh(states: map<StateKey, AssignState>, assignId: int)
    ensures StateKey(assignId, MaxSeqno(states, assignId) + 1) !in states
    ensures (forall k :: k in states ==> k.assignId != assignId) ==> MaxSeqno(states, assignId) + 1 == 1
  {
  }

  /** The properties of one handler outcome: what changed, what was kept, why it raised. */
  predicate Framed(t: Tables, h: Handled, env: HandlerEnv)
  {
    && OnlyAssignmentsChanged(t, h.tables)
    && (forall k :: k in t.assignStates ==> k in h.tables.assignStates && h.tables.assignStates[k] == t.assignStates[k])
    && (h.thrown.Some? ==> env.assignSave == SaveFailed(h.thrown.value) || env.stateSave == SaveFailed(h.thrown.value))
  }

  lemma AddStateFramed(t: Tables, assignId: int, r: GmdRequest, status: string, env: HandlerEnv)
    ensures Framed(t, AddStateOf(t, assignId, r, status, env), env)
  {
    NextSeqnoIsFresh(t.assignStates, assignId);
  }

  lemma AddNewInstanceFramed(t: Tables, r: GmdRequest, env: HandlerEnv)
    ensures Framed(t, AddNewInstanceOf(t, r, env), env)
  {
    var id := env.nextAssignId;
    if id !in t.assigns && env.assignSave == Saved {
      AddStateFramed(t.(assigns := t.assigns[id := NewAssign(r, id, env.now)]), id, r, Active.Code(), env);
    }
  }

  lemma UpdateInstanceFramed(t: Tables, r: GmdRequest, state: DynDiscountState, env: HandlerEnv)
    ensures Framed(t, UpdateInstanceOf(t, r, state, env), env)
  {
    match LatestAssign(t.assigns, r.coId, r.discSncode)
    case None =>
    case Some(id) =>
      if state == Deactive {
        if env.assignSave == Saved {
          var t1 := t.(assigns := t.assigns[id := t.assigns[id].(deleteDate := Some(r.validFrom))]);
          AddStateFramed(t1, id, r, state.Code(), env);
        }
      } else {
        AddStateFramed(t, id, r, state.Code(), env);
      }
  }

  /**
   * Whatever happens, only assignments and state rows change, no existing
   * state row is altered, and the handler raises only for an unknown action
   * or a save that failed other than by a data-integrity violation.
   */
  lemma HandlerFrame(t: Tables, r: GmdRequest, env: HandlerEnv)
    ensures var h := HandleOf(t, r, env);
      && OnlyAssignmentsChanged(t, h.tables)
      && (forall k :: k in t.assignStates ==> k in h.tables.assignStates && h.tables.assignStates[k] == t.assignStates[k])
      && (h.thrown.Some? ==>
            || GetActionById(r.actionId).None?
            || env.assignSave == SaveFailed(h.thrown.value)
            || env.stateSave == SaveFailed(h.thrown.value))
  {
    match GetActionById(r.actionId)
    case None =>
    case Some(action) =>
      match action
      case ActivateContract => AddNewInstanceFramed(t, r, env);
      case AssignService => AddNewInstanceFramed(t, r, env);
      case DeactivateContract => UpdateInstanceFramed(t, r, Deactive, env);
      case DeactivateSuspendedContract => UpdateInstanceFramed(t, r, Deactive, env);
      case RemoveService => UpdateInstanceFramed(t, r, Deactive, env);
      case ReactivateContract => UpdateInstanceFramed(t, r, Active, env);
      case SuspendContract => UpdateInstanceFramed(t, r, Suspended, env);
  }

  /** An unknown action id raises and writes nothing. */
  lemma UnknownActionRaises(t: Tables, r: GmdRequest, env: HandlerEnv)
    requires !(r.actionId in {1, 2, 3, 4, 5, 8, 9})
    ensures HandleOf(t, r, env) == Handled(t, Some(OtherFault))
  {
    KnownActionIds(r.actionId);
  }

  /** Integrity violations are swallowed: with no save failing otherwise, a known action never raises. */
  lemma IntegrityViolationsSwallowed(t: Tables, r: GmdRequest, env: HandlerEnv)
    requires GetActionById(r.actionId).Some?
    requires !env.assignSave.SaveFailed? && !env.stateSave.SaveFailed?
    ensures HandleOf(t, r, env).thrown.None?
  {
    HandlerFrame(t, r, env);
  }

  /**
   * Activation and service assignment (ids 1 and 8), when both saves go
   * through: a new assignment with apply count 0, no overwrite count and the
   * valid-from date as assignment date, and its first state row, A.
   */
  lemma ActivationAddsAssignment(t: Tables, r: GmdRequest, env: HandlerEnv)
    requires GetActionById(r.actionId) in {Some(ActivateContract), Some(AssignService)}
    requires env.nextAssignId !in t.assigns && env.assignSave == Saved && env.stateSave == Saved
    ensures var h := HandleOf(t, r, env);
      var id := env.nextAssignId;
      var key := StateKey(id, MaxSeqno(t.assignStates, id) + 1);
      && h.thrown.None?
      && h.tables.assigns == t.assigns[id := NewAssign(r, id, env.now)]
      && h.tables.assigns[id].applyCount == Some(0) && h.tables.assigns[id].ovwApplyCount.None?
      && h.tables.assigns[id].assignDate == r.validFrom && h.tables.assigns[id].deleteDate.None?
      && h.tables.assignStates == t.assignStates[key := AssignState(key, r.actionId, "A", r.validFrom, r.request, env.now)]
      && ((forall k :: k in t.assignStates ==> k.assignId != id) ==> key.seqno == 1)
  {
  }

  /**
   * Deactivations and service removal (ids 2, 5 and 9), when a live
   * assignment exists and both saves go through: the latest one gets the
   * valid-from date as delete date and a D state row; no other assignment
   * changes.
   */
  lemma DeactivationClosesLatest(t: Tables, r: GmdRequest, env: HandlerEnv)
    requires GetActionById(r.actionId) in {Some(DeactivateContract), Some(DeactivateSuspendedContract), Some(RemoveService)}
    requires LatestAssign(t.assigns, r.coId, r.discSncode).Some?
    requires env.assignSave == Saved && env.stateSave == Saved
    ensures var h := HandleOf(t, r, env);
      var id := LatestAssign(t.assigns, r.coId, r.discSncode).value;
      var key := StateKey(id, MaxSeqno(t.assignStates, id) + 1);
      && h.thrown.None?
      && h.tables.assigns == t.assigns[id := t.assigns[id].(deleteDate := Some(r.validFrom))]
      && h.tables.assignStates == t.assignStates[key := AssignState(key, r.actionId, "D", r.validFrom, r.request, env.now)]
  {
    var id := LatestAssign(t.assigns, r.coId, r.discSncode).value;
    var t1 := t.(assigns := t.assigns[id := t.assigns[id].(deleteDate := Some(r.validFrom))]);
    assert HandleOf(t, r, env) == UpdateInstanceOf(t, r, Deactive, env) == AddStateOf(t1, id, r, "D", env);
  }

  /** Reactivation (3) adds an A row, suspension (4) an S row; neither touches the assignment. */
  lemma StatusChangeKeepsAssignment(t: Tables, r: GmdRequest, env: HandlerEnv)
    requires GetActionById(r.actionId) in {Some(ReactivateContract), Some(SuspendContract)}
    requires LatestAssign(t.assigns, r.coId, r.discSncode).Some? && env.stateSave == Saved
    ensures var h := HandleOf(t, r, env);
      var id := LatestAssign(t.assigns, r.coId, r.discSncode).value;
      var key := StateKey(id, MaxSeqno(t.assignStates, id) + 1);
      && h.thrown.None?
      && h.tables.assigns == t.assigns
      && h.tables.assignStates
         == t.assignStates[key := AssignState(key, r.actionId,
                                              if GetActionById(r.actionId) == Some(ReactivateContract) then "A" else "S",
                                              r.validFrom, r.request, env.now)]
  {
    var id := LatestAssign(t.assigns, r.coId, r.discSncode).value;
    var state := if GetActionById(r.actionId) == Some(ReactivateContract) then Active else Suspended;
    assert HandleOf(t, r, env) == UpdateInstanceOf(t, r, state, env) == AddStateOf(t, id, r, state.Code(), env);
  }

  /** A status change with no live assignment of the contract and service writes nothing and does not raise. */
  lemma NoLiveAssignmentNoWrite(t: Tables, r: GmdRequest, env: HandlerEnv)
    requires GetActionById(r.actionId).Some?
    requires GetActionById(r.actionId).value !in {ActivateContract, AssignService}
    requires forall id :: id in t.assigns ==> !LiveAssignOf(t.assigns[id], r.coId, r.discSncode)
    ensures HandleOf(t, r, env) == Handled(t, None)
  {
  }

  // ---- the service ----

  /** addAssignState. */
  method AddAssignState(assignId: int, r: GmdRequest, status: string, env: HandlerEnv, db: Database)
    returns (thrown: Option<Fault>)
    modifies db
    ensures Handled(db.tables, thrown) == AddStateOf(old(db.tables), assignId, r, status, env)
  {
    var maxSeqno := MaxSeqno(db.tables.assignStates, assignId);
    var key := StateKey(assignId, maxSeqno + 1);
    var state := AssignState(key, r.actionId, status, r.validFrom, r.request, env.now);
    match env.stateSave
    case Saved =>
      db.tables := db.tables.(assignStates := db.tables.assignStates[key := state]);
      thrown := None;
    case IntegrityViolation =>
      thrown := None;
    case SaveFailed(f) =>
      thrown := Some(f);
  }

  /** addNewDiscountInstance. */
  method AddNewDiscountInstance(r: GmdRequest, env: HandlerEnv, db: Database) returns (thrown: Option<Fault>)
    modifies db
    ensures Handled(db.tables, thrown) == AddNewInstanceOf(old(db.tables), r, env)
  {
    var id := env.nextAssignId;
    var assign := NewAssign(r, id, env.now);
    var outcome := if id in db.tables.assigns then IntegrityViolation else env.assignSave;
    match outcome
    case IntegrityViolation =>
      return None;
    case SaveFailed(f) =>
      return Some(f);
    case Saved =>
      db.tables := db.tables.(assigns := db.tables.assigns[id := assign]);
      thrown := AddAssignState(id, r, Active.Code(), env, db);
  }

  /** updateDiscountInstanceStatus. */
  method UpdateDiscountInstanceStatus(r: GmdRequest, state: DynDiscountState, env: HandlerEnv, db: Database)
    returns (thrown: Option<Fault>)
    modifies db
    ensures Handled(db.tables, thrown) == UpdateInstanceOf(old(db.tables), r, state, env)
  {
    var latest := LatestAssign(db.tables.assigns, r.coId, r.discSncode);
    if latest.None? {
      return None;
    }
    var id := latest.value;
    if state == Deactive {
      match env.assignSave
      case IntegrityViolation =>
        return None;
      case SaveFailed(f) =>
        return Some(f);
      case Saved =>
        var closed := db.tables.assigns[id].(deleteDate := Some(r.validFrom));
        db.tables := db.tables.(assigns := db.tables.assigns[id := closed]);
    }
    thrown := AddAssignState(id, r, state.Code(), env, db);
  }

  /** handleAction. */
  method HandleAction(r: GmdRequest, env: HandlerEnv, db: Database) returns (thrown: Option<Fault>)
    modifies db
    ensures Handled(db.tables, thrown) == HandleOf(old(db.tables), r, env)
  {
    var action := GetActionById(r.actionId);
    if action.None? {
      return Some(OtherFault);
    }
    match action.value
    case ActivateContract =>
      thrown := AddNewDiscountInstance(r, env, db);
    case AssignService =>
      thrown := AddNewDiscountInstance(r, env, db);
    case DeactivateContract =>
      thrown := UpdateDiscountInstanceStatus(r, Deactive, env, db);
    case DeactivateSuspendedContract =>
      thrown := UpdateDiscountInstanceStatus(r, Deactive, env, db);
    case RemoveService =>
      thrown := UpdateDiscountInstanceStatus(r, Deactive, env, db);
    case ReactivateContract =>
      thrown := UpdateDiscountInstanceStatus(r, Active, env, db);
    case SuspendContract =>
      thrown := UpdateDiscountInstanceStatus(r, Suspended, env, db);
  }
}
