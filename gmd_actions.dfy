// The service-change actions the listener reacts to, each with its numeric
// action id, and the lookup of an action by its id.
module GmdActions {
  import opened Wrappers

  datatype GmdAction =
    | ActivateContract
    | DeactivateContract
    | ReactivateContract
    | SuspendContract
    | DeactivateSuspendedContract
    | AssignService
    | RemoveService
  {
    /** The action id carried by a queue entry. */
    function Action(): int
    {
      match this
      case ActivateContract => 1
      case DeactivateContract => 2
      case ReactivateContract => 3
      case SuspendContract => 4
      case DeactivateSuspendedContract => 5
      case AssignService => 8
      case RemoveService => 9
    }
  }

  /** The constants in declaration order, as GmdAction.values() lists them. */
  const AllActions: seq<GmdAction> :=
    [ActivateContract, DeactivateContract, ReactivateContract, SuspendContract, DeactivateSuspendedContract,
     AssignService, RemoveService]

  /** The first of `actions` with this id. */
  function FirstWithAction(actions: seq<GmdAction>, actionId: int): (r: Option<GmdAction>)
    ensures r.Some? ==> r.value in actions && r.value.Action() == actionId
    ensures r.None? ==> forall a :: a in actions ==> a.Action() != actionId
  {
    if actions == [] then None
    else if actions[0].Action() == actionId then Some(actions[0])
    else FirstWithAction(actions[1..], actionId)
  }

  /** getActionById: the action with this id, or null (None). */
  function GetActionById(actionId: int): Option<GmdAction>
  {
    FirstWithAction(AllActions, actionId)
  }

  /** Every action is found by its own id. */
  lemma GetActionRoundTrip(a: GmdAction)
    ensures GetActionById(a.Action()) == Some(a)
  {
    match a
    case ActivateContract => assert AllActions[0] == a;
    case DeactivateContract => assert AllActions[1] == a;
    case ReactivateContract => assert AllActions[2] == a;
    case SuspendContract => assert AllActions[3] == a;
    case DeactivateSuspendedContract => assert AllActions[4] == a;
    case AssignService => assert AllActions[5] == a;
    case RemoveService => assert AllActions[6] == a;
  }

  /** Exactly the ids 1, 2, 3, 4, 5, 8 and 9 name an action. */
  lemma KnownActionIds(actionId: int)
    ensures GetActionById(actionId).Some? <==> actionId in {1, 2, 3, 4, 5, 8, 9}
  {
    if actionId in {1, 2, 3, 4, 5, 8, 9} {
      var a := if actionId == 1 then ActivateContract else if actionId == 2 then DeactivateContract
        else if actionId == 3 then ReactivateContract else if actionId == 4 then SuspendContract
        else if actionId == 5 then DeactivateSuspendedContract else if actionId == 8 then AssignService
        else RemoveService;
      GetActionRoundTrip(a);
    }
  }
}
