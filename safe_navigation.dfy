/**
 * useSafeNavigation: an action attempted while a request is in flight waits
 * behind a confirmation dialog; confirming cancels the requests and runs it,
 * cancelling drops it. Whether a request is in flight is a parameter, an
 * action is named by an id, and `ran` lists the actions run so far.
 */
module SafeNavigation {
  import opened Wrappers

  type Action = nat

  class Guard {
    var showConfirm: bool
    var pendingAction: Option<Action>
    var ran: seq<Action>
    /** How many times all requests were cancelled. */
    var cancellations: nat

    constructor ()
      ensures !showConfirm && pendingAction == None && ran == [] && cancellations == 0
    {
      showConfirm := false;
      pendingAction := None;
      ran := [];
      cancellations := 0;
    }

    /** attemptAction: runs at once when idle, otherwise parks the action behind the dialog. */
    method AttemptAction(action: Action, requestInProgress: bool) returns (done: bool)
      modifies this
      ensures done <==> !requestInProgress
      ensures done ==> ran == old(ran) + [action] && showConfirm == old(showConfirm) && pendingAction == old(pendingAction)
      ensures !done ==> ran == old(ran) && showConfirm && pendingAction == Some(action)
      ensures cancellations == old(cancellations)
    {
      if requestInProgress {
        pendingAction := Some(action);
        showConfirm := true;
        return false;
      }
      ran := ran + [action];
      return true;
    }

    /** executePendingAction: closes the dialog, cancels the requests, runs the parked action once. */
    method ExecutePendingAction()
      modifies this
      ensures !showConfirm && pendingAction == None
      ensures cancellations == old(cancellations) + 1
      ensures ran == old(ran) + (if old(pendingAction).Some? then [old(pendingAction).value] else [])
    {
      showConfirm := false;
      cancellations := cancellations + 1;
      if pendingAction.Some? {
        ran := ran + [pendingAction.value];
      }
      pendingAction := None;
    }

    /** cancelAction: closes the dialog and drops the parked action. */
    method CancelAction()
      modifies this
      ensures !showConfirm && pendingAction == None
      ensures ran == old(ran) && cancellations == old(cancellations)
    {
      showConfirm := false;
      pendingAction := None;
    }
  }

  /** Example: from a fresh guard, an action parked behind the dialog and confirmed twice runs once; the second confirmation only cancels the requests again. */
  method ConfirmRunsOnce(action: Action) returns (ran: seq<Action>, cancellations: nat)
    ensures ran == [action] && cancellations == 2
  {
    var g := new Guard();
    var done := g.AttemptAction(action, true);
    g.ExecutePendingAction();
    g.ExecutePendingAction();
    ran := g.ran;
    cancellations := g.cancellations;
  }

  /** Example: a cancelled action never runs, and confirming afterwards runs nothing. */
  method CancelledNeverRuns(action: Action) returns (ran: seq<Action>)
    ensures ran == []
  {
    var g := new Guard();
    var done := g.AttemptAction(action, true);
    g.CancelAction();
    g.ExecutePendingAction();
    ran := g.ran;
  }
}
