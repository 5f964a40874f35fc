/**
 * The sidebar link that asks for confirmation before leaving a page while a
 * request is in flight. Whether a request is in flight is a parameter and
 * `navigations` lists the routes navigated to so far.
 */
module NavLink {
  import opened Wrappers

  class Link {
    const to: string
    const disabled: bool
    var showDialog: bool
    var pendingNavigation: Option<string>
    var navigations: seq<string>
    /** How many times all requests were cancelled. */
    var cancellations: nat

    constructor (to: string, disabled: bool)
      ensures this.to == to && this.disabled == disabled
      ensures !showDialog && pendingNavigation == None && navigations == [] && cancellations == 0
    {
      this.to := to;
      this.disabled := disabled;
      showDialog := false;
      pendingNavigation := None;
      navigations := [];
      cancellations := 0;
    }

    /** handleClick: nothing when disabled; the dialog while a request is in flight; otherwise navigate. */
    method HandleClick(requestInProgress: bool)
      modifies this
      ensures disabled ==> showDialog == old(showDialog) && pendingNavigation == old(pendingNavigation) &&
                           navigations == old(navigations)
      ensures !disabled && requestInProgress ==>
                showDialog && pendingNavigation == Some(to) && navigations == old(navigations)
      ensures !disabled && !requestInProgress ==>
                navigations == old(navigations) + [to] &&
                showDialog == old(showDialog) && pendingNavigation == old(pendingNavigation)
      ensures cancellations == old(cancellations)
    {
      if disabled {
        return;
      }
      if requestInProgress {
        pendingNavigation := Some(to);
        showDialog := true;
        return;
      }
      navigations := navigations + [to];
    }

    /** handleConfirmNavigation: cancel the requests, close the dialog, go to the pending route if it is not empty. */
    method ConfirmNavigation()
      modifies this
      ensures cancellations == old(cancellations) + 1 && !showDialog
      ensures pendingNavigation == old(pendingNavigation)
      ensures navigations == old(navigations) +
        (if old(pendingNavigation).Some? && old(pendingNavigation).value != "" then [old(pendingNavigation).value] else [])
    {
      cancellations := cancellations + 1;
      showDialog := false;
      if pendingNavigation.Some? && pendingNavigation.value != "" {
        navigations := navigations + [pendingNavigation.value];
      }
    }

    /**
     * The dialog's action button: its onClick runs handleConfirmNavigation,
     * and closing the dialog then fires onOpenChange(false), which runs
     * handleCancelNavigation, so the held route is forgotten after all.
     */
    method ConfirmAction()
      modifies this
      ensures cancellations == old(cancellations) + 1 && !showDialog && pendingNavigation == None
      ensures navigations == old(navigations) +
        (if old(pendingNavigation).Some? && old(pendingNavigation).value != "" then [old(pendingNavigation).value] else [])
    {
      ConfirmNavigation();
      CancelNavigation();
    }

    /** handleCancelNavigation: close the dialog and forget the pending route. */
    method CancelNavigation()
      modifies this
      ensures !showDialog && pendingNavigation == None
      ensures navigations == old(navigations) && cancellations == old(cancellations)
    {
      showDialog := false;
      pendingNavigation := None;
    }
  }

  /** Example: a click held by the dialog and confirmed reaches the link's route, once. */
  method HeldClickConfirmed(to: string) returns (navigations: seq<string>)
    requires to != ""
    ensures navigations == [to]
  {
    var link := new Link(to, false);
    link.HandleClick(true);
    link.ConfirmNavigation();
    navigations := link.navigations;
  }

  /** Example: a disabled link goes nowhere, whether or not a request is in flight. */
  method DisabledGoesNowhere(to: string, requestInProgress: bool) returns (navigations: seq<string>, dialog: bool)
    ensures navigations == [] && !dialog
  {
    var link := new Link(to, true);
    link.HandleClick(requestInProgress);
    navigations := link.navigations;
    dialog := link.showDialog;
  }
}
