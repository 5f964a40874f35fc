/**
 * The overdue-invoice check run for students and parents: the first unpaid
 * invoice of a fetch becomes one alert notification, at most once per hook.
 */
module FactureCheck {
  import opened Wrappers
  import FS = FactureStore
  import NS = NotificationStore

  /** The role guard of `load`. */
  predicate MayCheck(userId: string, role: string) {
    userId != "" && role != "" && role in ["student", "responsable"]
  }

  /** Array.prototype.find on statusPayment === 'unpaid'. */
  function FirstUnpaid(fs: seq<FS.Facture>): (r: Option<FS.Facture>)
    ensures r.Some? ==> r.value in fs && r.value.statusPayment == "unpaid"
    ensures r.None? <==> forall f :: f in fs ==> f.statusPayment != "unpaid"
    ensures r.Some? ==> exists i :: 0 <= i < |fs| && fs[i] == r.value &&
                          forall j :: 0 <= j < i ==> fs[j].statusPayment != "unpaid"
  {
    if fs == [] then None
    else if fs[0].statusPayment == "unpaid" then Some(fs[0])
    else
      var r := FirstUnpaid(fs[1..]);
      assert forall f :: f in fs <==> f == fs[0] || f in fs[1..];
      if r.Some? then
        assert exists i :: 0 <= i < |fs| && fs[i] == r.value &&
                          forall j :: 0 <= j < i ==> fs[j].statusPayment != "unpaid" by {
          var i :| 0 <= i < |fs[1..]| && fs[1..][i] == r.value &&
                   forall j :: 0 <= j < i ==> fs[1..][j].statusPayment != "unpaid";
          assert fs[i + 1] == r.value;
          forall j | 0 <= j < i + 1 ensures fs[j].statusPayment != "unpaid" {
            if j > 0 { assert fs[j] == fs[1..][j - 1]; }
          }
        }
        r
      else r
  }

  /** The fetch keeps unpaid invoices only, so any invoice it returns triggers the alert for its first one. */
  lemma {:induction false} FirstOfFetch(items: seq<Option<FS.RawFacture>>)
    ensures var fs := FS.DueSoon(items);
      FirstUnpaid(fs) == if fs == [] then None else Some(fs[0])
  {
    if items != [] {
      FirstOfFetch(items[1..]);
    }
  }

  /** The alert notification built for an unpaid invoice. */
  function AlertFor(f: FS.Facture, now: int): (n: NS.Notification)
    ensures n.id == "facture-" + f.id && n.kind == "alert" && !n.read
    ensures n.status == Some("unread") && n.screen == Some("mes-factures")
    ensures n.description == "Votre facture " + f.numeration + " est en attente de paiement."
  {
    NS.Notification("facture-" + f.id, "Facture impayée", "Facture impayée",
                    "Votre facture " + f.numeration + " est en attente de paiement.",
                    None, now, "alert", false, Some("unread"), Some("mes-factures"), None, None)
  }

  /** The hook's state: the `shownRef` flag and the two stores it uses. */
  class Hook {
    var shown: bool
    const factures: FS.Store
    const notifications: NS.Store

    constructor (factures: FS.Store, notifications: NS.Store)
      ensures !shown && this.factures == factures && this.notifications == notifications
    {
      shown := false;
      this.factures := factures;
      this.notifications := notifications;
    }

    /**
     * `load`: `response` is what the invoice request returns (None on failure),
     * `now` the time stamp of the run. The result tells whether the toast was shown.
     */
    method Load(userId: string, role: string, response: Option<seq<Option<FS.RawFacture>>>, now: int)
      returns (warned: bool)
      modifies this, factures, notifications
      ensures !MayCheck(userId, role) || old(shown) ==>
        !warned && shown == old(shown) &&
        notifications.notifications == old(notifications.notifications) &&
        factures.factures == old(factures.factures) && factures.unpaidCount == old(factures.unpaidCount)
      ensures MayCheck(userId, role) && !old(shown) ==>
        var fetched := if response.Some? then FS.DueSoon(response.value) else [];
        warned == (fetched != []) && shown == warned &&
        notifications.notifications == (if warned
          then NS.WithAdded(old(notifications.notifications), AlertFor(fetched[0], now))
          else old(notifications.notifications))
      ensures MayCheck(userId, role) && !old(shown) ==>
        factures.factures == (if response.Some? then FS.DueSoon(response.value) else old(factures.factures)) &&
        factures.unpaidCount == (if response.Some? then |FS.DueSoon(response.value)| else old(factures.unpaidCount))
      ensures notifications.unreadCount >= old(notifications.unreadCount)
      ensures old(notifications.Valid()) ==> notifications.Valid()
    {
      if !MayCheck(userId, role) {
        return false;
      }
      if shown {
        return false;
      }
      var fetched := factures.FetchFactures(response);
      if response.Some? {
        FirstOfFetch(response.value);
      }
      var unpaid := FirstUnpaid(fetched);
      if unpaid.Some? {
        notifications.AddNotification(AlertFor(unpaid.value, now));
        shown := true;
        warned := true;
      } else {
        warned := false;
      }
    }
  }
}
