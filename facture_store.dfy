/**
 * The client-side invoice (facture) store: the overdue invoices fetched for a
 * user, with an `unpaidCount` counter that must equal the number of unpaid
 * entries.
 */
module FactureStore {
  import opened Wrappers

  /** An invoice as the store keeps it. */
  datatype Facture = Facture(
    id: string,
    title: string,
    description: string,
    numeration: string,
    recipientName: string,
    endDate: string,
    daysDifference: int,
    statusPayment: string,
    createdAt: string)

  /** One entry of the `successPurchases` array sent by the backend. */
  datatype RawFacture = RawFacture(
    factureId: string,
    numeration: string,
    recipientName: string,
    endDate: string,
    daysDifference: int,
    statusPayment: string)

  const LoadError: string := "Erreur de chargement"

  /** The fetch filter: unpaid and due within the next five days. */
  predicate IsDueSoon(item: Option<RawFacture>) {
    item.Some? && item.value.statusPayment == "unpaid" &&
    0 <= item.value.daysDifference <= 5
  }

  /** The fetch mapping of one kept entry. */
  function ToFacture(item: RawFacture): (f: Facture)
    ensures f.id == item.factureId && f.createdAt == item.endDate
    ensures f.title == "Facture " + item.numeration
    ensures f.statusPayment == item.statusPayment && f.daysDifference == item.daysDifference
  {
    Facture(item.factureId, "Facture " + item.numeration,
            "À régler avant le " + item.endDate + ".",
            item.numeration, item.recipientName, item.endDate,
            item.daysDifference, item.statusPayment, item.endDate)
  }

  /** The factures a successful fetch produces, in response order. */
  function DueSoon(items: seq<Option<RawFacture>>): seq<Facture> {
    if items == [] then []
    else if IsDueSoon(items[0]) then [ToFacture(items[0].value)] + DueSoon(items[1..])
    else DueSoon(items[1..])
  }

  /** A fetched facture comes from a kept entry, and every kept entry gives a facture. */
  lemma {:induction false} DueSoonSpec(items: seq<Option<RawFacture>>)
    ensures |DueSoon(items)| <= |items|
    ensures forall f :: f in DueSoon(items) <==>
      exists i :: 0 <= i < |items| && IsDueSoon(items[i]) && f == ToFacture(items[i].value)
  {
    if items != [] {
      DueSoonSpec(items[1..]);
      forall f ensures f in DueSoon(items) <==>
        exists i :: 0 <= i < |items| && IsDueSoon(items[i]) && f == ToFacture(items[i].value)
      {
        if f in DueSoon(items[1..]) {
          var i :| 0 <= i < |items[1..]| && IsDueSoon(items[1..][i]) && f == ToFacture(items[1..][i].value);
          assert items[i + 1] == items[1..][i];
        }
        if exists i :: 0 <= i < |items| && IsDueSoon(items[i]) && f == ToFacture(items[i].value) {
          var i :| 0 <= i < |items| && IsDueSoon(items[i]) && f == ToFacture(items[i].value);
          if i > 0 { assert items[1..][i - 1] == items[i]; }
        }
      }
    }
  }

  function CountUnpaid(fs: seq<Facture>): nat {
    if fs == [] then 0 else (if fs[0].statusPayment == "unpaid" then 1 else 0) + CountUnpaid(fs[1..])
  }

  /** Every fetched facture is unpaid, so the counter set to the list length is the unpaid count. */
  lemma {:induction false} DueSoonAllUnpaid(items: seq<Option<RawFacture>>)
    ensures CountUnpaid(DueSoon(items)) == |DueSoon(items)|
  {
    if items != [] {
      DueSoonAllUnpaid(items[1..]);
      if IsDueSoon(items[0]) {
        assert DueSoon(items)[1..] == DueSoon(items[1..]);
      }
    }
  }

  predicate HasId(fs: seq<Facture>, id: string) {
    exists i :: 0 <= i < |fs| && fs[i].id == id
  }

  predicate HasUnpaidWithId(fs: seq<Facture>, id: string) {
    exists i :: 0 <= i < |fs| && fs[i].id == id && fs[i].statusPayment == "unpaid"
  }

  predicate DistinctIds(fs: seq<Facture>) {
    forall i, j :: 0 <= i < j < |fs| ==> fs[i].id != fs[j].id
  }

  /** The list after markAsPaid(id). */
  function MarkPaidIn(fs: seq<Facture>, id: string): seq<Facture> {
    if fs == [] then []
    else [if fs[0].id == id then fs[0].(statusPayment := "paid") else fs[0]] + MarkPaidIn(fs[1..], id)
  }

  /** markAsPaid changes the entries with that id only, keeping length, ids and order. */
  lemma {:induction false} MarkPaidInAt(fs: seq<Facture>, id: string)
    ensures |MarkPaidIn(fs, id)| == |fs|
    ensures forall i :: 0 <= i < |fs| ==>
      MarkPaidIn(fs, id)[i] == if fs[i].id == id then fs[i].(statusPayment := "paid") else fs[i]
  {
    if fs != [] {
      MarkPaidInAt(fs[1..], id);
      assert forall i :: 1 <= i < |fs| ==> fs[i] == fs[1..][i - 1];
    }
  }

  /** With distinct ids, markAsPaid lowers the unpaid count by one exactly when an unpaid entry had that id. */
  lemma {:induction false} MarkPaidInCount(fs: seq<Facture>, id: string)
    requires DistinctIds(fs)
    ensures CountUnpaid(MarkPaidIn(fs, id)) ==
            CountUnpaid(fs) - (if HasUnpaidWithId(fs, id) then 1 else 0)
  {
    if fs != [] {
      var t := fs[1..];
      assert DistinctIds(t) by {
        forall i, j | 0 <= i < j < |t| ensures t[i].id != t[j].id {
          assert t[i] == fs[i + 1] && t[j] == fs[j + 1];
        }
      }
      MarkPaidInCount(t, id);
      assert HasUnpaidWithId(fs, id) <==>
             (fs[0].id == id && fs[0].statusPayment == "unpaid") || HasUnpaidWithId(t, id) by {
        if HasUnpaidWithId(fs, id) {
          var i :| 0 <= i < |fs| && fs[i].id == id && fs[i].statusPayment == "unpaid";
          if i > 0 { assert t[i - 1] == fs[i]; }
        }
        if HasUnpaidWithId(t, id) {
          var i :| 0 <= i < |t| && t[i].id == id && t[i].statusPayment == "unpaid";
          assert fs[i + 1] == t[i];
        }
      }
      if fs[0].id == id {
        forall i | 0 <= i < |t| ensures t[i].id != id { assert t[i] == fs[i + 1]; }
        assert !HasUnpaidWithId(t, id);
      }
    }
  }

  class Store {
    var factures: seq<Facture>
    var unpaidCount: int
    var isLoading: bool
    var error: Option<string>

    /** The counter invariant: unpaidCount is the number of unpaid factures. */
    predicate Valid()
      reads this
    {
      unpaidCount == CountUnpaid(factures)
    }

    constructor ()
      ensures factures == [] && unpaidCount == 0 && !isLoading && error == None
      ensures Valid()
    {
      factures := [];
      unpaidCount := 0;
      isLoading := false;
      error := None;
    }

    /**
     * fetchFactures; `response` is the `successPurchases` array, or None when
     * the request failed. The result is what the call resolves to.
     */
    method FetchFactures(response: Option<seq<Option<RawFacture>>>) returns (result: seq<Facture>)
      modifies this
      ensures !isLoading
      ensures response.Some? ==> result == factures == DueSoon(response.value) &&
                                 unpaidCount == |result| && error == None
      ensures response.None? ==> result == [] && factures == old(factures) &&
                                 unpaidCount == old(unpaidCount) && error == Some(LoadError)
      ensures response.Some? || old(Valid()) ==> Valid()
    {
      isLoading, error := true, None;
      match response {
        case Some(items) =>
          var kept := DueSoon(items);
          DueSoonAllUnpaid(items);
          factures, unpaidCount, isLoading := kept, |kept|, false;
          return kept;
        case None =>
          error, isLoading := Some(LoadError), false;
          return [];
      }
    }

    /** addFacture: a known id is ignored; a new one goes to the front. */
    method AddFacture(f: Facture)
      modifies this
      ensures HasId(old(factures), f.id) ==> factures == old(factures) && unpaidCount == old(unpaidCount)
      ensures !HasId(old(factures), f.id) ==>
                factures == [f] + old(factures) &&
                unpaidCount == old(unpaidCount) + (if f.statusPayment == "unpaid" then 1 else 0)
      ensures isLoading == old(isLoading) && error == old(error)
      ensures old(Valid()) ==> Valid()
      ensures old(DistinctIds(factures)) ==> DistinctIds(factures)
    {
      if HasId(factures, f.id) {
        return;
      }
      factures := [f] + factures;
      unpaidCount := if f.statusPayment == "unpaid" then unpaidCount + 1 else unpaidCount;
      assert factures[1..] == old(factures);
    }

    /** markAsPaid. */
    method MarkAsPaid(id: string)
      modifies this
      ensures factures == MarkPaidIn(old(factures), id)
      ensures unpaidCount == old(unpaidCount) - (if HasUnpaidWithId(old(factures), id) then 1 else 0)
      ensures isLoading == old(isLoading) && error == old(error)
      ensures old(Valid() && DistinctIds(factures)) ==> Valid() && DistinctIds(factures)
    {
      var found := HasUnpaidWithId(factures, id);
      if DistinctIds(factures) {
        MarkPaidInCount(factures, id);
      }
      MarkPaidInAt(factures, id);
      factures := MarkPaidIn(factures, id);
      unpaidCount := if found then unpaidCount - 1 else unpaidCount;
    }

    /** clearFactures. */
    method ClearFactures()
      modifies this
      ensures factures == [] && unpaidCount == 0
      ensures isLoading == old(isLoading) && error == old(error)
      ensures Valid()
    {
      factures, unpaidCount := [], 0;
    }
  }
}
