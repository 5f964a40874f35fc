/**
 * The "shared course access" dialog: two searchable lists of classes,
 * available and selected, and the route the save button opens.
 */
module CourseAccess {
  import opened Wrappers
  import opened JsText
  import UrlParams

  datatype ClassRef = ClassRef(id: string, name: string)

  predicate IsSelected(selected: seq<ClassRef>, id: string) {
    exists i :: 0 <= i < |selected| && selected[i].id == id
  }

  /** An element of a non-empty list is its head or an element of its tail. */
  lemma MemberCons<T>(s: seq<T>)
    requires s != []
    ensures forall c :: c in s <==> c == s[0] || c in s[1..]
  {
    assert s == [s[0]] + s[1..];
  }

  /** The available list: classes not selected (by id) whose name contains the search, ignoring case. */
  function Available(all: seq<ClassRef>, selected: seq<ClassRef>, search: string): (r: seq<ClassRef>)
    ensures forall c :: c in r <==> c in all && !IsSelected(selected, c.id) && ContainsIgnoreCase(c.name, search)
  {
    if all == [] then []
    else
      var keep := !IsSelected(selected, all[0].id) && ContainsIgnoreCase(all[0].name, search);
      MemberCons(all);
      (if keep then [all[0]] else []) + Available(all[1..], selected, search)
  }

  /** The selected list as shown: the selection filtered by its own search. */
  function SelectedView(selected: seq<ClassRef>, search: string): (r: seq<ClassRef>)
    ensures forall c :: c in r <==> c in selected && ContainsIgnoreCase(c.name, search)
  {
    if selected == [] then []
    else
      MemberCons(selected);
      (if ContainsIgnoreCase(selected[0].name, search) then [selected[0]] else []) + SelectedView(selected[1..], search)
  }

  /** No class appears in both lists. */
  lemma AvailableDisjoint(all: seq<ClassRef>, selected: seq<ClassRef>, sa: string, ss: string)
    ensures forall a, s :: a in Available(all, selected, sa) && s in SelectedView(selected, ss) ==> a.id != s.id
  {
    forall a, s | a in Available(all, selected, sa) && s in SelectedView(selected, ss) ensures a.id != s.id {
      var i :| 0 <= i < |selected| && selected[i] == s;
    }
  }

  function WithoutId(selected: seq<ClassRef>, id: string): (r: seq<ClassRef>)
    ensures forall c :: c in r <==> c in selected && c.id != id
    ensures !IsSelected(r, id)
  {
    if selected == [] then []
    else
      MemberCons(selected);
      var rest := WithoutId(selected[1..], id);
      var r := (if selected[0].id != id then [selected[0]] else []) + rest;
      assert forall i :: 0 <= i < |r| ==> r[i] in r;
      r
  }

  function Ids(cs: seq<ClassRef>): (r: seq<string>)
    ensures |r| == |cs| && forall i :: 0 <= i < |cs| ==> r[i] == cs[i].id
  {
    seq(|cs|, i requires 0 <= i < |cs| => cs[i].id)
  }

  /** The save route: the selected ids joined by ',' as the `classes` parameter. */
  function SaveRoute(selected: seq<ClassRef>): string {
    "ajouter-cours?" + UrlParams.Serialize([("classes", Join(Ids(selected), ','))])
  }

  /**
   * The save route carries one `classes` parameter whose value splits back at
   * ',' into the selected ids in selection order, when no id holds a comma.
   * An empty selection is not refused: its value is empty and splits back to
   * one empty id.
   */
  lemma SaveRouteRoundTrip(selected: seq<ClassRef>)
    requires forall i :: 0 <= i < |selected| ==> ',' !in selected[i].id
    ensures var query := UrlParams.Serialize([("classes", Join(Ids(selected), ','))]);
            SaveRoute(selected) == "ajouter-cours?" + query &&
            Split(query, '&') == [UrlParams.PairText(("classes", Join(Ids(selected), ',')))] &&
            Split(UrlParams.PairText(("classes", Join(Ids(selected), ','))), '=') ==
              [UrlParams.Encode("classes"), UrlParams.Encode(Join(Ids(selected), ','))]
    ensures Split(Join(Ids(selected), ','), ',') == if selected == [] then [""] else Ids(selected)
  {
    UrlParams.SerializeSplits([("classes", Join(Ids(selected), ','))]);
    if selected != [] {
      SplitJoin(Ids(selected), ',');
    }
  }

  /** Saving with nothing selected opens the course form with an empty `classes` value. */
  lemma SaveRouteEmpty()
    ensures SaveRoute([]) == "ajouter-cours?classes="
    ensures Split(Join(Ids([]), ','), ',') == [""]
  {
    var ids := Ids([]);
    assert ids == [];
    assert Join(ids, ',') == "";
    EmptyClassesPair();
    var texts := UrlParams.PairTexts([("classes", "")]);
    assert texts == ["classes="];
    assert UrlParams.Serialize([("classes", "")]) == "classes=";
  }

  /** The `classes` parameter with an empty value is written "classes=". */
  lemma EmptyClassesPair()
    ensures UrlParams.PairText(("classes", "")) == "classes="
  {
    var name := "classes";
    assert forall i :: 0 <= i < |name| ==> UrlParams.IsKept(name[i]);
    UrlParams.EncodeKept(name);
    assert UrlParams.Encode("") == "";
  }

  class Popup {
    var selected: seq<ClassRef>
    var searchAvailable: string
    var searchSelected: string

    constructor ()
      ensures selected == [] && searchAvailable == "" && searchSelected == ""
    {
      selected := [];
      searchAvailable := "";
      searchSelected := "";
    }

    /** addToSelection: appends at the end. */
    method AddToSelection(c: ClassRef)
      modifies this
      ensures selected == old(selected) + [c]
      ensures searchAvailable == old(searchAvailable) && searchSelected == old(searchSelected)
    {
      selected := selected + [c];
    }

    /** removeFromSelection: drops every entry with that id, the rest in order. */
    method RemoveFromSelection(c: ClassRef)
      modifies this
      ensures selected == WithoutId(old(selected), c.id)
      ensures searchAvailable == old(searchAvailable) && searchSelected == old(searchSelected)
    {
      selected := WithoutId(selected, c.id);
    }

    /** selectAll, once the class list is loaded. */
    method SelectAll(all: seq<ClassRef>)
      modifies this
      ensures selected == all
      ensures searchAvailable == old(searchAvailable) && searchSelected == old(searchSelected)
    {
      selected := all;
    }

    method DeselectAll()
      modifies this
      ensures selected == []
      ensures searchAvailable == old(searchAvailable) && searchSelected == old(searchSelected)
    {
      selected := [];
    }

    /** The save button: closes the dialog and opens the course form with the selection. */
    method Save() returns (route: string)
      ensures route == SaveRoute(selected)
    {
      route := SaveRoute(selected);
    }
  }

  /** Nothing is available once every class of the list is selected. */
  lemma {:induction false} AllSelectedLeavesNothing(all: seq<ClassRef>, selected: seq<ClassRef>, search: string)
    requires forall i :: 0 <= i < |all| ==> IsSelected(selected, all[i].id)
    ensures Available(all, selected, search) == []
  {
    if all != [] {
      AllSelectedLeavesNothing(all[1..], selected, search);
    }
  }

  /** After select-all nothing is left to add. */
  lemma SelectAllLeavesNothing(all: seq<ClassRef>, search: string)
    ensures Available(all, all, search) == []
  {
    forall i | 0 <= i < |all| ensures IsSelected(all, all[i].id) {
    }
    AllSelectedLeavesNothing(all, all, search);
  }

  /** A removed class that matches the search shows up again among the available ones. */
  lemma RemovedIsAvailable(all: seq<ClassRef>, selected: seq<ClassRef>, c: ClassRef, search: string)
    requires c in all && ContainsIgnoreCase(c.name, search)
    ensures c in Available(all, WithoutId(selected, c.id), search)
  {
  }
}
