/** The QCM list page: search and category filter, delete and duplicate. */
module QuizList {
  import opened Wrappers
  import opened JsText

  datatype QcmItem = QcmItem(
    id: string, title: string, description: string, category: string, createdAt: string, questionCount: int)

  /** The search matches the title or the description, ignoring ASCII case; "tous" shows every category. */
  predicate Matches(q: QcmItem, search: string, category: string) {
    (ContainsIgnoreCase(q.title, search) || ContainsIgnoreCase(q.description, search)) &&
    (category == "tous" || q.category == category)
  }

  function FilteredQcm(items: seq<QcmItem>, search: string, category: string): seq<QcmItem> {
    if items == [] then []
    else (if Matches(items[0], search, category) then [items[0]] else []) + FilteredQcm(items[1..], search, category)
  }

  /** The shown items are exactly the matching ones. */
  lemma {:induction false} FilteredQcmSpec(items: seq<QcmItem>, search: string, category: string)
    ensures forall q :: q in FilteredQcm(items, search, category) <==> q in items && Matches(q, search, category)
  {
    if items != [] {
      FilteredQcmSpec(items[1..], search, category);
      assert forall q :: q in items <==> q == items[0] || q in items[1..];
    }
  }

  /** An empty search and the "tous" category show the whole list in order. */
  lemma {:induction false} NoFilterShowsAll(items: seq<QcmItem>)
    ensures FilteredQcm(items, "", "tous") == items
  {
    if items != [] {
      EmptyIsContained(ToLower(items[0].title));
      NoFilterShowsAll(items[1..]);
      assert items == [items[0]] + items[1..];
    }
  }

  function WithoutId(items: seq<QcmItem>, id: string): (r: seq<QcmItem>)
    ensures forall q :: q in r <==> q in items && q.id != id
  {
    if items == [] then []
    else (if items[0].id != id then [items[0]] else []) + WithoutId(items[1..], id)
  }

  /** `find(qcm => qcm.id === id)`. */
  function Find(items: seq<QcmItem>, id: string): (r: Option<QcmItem>)
    ensures r.None? <==> forall i :: 0 <= i < |items| ==> items[i].id != id
    ensures r.Some? ==> r.value in items && r.value.id == id
    ensures r.Some? ==> exists k :: 0 <= k < |items| && items[k] == r.value &&
                                    forall j :: 0 <= j < k ==> items[j].id != id
  {
    if items == [] then None
    else if items[0].id == id then Some(items[0])
    else
      var r := Find(items[1..], id);
      if r.Some? then
        var k :| 0 <= k < |items[1..]| && items[1..][k] == r.value && forall j :: 0 <= j < k ==> items[1..][j].id != id;
        assert items[k + 1] == r.value;
        r
      else r
  }

  /** The copy a duplicate appends: new id and date, title marked " (copie)". */
  function Copy(q: QcmItem, stamp: string, now: string): (c: QcmItem)
    ensures c.(id := q.id, title := q.title, createdAt := q.createdAt) == q
    ensures c.id == stamp && c.title == q.title + " (copie)" && c.createdAt == now
  {
    q.(id := stamp, title := q.title + " (copie)", createdAt := now)
  }

  class Page {
    var qcmData: seq<QcmItem>
    var searchTerm: string
    var categoryFilter: string

    constructor (initial: seq<QcmItem>)
      ensures qcmData == initial && searchTerm == "" && categoryFilter == "tous"
    {
      qcmData := initial;
      searchTerm := "";
      categoryFilter := "tous";
    }

    function Shown(): seq<QcmItem>
      reads this
    {
      FilteredQcm(qcmData, searchTerm, categoryFilter)
    }

    /** handleDeleteQcm. */
    method DeleteQcm(id: string)
      modifies this
      ensures qcmData == WithoutId(old(qcmData), id)
      ensures searchTerm == old(searchTerm) && categoryFilter == old(categoryFilter)
    {
      qcmData := WithoutId(qcmData, id);
    }

    /** handleDuplicateQcm; `stamp` and `now` stand for Date.now() and the ISO date. */
    method DuplicateQcm(id: string, stamp: string, now: string)
      modifies this
      ensures Find(old(qcmData), id).None? ==> qcmData == old(qcmData)
      ensures Find(old(qcmData), id).Some? ==> qcmData == old(qcmData) + [Copy(Find(old(qcmData), id).value, stamp, now)]
      ensures searchTerm == old(searchTerm) && categoryFilter == old(categoryFilter)
    {
      var original := Find(qcmData, id);
      if original.Some? {
        qcmData := qcmData + [Copy(original.value, stamp, now)];
      }
    }
  }

  /** Deleting the copy of a duplicate with a fresh id gives back the list. */
  lemma {:induction false} DuplicateThenDelete(items: seq<QcmItem>, c: QcmItem)
    requires forall i :: 0 <= i < |items| ==> items[i].id != c.id
    ensures WithoutId(items + [c], c.id) == items
  {
    if items == [] {
      assert WithoutId([c], c.id) == [] + WithoutId([], c.id);
    } else {
      assert (items + [c])[1..] == items[1..] + [c];
      DuplicateThenDelete(items[1..], c);
    }
  }
}
