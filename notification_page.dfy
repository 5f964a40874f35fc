/**
 * The notification page: the filtered and sorted view of the store, the
 * selection used by the batch actions, and the type labels.
 */
module NotificationPage {
  import opened Wrappers
  import opened NotificationStore
  import StableSort

  datatype ReadFilter = All | UnreadOnly
  datatype SortOrder = Newest | Oldest

  /** The two filters of the page; `typeFilter` None stands for "all". */
  predicate Shown(n: Notification, filter: ReadFilter, typeFilter: Option<string>) {
    !(filter == UnreadOnly && n.read) && !(typeFilter.Some? && n.kind != typeFilter.value)
  }

  function FilterShown(ns: seq<Notification>, filter: ReadFilter, typeFilter: Option<string>): seq<Notification> {
    if ns == [] then []
    else if Shown(ns[0], filter, typeFilter) then [ns[0]] + FilterShown(ns[1..], filter, typeFilter)
    else FilterShown(ns[1..], filter, typeFilter)
  }

  /** The comparator of the page as a sort key: newest first sorts by the negated time stamp. */
  function SortKey(order: SortOrder): Notification -> int {
    if order == Newest then (n: Notification) => -n.createdAt else (n: Notification) => n.createdAt
  }

  /** filteredNotifications. */
  function FilteredNotifications(ns: seq<Notification>, filter: ReadFilter, typeFilter: Option<string>,
                                 order: SortOrder): seq<Notification>
  {
    StableSort.Sort(FilterShown(ns, filter, typeFilter), SortKey(order))
  }

  lemma {:induction false} FilterShownSpec(ns: seq<Notification>, filter: ReadFilter, typeFilter: Option<string>)
    ensures forall n :: n in FilterShown(ns, filter, typeFilter) <==> n in ns && Shown(n, filter, typeFilter)
  {
    if ns != [] {
      FilterShownSpec(ns[1..], filter, typeFilter);
      assert forall n :: n in ns <==> n == ns[0] || n in ns[1..];
    }
  }

  /**
   * The page shows exactly the store entries that pass both filters, each as
   * often as in the store, ordered by time stamp in the chosen direction.
   */
  lemma FilteredNotificationsSpec(ns: seq<Notification>, filter: ReadFilter, typeFilter: Option<string>,
                                  order: SortOrder)
    ensures var r := FilteredNotifications(ns, filter, typeFilter, order);
      (forall n :: n in r <==> n in ns && Shown(n, filter, typeFilter)) &&
      multiset(r) == multiset(FilterShown(ns, filter, typeFilter)) &&
      (forall i, j :: 0 <= i < j < |r| ==>
         if order == Newest then r[i].createdAt >= r[j].createdAt else r[i].createdAt <= r[j].createdAt)
  {
    var f := FilterShown(ns, filter, typeFilter);
    var r := FilteredNotifications(ns, filter, typeFilter, order);
    FilterShownSpec(ns, filter, typeFilter);
    StableSort.SortSpec(f, SortKey(order));
    forall n ensures n in r <==> n in f {
      assert n in r <==> n in multiset(r);
    }
    forall i, j | 0 <= i < j < |r|
      ensures if order == Newest then r[i].createdAt >= r[j].createdAt else r[i].createdAt <= r[j].createdAt
    {
      assert SortKey(order)(r[i]) <= SortKey(order)(r[j]);
    }
  }

  /** getNotificationTypeLabel. */
  function TypeLabel(kind: string): (text: string)
    ensures kind == "meet" <==> text == "Meeting"
    ensures kind == "invitation" <==> text == "Invitation"
    ensures kind == "comment" <==> text == "Comment"
    ensures kind == "react" <==> text == "Reaction"
    ensures kind == "chat" <==> text == "Message"
    ensures kind == "alert" <==> text == "Alert"
    ensures kind !in ["meet", "invitation", "comment", "react", "chat", "alert"] <==> text == "Notification"
  {
    match kind
    case "meet" => "Meeting"
    case "invitation" => "Invitation"
    case "comment" => "Comment"
    case "react" => "Reaction"
    case "chat" => "Message"
    case "alert" => "Alert"
    case _ => "Notification"
  }

  /** The selection after clicking a card in select mode. */
  function Toggled(selected: seq<string>, id: string): (r: seq<string>)
  {
    if id in selected then Without(selected, id) else selected + [id]
  }

  /** Array.prototype.filter((x) => x !== id). */
  function Without(s: seq<string>, id: string): (r: seq<string>)
    ensures forall x :: x in r <==> x in s && x != id
  {
    if s == [] then []
    else if s[0] == id then Without(s[1..], id)
    else
      assert forall x :: x in s <==> x == s[0] || x in s[1..];
      [s[0]] + Without(s[1..], id)
  }

  lemma {:induction false} WithoutAbsent(s: seq<string>, id: string)
    requires id !in s
    ensures Without(s, id) == s
  {
    if s != [] {
      WithoutAbsent(s[1..], id);
    }
  }

  /**
   * Clicking a card in select mode flips its membership and leaves every
   * other id as it was; clicking twice a card that was not selected restores the selection.
   */
  lemma ToggledSpec(selected: seq<string>, id: string)
    ensures id in Toggled(selected, id) <==> id !in selected
    ensures forall x :: x != id ==> (x in Toggled(selected, id) <==> x in selected)
    ensures id !in selected ==> Toggled(Toggled(selected, id), id) == selected
  {
    if id !in selected {
      var s := selected + [id];
      calc {
        Without(s, id);
        { WithoutAppend(selected, id); }
        Without(selected, id);
        { WithoutAbsent(selected, id); }
        selected;
      }
    }
  }

  lemma {:induction false} WithoutAppend(s: seq<string>, id: string)
    ensures Without(s + [id], id) == Without(s, id)
  {
    if s == [] {
      assert [] + [id] == [id];
      assert [id][1..] == [];
    } else {
      assert (s + [id])[1..] == s[1..] + [id];
      WithoutAppend(s[1..], id);
    }
  }

  /** The store list after markAsRead on each id in turn. */
  function MarkReadEach(ns: seq<Notification>, ids: seq<string>): seq<Notification>
    decreases |ids|
  {
    if ids == [] then ns else MarkReadEach(MarkReadIn(ns, ids[0]), ids[1..])
  }

  lemma MarkReadEachSnoc(ns: seq<Notification>, ids: seq<string>, id: string)
    ensures MarkReadEach(ns, ids + [id]) == MarkReadIn(MarkReadEach(ns, ids), id)
    decreases |ids|
  {
    if ids != [] {
      assert (ids + [id])[1..] == ids[1..] + [id];
      MarkReadEachSnoc(MarkReadIn(ns, ids[0]), ids[1..], id);
    }
  }

  /** Batch mark-read marks every selected entry read and leaves the other entries untouched. */
  lemma {:induction false} MarkReadEachSpec(ns: seq<Notification>, ids: seq<string>)
    ensures |MarkReadEach(ns, ids)| == |ns|
    ensures forall i :: 0 <= i < |ns| ==>
      MarkReadEach(ns, ids)[i] == if ns[i].id in ids then MarkedRead(ns[i]) else ns[i]
    decreases |ids|
  {
    if ids != [] {
      var m := MarkReadIn(ns, ids[0]);
      MarkReadInAt(ns, ids[0]);
      MarkReadEachSpec(m, ids[1..]);
      forall i | 0 <= i < |ns|
        ensures MarkReadEach(ns, ids)[i] == if ns[i].id in ids then MarkedRead(ns[i]) else ns[i]
      {
        assert ns[i].id in ids <==> ns[i].id == ids[0] || ns[i].id in ids[1..];
      }
    }
  }

  /** The store list after removeNotification on each id in turn. */
  function RemoveEach(ns: seq<Notification>, ids: seq<string>): seq<Notification>
    decreases |ids|
  {
    if ids == [] then ns else RemoveEach(RemoveId(ns, ids[0]), ids[1..])
  }

  lemma RemoveEachSnoc(ns: seq<Notification>, ids: seq<string>, id: string)
    ensures RemoveEach(ns, ids + [id]) == RemoveId(RemoveEach(ns, ids), id)
    decreases |ids|
  {
    if ids != [] {
      assert (ids + [id])[1..] == ids[1..] + [id];
      RemoveEachSnoc(RemoveId(ns, ids[0]), ids[1..], id);
    }
  }

  /** Batch dismiss keeps exactly the entries whose id was not selected. */
  lemma {:induction false} RemoveEachSpec(ns: seq<Notification>, ids: seq<string>)
    ensures forall n :: n in RemoveEach(ns, ids) <==> n in ns && n.id !in ids
    decreases |ids|
  {
    if ids != [] {
      RemoveIdSpec(ns, ids[0]);
      RemoveEachSpec(RemoveId(ns, ids[0]), ids[1..]);
    }
  }

  /** The page state; the store is the shared notification store. */
  class Page {
    var filter: ReadFilter
    var typeFilter: Option<string>
    var sortOrder: SortOrder
    var selected: seq<string>
    var isSelectMode: bool
    const store: Store

    constructor (store: Store)
      ensures this.store == store
      ensures filter == All && typeFilter == None && sortOrder == Newest
      ensures selected == [] && !isSelectMode
    {
      this.store := store;
      filter, typeFilter, sortOrder := All, None, Newest;
      selected, isSelectMode := [], false;
    }

    /** toggleSelectMode. */
    method ToggleSelectMode()
      modifies this
      ensures isSelectMode == !old(isSelectMode) && selected == []
      ensures filter == old(filter) && typeFilter == old(typeFilter) && sortOrder == old(sortOrder)
    {
      isSelectMode := !isSelectMode;
      selected := [];
    }

    /** Clicking a notification card. */
    method CardClick(n: Notification)
      modifies this, store
      ensures !old(isSelectMode) && !n.read ==>
        store.notifications == MarkReadIn(old(store.notifications), n.id) && selected == old(selected)
      ensures !old(isSelectMode) && n.read ==>
        store.notifications == old(store.notifications) && selected == old(selected)
      ensures old(isSelectMode) ==>
        selected == Toggled(old(selected), n.id) && store.notifications == old(store.notifications)
      ensures store.unreadCount == (if !old(isSelectMode) && !n.read
        then old(store.unreadCount) - (if HasUnreadWithId(old(store.notifications), n.id) then 1 else 0)
        else old(store.unreadCount))
      ensures isSelectMode == old(isSelectMode) && filter == old(filter) &&
              typeFilter == old(typeFilter) && sortOrder == old(sortOrder)
      ensures old(store.Valid() && DistinctIds(store.notifications)) ==>
              store.Valid() && DistinctIds(store.notifications)
    {
      if !isSelectMode && !n.read {
        store.MarkAsRead(n.id);
      } else if isSelectMode {
        if n.id in selected {
          selected := Without(selected, n.id);
        } else {
          selected := selected + [n.id];
        }
      }
    }

    /** handleBatchMarkAsRead. */
    method BatchMarkAsRead()
      modifies this, store
      ensures store.notifications == MarkReadEach(old(store.notifications), old(selected))
      ensures selected == [] && !isSelectMode
      ensures filter == old(filter) && typeFilter == old(typeFilter) && sortOrder == old(sortOrder)
      ensures old(store.Valid() && DistinctIds(store.notifications)) ==>
              store.Valid() && DistinctIds(store.notifications)
    {
      var ids := selected;
      ghost var valid := store.Valid() && DistinctIds(store.notifications);
      var i := 0;
      while i < |ids|
        invariant 0 <= i <= |ids|
        invariant store.notifications == MarkReadEach(old(store.notifications), ids[..i])
        invariant valid ==> store.Valid() && DistinctIds(store.notifications)
        invariant filter == old(filter) && typeFilter == old(typeFilter) && sortOrder == old(sortOrder)
      {
        store.MarkAsRead(ids[i]);
        MarkReadEachSnoc(old(store.notifications), ids[..i], ids[i]);
        assert ids[..i + 1] == ids[..i] + [ids[i]];
        i := i + 1;
      }
      assert ids[..i] == ids;
      selected := [];
      isSelectMode := false;
    }

    /** handleBatchDismiss. */
    method BatchDismiss()
      modifies this, store
      ensures store.notifications == RemoveEach(old(store.notifications), old(selected))
      ensures selected == [] && !isSelectMode
      ensures filter == old(filter) && typeFilter == old(typeFilter) && sortOrder == old(sortOrder)
      ensures old(store.Valid() && DistinctIds(store.notifications)) ==>
              store.Valid() && DistinctIds(store.notifications)
    {
      var ids := selected;
      ghost var valid := store.Valid() && DistinctIds(store.notifications);
      var i := 0;
      while i < |ids|
        invariant 0 <= i <= |ids|
        invariant store.notifications == RemoveEach(old(store.notifications), ids[..i])
        invariant valid ==> store.Valid() && DistinctIds(store.notifications)
        invariant filter == old(filter) && typeFilter == old(typeFilter) && sortOrder == old(sortOrder)
      {
        store.RemoveNotification(ids[i]);
        RemoveEachSnoc(old(store.notifications), ids[..i], ids[i]);
        assert ids[..i + 1] == ids[..i] + [ids[i]];
        i := i + 1;
      }
      assert ids[..i] == ids;
      selected := [];
      isSelectMode := false;
    }
  }
}
