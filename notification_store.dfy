/**
 * The client-side notification store: a list of notifications kept newest
 * first, with an `unreadCount` counter that must equal the number of unread
 * entries. Backend synchronisation after each action is not modelled.
 */
module NotificationStore {
  import opened Wrappers

  datatype UserRef = UserRef(id: string, username: string, avatar: Option<string>)

  /** One notification as the store keeps it; `createdAt` is a time stamp. */
  datatype Notification = Notification(
    id: string,
    title: string,
    name: string,
    description: string,
    body: Option<string>,
    createdAt: int,
    kind: string,
    read: bool,
    status: Option<string>,
    screen: Option<string>,
    image: Option<string>,
    fromUser: Option<UserRef>)

  /** One entry of the `/get-all-notif` response. */
  datatype BackendNotification = BackendNotification(
    id: string,
    title: string,
    name: string,
    body: string,
    createdAt: int,
    kind: Option<string>,
    status: Option<string>,
    screen: Option<string>,
    image: Option<string>,
    fromUser: Option<UserRef>)

  const FetchError: string := "Failed to load notifications"

  function Ids(ns: seq<Notification>): (r: seq<string>)
    ensures |r| == |ns| && forall i :: 0 <= i < |ns| ==> r[i] == ns[i].id
  {
    if ns == [] then [] else [ns[0].id] + Ids(ns[1..])
  }

  predicate DistinctIds(ns: seq<Notification>) {
    forall i, j :: 0 <= i < j < |ns| ==> ns[i].id != ns[j].id
  }

  predicate HasId(ns: seq<Notification>, id: string) {
    exists i :: 0 <= i < |ns| && ns[i].id == id
  }

  predicate HasUnreadWithId(ns: seq<Notification>, id: string) {
    exists i :: 0 <= i < |ns| && ns[i].id == id && !ns[i].read
  }

  /** The number of unread notifications. */
  function CountUnread(ns: seq<Notification>): nat {
    if ns == [] then 0 else (if ns[0].read then 0 else 1) + CountUnread(ns[1..])
  }

  /** The counter is zero exactly when every entry is read. */
  lemma {:induction false} CountUnreadZero(ns: seq<Notification>)
    ensures CountUnread(ns) == 0 <==> forall i :: 0 <= i < |ns| ==> ns[i].read
  {
    if ns != [] {
      CountUnreadZero(ns[1..]);
      assert forall i :: 1 <= i < |ns| ==> ns[i] == ns[1..][i - 1];
    }
  }

  /** The list after addNotification(n): a known id is ignored, a new entry goes to the front. */
  function WithAdded(ns: seq<Notification>, n: Notification): seq<Notification> {
    if HasId(ns, n.id) then ns else [n] + ns
  }

  /** What markAsRead does to one entry. */
  function MarkedRead(n: Notification): (r: Notification)
    ensures r.read && r.status == Some("read") && r.id == n.id
  {
    n.(read := true, status := Some("read"))
  }

  /** The list after markAsRead(id). */
  function MarkReadIn(ns: seq<Notification>, id: string): seq<Notification> {
    if ns == [] then []
    else [if ns[0].id == id then MarkedRead(ns[0]) else ns[0]] + MarkReadIn(ns[1..], id)
  }

  /** markAsRead touches the entries with that id only, and keeps length and order. */
  lemma {:induction false} MarkReadInAt(ns: seq<Notification>, id: string)
    ensures |MarkReadIn(ns, id)| == |ns|
    ensures forall i :: 0 <= i < |ns| ==>
      MarkReadIn(ns, id)[i] == if ns[i].id == id then MarkedRead(ns[i]) else ns[i]
  {
    if ns != [] {
      MarkReadInAt(ns[1..], id);
      assert forall i :: 1 <= i < |ns| ==> ns[i] == ns[1..][i - 1];
    }
  }

  /** With distinct ids, markAsRead lowers the unread count by one exactly when an unread entry had that id. */
  lemma {:induction false} MarkReadInCount(ns: seq<Notification>, id: string)
    requires DistinctIds(ns)
    ensures CountUnread(MarkReadIn(ns, id)) ==
            CountUnread(ns) - (if HasUnreadWithId(ns, id) then 1 else 0)
  {
    if ns != [] {
      var t := ns[1..];
      assert DistinctIds(t) by {
        forall i, j | 0 <= i < j < |t| ensures t[i].id != t[j].id {
          assert t[i] == ns[i + 1] && t[j] == ns[j + 1];
        }
      }
      MarkReadInCount(t, id);
      assert HasUnreadWithId(ns, id) <==> (ns[0].id == id && !ns[0].read) || HasUnreadWithId(t, id) by {
        if HasUnreadWithId(ns, id) {
          var i :| 0 <= i < |ns| && ns[i].id == id && !ns[i].read;
          if i > 0 { assert t[i - 1] == ns[i]; }
        }
        if HasUnreadWithId(t, id) {
          var i :| 0 <= i < |t| && t[i].id == id && !t[i].read;
          assert ns[i + 1] == t[i];
        }
      }
      if ns[0].id == id {
        forall i | 0 <= i < |t| ensures t[i].id != id { assert t[i] == ns[i + 1]; }
        assert !HasUnreadWithId(t, id);
      }
    }
  }

  /** A second markAsRead with the same id changes nothing. */
  lemma {:induction false} MarkReadInIdempotent(ns: seq<Notification>, id: string)
    ensures MarkReadIn(MarkReadIn(ns, id), id) == MarkReadIn(ns, id)
  {
    if ns != [] {
      MarkReadInIdempotent(ns[1..], id);
    }
  }

  lemma {:induction false} MarkReadInIds(ns: seq<Notification>, id: string)
    ensures Ids(MarkReadIn(ns, id)) == Ids(ns)
  {
    MarkReadInAt(ns, id);
  }

  /** The list after markAllAsRead. */
  function MarkAllRead(ns: seq<Notification>): seq<Notification> {
    if ns == [] then [] else [MarkedRead(ns[0])] + MarkAllRead(ns[1..])
  }

  /** markAllAsRead keeps length, order and ids and leaves no unread entry. */
  lemma {:induction false} MarkAllReadFacts(ns: seq<Notification>)
    ensures |MarkAllRead(ns)| == |ns|
    ensures forall i :: 0 <= i < |ns| ==> MarkAllRead(ns)[i] == MarkedRead(ns[i])
    ensures CountUnread(MarkAllRead(ns)) == 0
    ensures Ids(MarkAllRead(ns)) == Ids(ns)
  {
    if ns != [] {
      MarkAllReadFacts(ns[1..]);
      assert forall i :: 1 <= i < |ns| ==> ns[i] == ns[1..][i - 1];
    }
  }

  /** Array.prototype.find on the id: the first entry with that id. */
  function FindById(ns: seq<Notification>, id: string): (r: Option<Notification>)
    ensures r.None? <==> !HasId(ns, id)
    ensures r.Some? ==> exists i :: 0 <= i < |ns| && ns[i] == r.value && r.value.id == id &&
                                    forall j :: 0 <= j < i ==> ns[j].id != id
  {
    if ns == [] then None
    else if ns[0].id == id then Some(ns[0])
    else
      var r := FindById(ns[1..], id);
      assert HasId(ns, id) ==> HasId(ns[1..], id) by {
        if HasId(ns, id) {
          var i :| 0 <= i < |ns| && ns[i].id == id;
          assert ns[1..][i - 1] == ns[i];
        }
      }
      assert r.Some? ==> HasId(ns, id) by {
        if r.Some? {
          var i :| 0 <= i < |ns[1..]| && ns[1..][i] == r.value && r.value.id == id;
          assert ns[i + 1] == r.value;
        }
      }
      if r.Some? then
        assert exists i :: 0 <= i < |ns| && ns[i] == r.value && r.value.id == id &&
                                    forall j :: 0 <= j < i ==> ns[j].id != id by {
          var i :| 0 <= i < |ns[1..]| && ns[1..][i] == r.value && r.value.id == id &&
                                    forall j :: 0 <= j < i ==> ns[1..][j].id != id;
          assert ns[i + 1] == r.value;
          forall j | 0 <= j < i + 1 ensures ns[j].id != id {
            if j > 0 { assert ns[j] == ns[1..][j - 1]; }
          }
        }
        r
      else r
  }

  /** The list after removeNotification(id). */
  function RemoveId(ns: seq<Notification>, id: string): seq<Notification> {
    if ns == [] then []
    else if ns[0].id == id then RemoveId(ns[1..], id)
    else [ns[0]] + RemoveId(ns[1..], id)
  }

  /** removeNotification deletes every entry with the id and keeps the others in order. */
  lemma RemoveIdSpec(ns: seq<Notification>, id: string)
    ensures !HasId(RemoveId(ns, id), id)
    ensures !HasId(ns, id) ==> RemoveId(ns, id) == ns
    ensures forall n :: n in RemoveId(ns, id) <==> n in ns && n.id != id
  {
    RemoveIdMembers(ns, id);
    if !HasId(ns, id) {
      RemoveIdAbsent(ns, id);
    }
  }

  /** The entries left are exactly those with another id. */
  lemma {:induction false} RemoveIdMembers(ns: seq<Notification>, id: string)
    ensures forall n :: n in RemoveId(ns, id) <==> n in ns && n.id != id
  {
    if ns != [] {
      RemoveIdMembers(ns[1..], id);
      assert forall n :: n in ns <==> n == ns[0] || n in ns[1..];
    }
  }

  /** Removing an id that is not there changes nothing. */
  lemma {:induction false} RemoveIdAbsent(ns: seq<Notification>, id: string)
    requires !HasId(ns, id)
    ensures RemoveId(ns, id) == ns
  {
    if ns != [] {
      assert !HasId(ns[1..], id) by {
        forall i | 0 <= i < |ns| - 1 ensures ns[1..][i].id != id { assert ns[1..][i] == ns[i + 1]; }
      }
      RemoveIdAbsent(ns[1..], id);
      assert ns == [ns[0]] + ns[1..];
    }
  }

  lemma DistinctTail(ns: seq<Notification>)
    requires DistinctIds(ns) && ns != []
    ensures DistinctIds(ns[1..])
    ensures forall n :: n in ns[1..] ==> n.id != ns[0].id
  {
    var t := ns[1..];
    forall i, j | 0 <= i < j < |t| ensures t[i].id != t[j].id {
      assert t[i] == ns[i + 1] && t[j] == ns[j + 1];
    }
    forall n | n in t ensures n.id != ns[0].id {
      var k :| 0 <= k < |t| && t[k] == n;
      assert ns[k + 1] == n;
    }
  }

  lemma DistinctCons(x: Notification, r: seq<Notification>)
    requires DistinctIds(r) && forall n :: n in r ==> n.id != x.id
    ensures DistinctIds([x] + r)
  {
    var l := [x] + r;
    forall i, j | 0 <= i < j < |l| ensures l[i].id != l[j].id {
      assert l[j] == r[j - 1];
      if i > 0 { assert l[i] == r[i - 1]; }
    }
  }

  /**
   * With distinct ids, removeNotification lowers the unread count by one exactly
   * when the entry it found first was unread.
   */
  lemma {:induction false} RemoveIdCount(ns: seq<Notification>, id: string)
    requires DistinctIds(ns)
    ensures CountUnread(RemoveId(ns, id)) ==
            CountUnread(ns) - (match FindById(ns, id) case Some(n) => if n.read then 0 else 1 case None => 0)
  {
    if ns != [] {
      var t := ns[1..];
      DistinctTail(ns);
      RemoveIdCount(t, id);
      if ns[0].id == id {
        forall i | 0 <= i < |t| ensures t[i].id != id { assert t[i] in t; }
        assert FindById(t, id).None?;
      }
    }
  }

  lemma {:induction false} RemoveIdDistinct(ns: seq<Notification>, id: string)
    requires DistinctIds(ns)
    ensures DistinctIds(RemoveId(ns, id))
  {
    if ns != [] {
      var t := ns[1..];
      DistinctTail(ns);
      RemoveIdDistinct(t, id);
      if ns[0].id != id {
        RemoveIdMembers(t, id);
        DistinctCons(ns[0], RemoveId(t, id));
      }
    }
  }

  /** The backend-to-store mapping of one fetched notification. */
  function FromBackend(b: BackendNotification): (n: Notification)
    ensures n.id == b.id && n.description == b.body && n.body == Some(b.body)
    ensures n.read <==> b.status == Some("read")
    ensures n.kind == (if b.kind == None || b.kind == Some("") then "system" else b.kind.value)
  {
    Notification(b.id, b.title, b.name, b.body, Some(b.body), b.createdAt,
                 if b.kind == None || b.kind == Some("") then "system" else b.kind.value,
                 b.status == Some("read"), b.status, b.screen, b.image, b.fromUser)
  }

  function FromBackendAll(bs: seq<BackendNotification>): (ns: seq<Notification>)
    ensures |ns| == |bs| && forall i :: 0 <= i < |bs| ==> ns[i] == FromBackend(bs[i])
  {
    seq(|bs|, i requires 0 <= i < |bs| => FromBackend(bs[i]))
  }

  /** The number of fetched entries whose status is not "read". */
  function CountNotRead(bs: seq<BackendNotification>): nat {
    if bs == [] then 0 else (if bs[0].status == Some("read") then 0 else 1) + CountNotRead(bs[1..])
  }

  /** After a fetch the counter equals the number of fetched entries not marked "read". */
  lemma {:induction false} FromBackendCount(bs: seq<BackendNotification>)
    ensures CountUnread(FromBackendAll(bs)) == CountNotRead(bs)
  {
    if bs != [] {
      FromBackendCount(bs[1..]);
      assert FromBackendAll(bs)[1..] == FromBackendAll(bs[1..]);
    }
  }

  class Store {
    var notifications: seq<Notification>
    var unreadCount: int
    var isLoading: bool
    var error: Option<string>

    /** The counter invariant: unreadCount is the number of unread entries. */
    predicate Valid()
      reads this
    {
      unreadCount == CountUnread(notifications)
    }

    constructor ()
      ensures notifications == [] && unreadCount == 0 && !isLoading && error == None
      ensures Valid()
    {
      notifications := [];
      unreadCount := 0;
      isLoading := false;
      error := None;
    }

    /** fetchInitialNotifications; `response` is None when the request failed. */
    method FetchInitialNotifications(response: Option<seq<BackendNotification>>)
      modifies this
      ensures !isLoading
      ensures response.Some? ==> notifications == FromBackendAll(response.value) &&
                                 unreadCount == CountNotRead(response.value) && error == None
      ensures response.None? ==> notifications == old(notifications) &&
                                 unreadCount == old(unreadCount) && error == Some(FetchError)
      ensures response.Some? || old(Valid()) ==> Valid()
    {
      isLoading, error := true, None;
      match response {
        case Some(bs) =>
          notifications := FromBackendAll(bs);
          FromBackendCount(bs);
          unreadCount := CountUnread(notifications);
          isLoading := false;
        case None =>
          error := Some(FetchError);
          isLoading := false;
      }
    }

    /** addNotification: a known id is ignored; a new one goes to the front. */
    method AddNotification(n: Notification)
      modifies this
      ensures notifications == WithAdded(old(notifications), n)
      ensures HasId(old(notifications), n.id) ==>
                notifications == old(notifications) && unreadCount == old(unreadCount)
      ensures !HasId(old(notifications), n.id) ==>
                notifications == [n] + old(notifications) &&
                unreadCount == old(unreadCount) + (if n.read then 0 else 1)
      ensures isLoading == old(isLoading) && error == old(error)
      ensures old(Valid()) ==> Valid()
      ensures old(DistinctIds(notifications)) ==> DistinctIds(notifications)
    {
      if HasId(notifications, n.id) {
        return;
      }
      notifications := [n] + notifications;
      unreadCount := if n.read then unreadCount else unreadCount + 1;
      assert notifications[1..] == old(notifications);
    }

    /** markAsRead (the optimistic update). */
    method MarkAsRead(id: string)
      modifies this
      ensures notifications == MarkReadIn(old(notifications), id)
      ensures unreadCount == old(unreadCount) - (if HasUnreadWithId(old(notifications), id) then 1 else 0)
      ensures isLoading == old(isLoading) && error == old(error)
      ensures old(Valid() && DistinctIds(notifications)) ==> Valid() && DistinctIds(notifications)
    {
      var had := HasUnreadWithId(notifications, id);
      if DistinctIds(notifications) {
        MarkReadInCount(notifications, id);
      }
      MarkReadInIds(notifications, id);
      notifications := MarkReadIn(notifications, id);
      unreadCount := if had then unreadCount - 1 else unreadCount;
      assert forall i :: 0 <= i < |notifications| ==> notifications[i].id == Ids(notifications)[i];
      assert forall i :: 0 <= i < |old(notifications)| ==> old(notifications)[i].id == Ids(old(notifications))[i];
    }

    /** markAllAsRead (the optimistic update). */
    method MarkAllAsRead()
      modifies this
      ensures notifications == MarkAllRead(old(notifications)) && unreadCount == 0
      ensures isLoading == old(isLoading) && error == old(error)
      ensures Valid()
      ensures old(DistinctIds(notifications)) ==> DistinctIds(notifications)
    {
      MarkAllReadFacts(notifications);
      notifications := MarkAllRead(notifications);
      unreadCount := 0;
      assert forall i :: 0 <= i < |notifications| ==> notifications[i].id == Ids(notifications)[i];
    }

    /** removeNotification (the optimistic update). */
    method RemoveNotification(id: string)
      modifies this
      ensures notifications == RemoveId(old(notifications), id)
      ensures unreadCount == old(unreadCount) -
        (match FindById(old(notifications), id) case Some(n) => if n.read then 0 else 1 case None => 0)
      ensures isLoading == old(isLoading) && error == old(error)
      ensures old(Valid() && DistinctIds(notifications)) ==> Valid() && DistinctIds(notifications)
    {
      var toRemove := FindById(notifications, id);
      if DistinctIds(notifications) {
        RemoveIdCount(notifications, id);
        RemoveIdDistinct(notifications, id);
      }
      notifications := RemoveId(notifications, id);
      unreadCount := if toRemove.Some? && !toRemove.value.read then unreadCount - 1 else unreadCount;
    }

    /** clearNotifications. */
    method ClearNotifications()
      modifies this
      ensures notifications == [] && unreadCount == 0
      ensures isLoading == old(isLoading) && error == old(error)
      ensures Valid()
    {
      notifications, unreadCount := [], 0;
    }
  }
}
