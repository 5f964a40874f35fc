/**
 * The socket provider's handling of `send-meet-notification` batches: the
 * entries addressed to the signed-in user become meeting notifications that go
 * to the notification store and to the on-screen stack.
 */
module SocketProvider {
  import opened Wrappers
  import opened JsText
  import opened NotificationStore

  /** One entry of a `send-meet-notification` batch. */
  datatype MeetNotification = MeetNotification(
    body: string,
    fromUser: string,
    name: string,
    image: string,
    screen: string,
    title: string,
    kind: string,
    userId: string)

  /** One card of the meeting notification stack; `createdAt` is the time stamp of arrival. */
  datatype NotificationItem = NotificationItem(
    id: string,
    senderName: string,
    senderAvatar: string,
    name: string,
    screen: string,
    meetingTitle: string,
    meetingTime: string,
    meetingDuration: string,
    title: string,
    description: string,
    kind: string,
    read: bool,
    createdAt: int)

  const DefaultAvatar: string := "/placeholder.svg?height=80&width=80"
  const DefaultDuration: string := "120 minutes"
  const MeetingTitle: string := "Le cours va commencer - rejoignez la session"
  const KnownTypes: seq<string> := ["system", "invitation", "comment", "react", "chat", "meet"]

  /** The regular expression /\d+ minutes/ matches `s[i..k + 8]`, with the digits `s[i..k]`. */
  predicate MinutesAt(s: string, i: int, k: int) {
    0 <= i < k <= |s| && AllDigits(s[i..k]) && " minutes" <= s[k..]
  }

  /** A digit run at `i` followed by " minutes" can only end where the maximal digit run ends. */
  lemma MinutesAtEnd(s: string, i: int)
    requires 0 <= i < |s|
    ensures var d := DigitPrefix(s[i..]);
      forall k :: MinutesAt(s, i, k) <==> k == i + |d| && d != [] && " minutes" <= s[k..]
  {
    var d := DigitPrefix(s[i..]);
    forall j | 0 <= j < |d| ensures s[i + j] == d[j] && IsDigit(s[i + j]) {
      assert s[i..][j] == d[j];
    }
    assert i + |d| == |s| || !IsDigit(s[i + |d|]) by {
      if |d| < |s[i..]| { assert s[i..][|d|] == s[i + |d|]; }
    }
    forall k ensures MinutesAt(s, i, k) <==> k == i + |d| && d != [] && " minutes" <= s[k..] {
      if MinutesAt(s, i, k) {
        assert s[k] == ' ' && !IsDigit(s[k]);
        forall j | i <= j < k ensures IsDigit(s[j]) { assert s[i..k][j - i] == s[j]; }
      }
      if k == i + |d| && d != [] && " minutes" <= s[k..] {
        assert s[i..k] == d;
      }
    }
  }

  /** A match of /\d+ minutes/ contains the word "minutes". */
  lemma MinutesAtContains(s: string)
    ensures forall i, k :: MinutesAt(s, i, k) ==> Contains(s, "minutes")
  {
    forall i, k | MinutesAt(s, i, k) ensures Contains(s, "minutes") {
      assert "minutes" <= s[k + 1..];
    }
  }

  /** The leftmost match of /\d+ minutes/ at or after position `i`, as the pair (start, end of digits). */
  function MinutesFrom(s: string, i: nat): (r: Option<(nat, nat)>)
    requires i <= |s|
    ensures r.Some? ==> MinutesAt(s, r.value.0, r.value.1) && i <= r.value.0
    ensures r.Some? ==> forall j, k :: i <= j < r.value.0 ==> !MinutesAt(s, j, k)
    ensures r.None? ==> forall j, k :: i <= j ==> !MinutesAt(s, j, k)
    decreases |s| - i
  {
    if i == |s| then None
    else
      var d := DigitPrefix(s[i..]);
      MinutesAtEnd(s, i);
      if d != [] && " minutes" <= s[i + |d|..] then
        assert MinutesAt(s, i, i + |d|);
        Some((i, i + |d|))
      else
        assert forall k :: !MinutesAt(s, i, k);
        MinutesFrom(s, i + 1)
  }

  /** The leftmost match is the one the scan from the start finds. */
  lemma MinutesFromLeftmost(s: string, i: int, k: int)
    requires MinutesAt(s, i, k)
    requires forall j, k' :: 0 <= j < i ==> !MinutesAt(s, j, k')
    ensures MinutesFrom(s, 0) == Some((i, k))
  {
    var r := MinutesFrom(s, 0);
    assert r.Some?;
    var (i0, k0) := r.value;
    assert MinutesAt(s, i0, k0);
    assert i0 == i;
    if k0 < k { MinutesAtShorter(s, i, k0, k); }
    if k < k0 { MinutesAtShorter(s, i, k, k0); }
  }

  /** Two matches at the same start have the same end: the digits stop at the space. */
  lemma MinutesAtShorter(s: string, i: int, k: int, k': int)
    requires MinutesAt(s, i, k) && k < k'
    ensures !MinutesAt(s, i, k')
  {
    assert s[k] == " minutes"[0];
  }

  /** meetingDuration: the first "<digits> minutes" in the body, else "120 minutes". */
  function MeetingDuration(body: string): string {
    if Contains(body, "minutes") then
      match MinutesFrom(body, 0)
      case Some((i, k)) => body[i..k + 8]
      case None => DefaultDuration
    else
      DefaultDuration
  }

  /** A leftmost match is the duration shown. */
  lemma MeetingDurationLeftmost(body: string, i: int, k: int)
    requires MinutesAt(body, i, k) && forall j, k' :: 0 <= j < i ==> !MinutesAt(body, j, k')
    ensures MeetingDuration(body) == body[i..k + 8]
  {
    MinutesAtContains(body);
    MinutesFromLeftmost(body, i, k);
  }

  /** Without a match the default is shown. */
  lemma MeetingDurationDefault(body: string)
    requires forall i, k :: !MinutesAt(body, i, k)
    ensures MeetingDuration(body) == DefaultDuration
  {
    assert MinutesFrom(body, 0).None?;
  }

  /** With a match, the scan finds a leftmost one. */
  lemma MeetingDurationFound(body: string)
    requires exists i, k :: MinutesAt(body, i, k)
    ensures exists i, k ::
              MinutesAt(body, i, k) && (forall j, k' :: 0 <= j < i ==> !MinutesAt(body, j, k')) &&
              MeetingDuration(body) == body[i..k + 8]
  {
    var i, k :| MinutesAt(body, i, k);
    var r := MinutesFrom(body, 0);
    assert r.Some?;
    var (i0, k0) := r.value;
    MeetingDurationLeftmost(body, i0, k0);
  }

  /**
   * The duration is the leftmost /\d+ minutes/ match of the body, and the
   * default exactly when the body has no match.
   */
  lemma MeetingDurationSpec(body: string)
    ensures forall i, k :: MinutesAt(body, i, k) && (forall j, k' :: 0 <= j < i ==> !MinutesAt(body, j, k')) ==>
      MeetingDuration(body) == body[i..k + 8]
    ensures (forall i, k :: !MinutesAt(body, i, k)) ==> MeetingDuration(body) == DefaultDuration
    ensures (exists i, k :: MinutesAt(body, i, k)) ==>
      exists i, k :: MinutesAt(body, i, k) && (forall j, k' :: 0 <= j < i ==> !MinutesAt(body, j, k')) &&
        MeetingDuration(body) == body[i..k + 8]
  {
    forall i, k | MinutesAt(body, i, k) && (forall j, k' :: 0 <= j < i ==> !MinutesAt(body, j, k'))
      ensures MeetingDuration(body) == body[i..k + 8]
    {
      MeetingDurationLeftmost(body, i, k);
    }
    if forall i, k :: !MinutesAt(body, i, k) {
      MeetingDurationDefault(body);
    } else {
      MeetingDurationFound(body);
    }
  }

  /** The type normalisation: one of the six known types, else "system". */
  function NormalType(kind: string): (t: string)
    ensures t in KnownTypes
    ensures kind in KnownTypes ==> t == kind
    ensures kind !in KnownTypes ==> t == "system"
  {
    if kind in KnownTypes then kind else "system"
  }

  /** The card built for one kept entry, with the id scheme `"socket-" + userId`. */
  function ToItem(m: MeetNotification, now: int): (item: NotificationItem)
    ensures item.id == "socket-" + m.userId && !item.read
    ensures item.kind == NormalType(m.kind) && item.meetingDuration == MeetingDuration(m.body)
    ensures item.senderAvatar == if m.image == "" then DefaultAvatar else m.image
  {
    NotificationItem("socket-" + m.userId, m.title, if m.image == "" then DefaultAvatar else m.image,
                     m.name, m.screen, MeetingTitle, "Now", MeetingDuration(m.body),
                     m.title, m.body, NormalType(m.kind), false, now)
  }

  /** The entries addressed to `userId`, in batch order (null entries are dropped). */
  function ForUser(data: seq<Option<MeetNotification>>, userId: string): (r: seq<MeetNotification>)
    ensures forall m :: m in r ==> m.userId == userId
    ensures |r| <= |data|
  {
    if data == [] then []
    else if data[0].Some? && data[0].value.userId == userId then [data[0].value] + ForUser(data[1..], userId)
    else ForUser(data[1..], userId)
  }

  /** The filter keeps exactly the entries addressed to the user. */
  lemma {:induction false} ForUserSpec(data: seq<Option<MeetNotification>>, userId: string)
    ensures forall m :: m in ForUser(data, userId) <==> Some(m) in data && m.userId == userId
  {
    if data != [] {
      ForUserSpec(data[1..], userId);
      assert forall o :: o in data <==> o == data[0] || o in data[1..];
    }
  }

  /** The filter works entry by entry, so the kept entries stay in batch order. */
  lemma {:induction false} ForUserAppend(a: seq<Option<MeetNotification>>, b: seq<Option<MeetNotification>>, userId: string)
    ensures ForUser(a + b, userId) == ForUser(a, userId) + ForUser(b, userId)
  {
    if a == [] {
      assert a + b == b;
    } else {
      assert (a + b)[0] == a[0];
      assert (a + b)[1..] == a[1..] + b;
      ForUserAppend(a[1..], b, userId);
    }
  }

  function ToItems(ms: seq<MeetNotification>, now: int): (items: seq<NotificationItem>)
    ensures |items| == |ms| && forall i :: 0 <= i < |ms| ==> items[i] == ToItem(ms[i], now)
  {
    seq(|ms|, i requires 0 <= i < |ms| => ToItem(ms[i], now))
  }

  /** The batch transformation; nothing at all without a signed-in user id. */
  function Transform(data: seq<Option<MeetNotification>>, userId: Option<string>, now: int): seq<NotificationItem> {
    if userId.None? || userId.value == "" then [] else ToItems(ForUser(data, userId.value), now)
  }

  /** The object the handler passes to addNotification. */
  function AsNotification(item: NotificationItem): (n: Notification)
    ensures n.id == item.id && n.kind == item.kind && n.read == item.read
  {
    Notification(item.id, item.title, item.name, item.description, None, item.createdAt,
                 item.kind, item.read, None, Some(item.screen), None, None)
  }

  /** The store list after addNotification on each card in turn. */
  function AddEach(ns: seq<Notification>, items: seq<NotificationItem>): seq<Notification>
    decreases |items|
  {
    if items == [] then ns else AddEach(WithAdded(ns, AsNotification(items[0])), items[1..])
  }

  lemma AddEachSnoc(ns: seq<Notification>, items: seq<NotificationItem>, item: NotificationItem)
    ensures AddEach(ns, items + [item]) == WithAdded(AddEach(ns, items), AsNotification(item))
    decreases |items|
  {
    if items != [] {
      assert (items + [item])[1..] == items[1..] + [item];
      AddEachSnoc(WithAdded(ns, AsNotification(items[0])), items[1..], item);
    }
  }

  /** Every card of one batch carries the same id "socket-" + the user's id. */
  lemma {:induction false} TransformIds(data: seq<Option<MeetNotification>>, userId: string, now: int)
    requires userId != ""
    ensures forall item :: item in Transform(data, Some(userId), now) ==>
      item.id == "socket-" + userId && !item.read
  {
  }

  /**
   * As written, the whole stream for one user shares a single id, so once a
   * socket notification is in the store, every later one is dropped by the
   * store's duplicate check: after any number of batches the store holds at
   * most one socket notification.
   */
  lemma {:induction false} SameIdDropsLater(ns: seq<Notification>, items: seq<NotificationItem>, id: string)
    requires forall item :: item in items ==> item.id == id
    requires HasId(ns, id)
    ensures AddEach(ns, items) == ns
    decreases |items|
  {
    if items != [] {
      assert items[0] in items;
      assert forall item :: item in items[1..] ==> item in items;
      SameIdDropsLater(ns, items[1..], id);
    }
  }

  /** Two meeting announcements for the same user in one batch: only the first reaches the store. */
  lemma SecondAnnouncementLost(m1: MeetNotification, m2: MeetNotification, now: int)
    requires m1.userId == m2.userId != ""
    ensures var items := Transform([Some(m1), Some(m2)], Some(m1.userId), now);
      |items| == 2 && AddEach([], items) == [AsNotification(items[0])]
  {
    var items := Transform([Some(m1), Some(m2)], Some(m1.userId), now);
    assert ForUser([Some(m1), Some(m2)], m1.userId) == [m1, m2] by {
      assert [Some(m1), Some(m2)][1..] == [Some(m2)];
    }
    var n1 := AsNotification(items[0]);
    assert !HasId([], n1.id);
    assert WithAdded([], n1) == [n1];
    var n2 := AsNotification(items[1]);
    assert [n1][0].id == n2.id;
    assert WithAdded([n1], n2) == [n1];
    assert items[1..] == [items[1]];
    assert items[1..][1..] == [];
    assert AddEach([n1], items[1..]) == AddEach([n1], []);
  }

  /** The card with a caller-supplied unique id, as the stream evidently intends. */
  function ToItemWithId(m: MeetNotification, id: string, now: int): (item: NotificationItem)
    ensures item.id == id && item == ToItem(m, now).(id := id)
  {
    ToItem(m, now).(id := id)
  }

  /**
   * With ids that are distinct and new to the store, every card of a batch
   * reaches the store, each one unread.
   */
  lemma {:induction false} FreshIdsAllAdded(ns: seq<Notification>, items: seq<NotificationItem>)
    requires forall i, j :: 0 <= i < j < |items| ==> items[i].id != items[j].id
    requires forall i :: 0 <= i < |items| ==> !HasId(ns, items[i].id) && !items[i].read
    ensures |AddEach(ns, items)| == |ns| + |items|
    ensures CountUnread(AddEach(ns, items)) == CountUnread(ns) + |items|
    decreases |items|
  {
    if items != [] {
      var n := AsNotification(items[0]);
      var ns' := WithAdded(ns, n);
      assert ns' == [n] + ns;
      assert ns'[1..] == ns;
      forall i | 0 <= i < |items[1..]| ensures !HasId(ns', items[1..][i].id) {
        assert items[1..][i] == items[i + 1];
        forall k | 0 <= k < |ns'| ensures ns'[k].id != items[i + 1].id {
          if k > 0 { assert ns'[k] == ns[k - 1]; }
        }
      }
      FreshIdsAllAdded(ns', items[1..]);
    }
  }

  /** `prev.filter(n => n.id !== id)`: the cards whose id differs, in their order. */
  function Declined(stack: seq<NotificationItem>, id: string): seq<NotificationItem>
    decreases |stack|
  {
    if stack == [] then []
    else Declined(stack[..|stack| - 1], id) + (if stack[|stack| - 1].id != id then [stack[|stack| - 1]] else [])
  }

  /** Declining keeps exactly the cards with another id, and never adds one. */
  lemma {:induction false} DeclinedSpec(stack: seq<NotificationItem>, id: string)
    ensures var r := Declined(stack, id);
      (forall item :: item in r <==> item in stack && item.id != id) && |r| <= |stack|
    decreases |stack|
  {
    if stack != [] {
      DeclinedSpec(stack[..|stack| - 1], id);
      assert stack == stack[..|stack| - 1] + [stack[|stack| - 1]];
    }
  }

  /** Declining an id no card has leaves the stack as it was. */
  lemma {:induction false} DeclineAbsent(stack: seq<NotificationItem>, id: string)
    requires forall k :: 0 <= k < |stack| ==> stack[k].id != id
    ensures Declined(stack, id) == stack
    decreases |stack|
  {
    if stack != [] {
      DeclineAbsent(stack[..|stack| - 1], id);
      assert stack[..|stack| - 1] + [stack[|stack| - 1]] == stack;
    }
  }

  /** Declining is idempotent. */
  lemma {:induction false} DeclineTwice(stack: seq<NotificationItem>, id: string)
    ensures Declined(Declined(stack, id), id) == Declined(stack, id)
  {
    var r := Declined(stack, id);
    DeclinedSpec(stack, id);
    forall k | 0 <= k < |r| ensures r[k].id != id { assert r[k] in r; }
    DeclineAbsent(r, id);
  }

  /** The cards handed to addNotification one after the other, in order. */
  method AddAll(store: Store, items: seq<NotificationItem>)
    modifies store
    ensures store.notifications == AddEach(old(store.notifications), items)
    ensures old(store.Valid()) ==> store.Valid()
  {
    var i := 0;
    while i < |items|
      invariant 0 <= i <= |items|
      invariant store.notifications == AddEach(old(store.notifications), items[..i])
      invariant old(store.Valid()) ==> store.Valid()
    {
      store.AddNotification(AsNotification(items[i]));
      AddEachSnoc(old(store.notifications), items[..i], items[i]);
      assert items[..i + 1] == items[..i] + [items[i]];
      i := i + 1;
    }
    assert items[..i] == items;
  }

  /** The provider's on-screen stack; the store is the shared notification store. */
  class Provider {
    var stack: seq<NotificationItem>
    const store: Store

    constructor (store: Store)
      ensures this.store == store && stack == []
    {
      this.store := store;
      stack := [];
    }

    /**
     * The `send-meet-notification` handler: every card goes to addNotification
     * in order and is appended to the stack. The result tells whether the
     * notification sound is played.
     */
    method OnMeetNotification(data: seq<Option<MeetNotification>>, userId: Option<string>, now: int)
      returns (playSound: bool)
      modifies this, store
      ensures var items := Transform(data, userId, now);
        store.notifications == AddEach(old(store.notifications), items) &&
        stack == old(stack) + items && playSound == (|items| > 0)
      ensures userId.None? || userId.value == "" ==>
        store.notifications == old(store.notifications) && stack == old(stack) && !playSound
      ensures old(store.Valid()) ==> store.Valid()
    {
      if userId.None? || userId.value == "" {
        return false;
      }
      var items := Transform(data, userId, now);
      AddAll(store, items);
      stack := stack + items;
      playSound := |items| > 0;
    }

    /** handleDeclineMeeting: drops the stack cards with that id, keeping the others in order. */
    method DeclineMeeting(id: string)
      modifies this
      ensures stack == Declined(old(stack), id)
    {
      var kept: seq<NotificationItem> := [];
      var i := 0;
      while i < |stack|
        invariant 0 <= i <= |stack|
        invariant kept == Declined(stack[..i], id)
      {
        assert stack[..i + 1][..i] == stack[..i];
        if stack[i].id != id {
          kept := kept + [stack[i]];
        }
        i := i + 1;
      }
      assert stack[..i] == stack;
      stack := kept;
    }
  }
}
