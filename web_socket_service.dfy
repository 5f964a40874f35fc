/**
 * The application's WebSocket client: a registry of message handlers per
 * message type, dispatch of incoming messages, the send guard, and the
 * reconnection budget after the connection closes. Handlers are named by an
 * id, the socket's readiness is a field the runtime's events update, and a
 * promise is named by a counter.
 */
module WebSocketService {
  import opened Wrappers
  import JsValue

  const MaxReconnectAttempts: nat := 5
  const ReconnectDelay: nat := 3000
  const NotConnected := "WebSocket is not connected"

  type HandlerId = nat

  datatype ReadyState = Connecting | Open | Closing | Closed

  datatype Message = Message(kind: string, payload: JsValue.Json)

  /** handlers.indexOf(h) and splice(index, 1): drops the first occurrence, if any. */
  function RemoveFirst(hs: seq<HandlerId>, h: HandlerId): (r: seq<HandlerId>)
    ensures h !in hs ==> r == hs
    ensures h in hs ==> |r| == |hs| - 1 && multiset(r) == multiset(hs) - multiset{h}
  {
    if hs == [] then []
    else
      assert hs == [hs[0]] + hs[1..];
      if hs[0] == h then hs[1..] else [hs[0]] + RemoveFirst(hs[1..], h)
  }

  /** Registering a new handler and unsubscribing it gives the list back. */
  lemma {:induction false} SubscribeThenUnsubscribe(hs: seq<HandlerId>, h: HandlerId)
    requires h !in hs
    ensures RemoveFirst(hs + [h], h) == hs
  {
    if hs != [] {
      assert (hs + [h])[1..] == hs[1..] + [h];
      SubscribeThenUnsubscribe(hs[1..], h);
    }
  }

  /** Unsubscribing a handler registered once a second time changes nothing. */
  lemma UnsubscribeTwice(hs: seq<HandlerId>, h: HandlerId)
    requires multiset(hs)[h] <= 1
    ensures RemoveFirst(RemoveFirst(hs, h), h) == RemoveFirst(hs, h)
  {
    if h in hs {
      assert multiset(RemoveFirst(hs, h))[h] == 0;
    }
  }

  /** The number of reconnections scheduled by `closes` closings in a row, starting from `attempts`. */
  function ReconnectsScheduled(attempts: nat, closes: nat): nat
    decreases closes
  {
    if closes == 0 then 0
    else if attempts < MaxReconnectAttempts then 1 + ReconnectsScheduled(attempts + 1, closes - 1)
    else ReconnectsScheduled(attempts, closes - 1)
  }

  /** Without a successful open in between, at most five reconnections are ever scheduled. */
  lemma {:induction false} ReconnectBudget(attempts: nat, closes: nat)
    requires attempts <= MaxReconnectAttempts
    ensures ReconnectsScheduled(attempts, closes) ==
            if closes < MaxReconnectAttempts - attempts then closes else MaxReconnectAttempts - attempts
    decreases closes
  {
    if closes > 0 {
      if attempts < MaxReconnectAttempts {
        ReconnectBudget(attempts + 1, closes - 1);
      } else {
        ReconnectBudget(attempts, closes - 1);
      }
    }
  }

  /** The create_meeting message: the title and the participants' ids. */
  function MeetingRequest(title: string, participants: seq<string>): Message {
    Message("create_meeting", JsValue.JObj(map["title" := JsValue.JStr(title),
                                               "participants" := JsValue.StrArrayJson(participants)]))
  }

  class Service {
    var socket: Option<ReadyState>
    var eventHandlers: map<string, seq<HandlerId>>
    var reconnectAttempts: nat
    var connectionPromise: Option<nat>
    var url: string
    /** Promises created so far; the next promise gets this number. */
    var promises: nat
    /** Messages handed to the socket, oldest first. */
    var outbox: seq<Message>

    predicate Valid()
      reads this
    {
      reconnectAttempts <= MaxReconnectAttempts &&
      (connectionPromise.Some? ==> connectionPromise.value < promises)
    }

    constructor ()
      ensures Valid()
      ensures socket == None && eventHandlers == map[] && reconnectAttempts == 0
      ensures connectionPromise == None && url == "" && outbox == []
    {
      socket := None;
      eventHandlers := map[];
      reconnectAttempts := 0;
      connectionPromise := None;
      url := "";
      promises := 0;
      outbox := [];
    }

    function Handlers(kind: string): seq<HandlerId>
      reads this
    {
      if kind in eventHandlers then eventHandlers[kind] else []
    }

    /** connect: a pending connection is shared; otherwise a new socket and a new promise. */
    method Connect(newUrl: string) returns (promise: nat)
      requires Valid()
      modifies this
      ensures Valid()
      ensures url == newUrl && eventHandlers == old(eventHandlers) && reconnectAttempts == old(reconnectAttempts)
      ensures outbox == old(outbox)
      ensures old(connectionPromise).Some? ==>
                promise == old(connectionPromise).value && socket == old(socket) && promises == old(promises)
      ensures old(connectionPromise).None? ==>
                promise == old(promises) && promises == old(promises) + 1 && socket == Some(Connecting)
      ensures connectionPromise == Some(promise)
    {
      url := newUrl;
      if connectionPromise.Some? {
        return connectionPromise.value;
      }
      socket := Some(Connecting);
      promise := promises;
      promises := promises + 1;
      connectionPromise := Some(promise);
    }

    /** The socket's open event. */
    method Opened()
      requires Valid()
      requires socket.Some?
      modifies this
      ensures Valid()
      ensures socket == Some(Open) && reconnectAttempts == 0
      ensures eventHandlers == old(eventHandlers) && connectionPromise == old(connectionPromise)
      ensures url == old(url) && promises == old(promises) && outbox == old(outbox)
    {
      socket := Some(Open);
      reconnectAttempts := 0;
    }

    /** The socket's close event: forget the promise and schedule a reconnection while the budget lasts. */
    method HandleDisconnection() returns (scheduled: bool)
      requires Valid()
      modifies this
      ensures Valid()
      ensures scheduled <==> old(reconnectAttempts) < MaxReconnectAttempts
      ensures reconnectAttempts == if scheduled then old(reconnectAttempts) + 1 else old(reconnectAttempts)
      ensures connectionPromise == None
      ensures socket == (if old(socket).Some? then Some(Closed) else None)
      ensures eventHandlers == old(eventHandlers) && url == old(url) && promises == old(promises)
      ensures outbox == old(outbox)
    {
      if socket.Some? {
        socket := Some(Closed);
      }
      connectionPromise := None;
      if reconnectAttempts < MaxReconnectAttempts {
        reconnectAttempts := reconnectAttempts + 1;
        scheduled := true;
      } else {
        scheduled := false;
      }
    }

    /** handleMessage: every handler of the message's type, in registration order; nothing for unparsable data. */
    method HandleMessage(parsed: Option<Message>) returns (invoked: seq<HandlerId>)
      ensures parsed.None? ==> invoked == []
      ensures parsed.Some? ==> invoked == Handlers(parsed.value.kind)
    {
      invoked := [];
      if parsed.None? {
        return;
      }
      var handlers := Handlers(parsed.value.kind);
      var i := 0;
      while i < |handlers|
        invariant 0 <= i <= |handlers|
        invariant invoked == handlers[..i]
      {
        invoked := invoked + [handlers[i]];
        i := i + 1;
      }
      assert handlers[..|handlers|] == handlers;
    }

    /** on: appends the handler to its type's list. */
    method On(kind: string, h: HandlerId)
      requires Valid()
      modifies this
      ensures Valid()
      ensures eventHandlers == old(eventHandlers)[kind := old(Handlers(kind)) + [h]]
      ensures socket == old(socket) && reconnectAttempts == old(reconnectAttempts)
      ensures connectionPromise == old(connectionPromise) && url == old(url)
      ensures promises == old(promises) && outbox == old(outbox)
    {
      if kind !in eventHandlers {
        eventHandlers := eventHandlers[kind := []];
      }
      eventHandlers := eventHandlers[kind := eventHandlers[kind] + [h]];
    }

    /** The function `on` returns: removes the first occurrence of the handler from its type's list. */
    method Unsubscribe(kind: string, h: HandlerId)
      requires Valid()
      requires kind in eventHandlers
      modifies this
      ensures Valid()
      ensures eventHandlers == old(eventHandlers)[kind := RemoveFirst(old(eventHandlers)[kind], h)]
      ensures socket == old(socket) && reconnectAttempts == old(reconnectAttempts)
      ensures connectionPromise == old(connectionPromise) && url == old(url)
      ensures promises == old(promises) && outbox == old(outbox)
    {
      eventHandlers := eventHandlers[kind := RemoveFirst(eventHandlers[kind], h)];
    }

    /** send: refused unless the socket is open. */
    method Send(message: Message) returns (r: Result<()>)
      requires Valid()
      modifies this
      ensures Valid()
      ensures r.Err? <==> socket != Some(Open)
      ensures r.Err? ==> r.msg == NotConnected && outbox == old(outbox)
      ensures r.Ok? ==> outbox == old(outbox) + [message]
      ensures socket == old(socket) && eventHandlers == old(eventHandlers)
      ensures reconnectAttempts == old(reconnectAttempts) && connectionPromise == old(connectionPromise)
      ensures url == old(url) && promises == old(promises)
    {
      if socket != Some(Open) {
        return Err(NotConnected);
      }
      outbox := outbox + [message];
      r := Ok(());
    }

    /** createMeeting: sends a create_meeting message with the title and the participants. */
    method CreateMeeting(title: string, participants: seq<string>) returns (r: Result<()>)
      requires Valid()
      modifies this
      ensures Valid()
      ensures r.Err? <==> socket != Some(Open)
      ensures r.Ok? ==> outbox == old(outbox) + [MeetingRequest(title, participants)]
      ensures r.Err? ==> outbox == old(outbox)
      ensures socket == old(socket) && eventHandlers == old(eventHandlers)
      ensures reconnectAttempts == old(reconnectAttempts) && connectionPromise == old(connectionPromise)
    {
      r := Send(MeetingRequest(title, participants));
    }

    /** disconnect: drop the socket and the pending promise, and restore the reconnection budget. */
    method Disconnect()
      requires Valid()
      modifies this
      ensures Valid()
      ensures socket == None && connectionPromise == None && reconnectAttempts == 0
      ensures eventHandlers == old(eventHandlers) && url == old(url) && promises == old(promises)
      ensures outbox == old(outbox)
    {
      socket := None;
      connectionPromise := None;
      reconnectAttempts := 0;
    }
  }

  /**
   * As written, disconnect() closes the socket without detaching its close
   * handler, so the close event that follows an explicit disconnect still
   * schedules a reconnection, the attempt count having just been reset to zero.
   */
  method CloseAfterDisconnect(s: Service) returns (scheduled: bool)
    requires s.Valid()
    modifies s
    ensures scheduled && s.reconnectAttempts == 1 && s.socket == None && s.connectionPromise == None
  {
    s.Disconnect();
    scheduled := s.HandleDisconnection();
  }
}
