/**
 * The browser's socket client: one socket per room, a registry of event listeners
 * (event name to a set of callbacks) and the dispatch of incoming frames to them.
 */
module SocketService {
  import opened Wrappers
  import opened Text
  import opened Iteration
  import opened Config

  /** The identity of a callback function registered with `on`. */
  type CallbackId = nat
  /** The identity of a browser `WebSocket` object. */
  type SocketId = nat

  /**
   * The URL `connect` opens for a room id that is already upper-cased: the room path under
   * the socket base, with the id as its last segment.
   */
  function RoomSocketUrl(d: Deployment, upperId: string): (url: string)
    ensures '/' !in upperId ==> var parts := Split(url, '/'); parts[|parts| - 1] == upperId
  {
    var prefix := WsBaseUrl(d) + "/ws/room";
    var url := WsBaseUrl(d) + "/ws/room/" + upperId;
    assert url == prefix + ['/'] + upperId;
    assert '/' !in upperId ==> var parts := Split(url, '/'); parts[|parts| - 1] == upperId by {
      if '/' !in upperId { SplitLastPiece(prefix, '/', upperId); }
    }
    url
  }

  /** One invocation `callback(data)`; `None` data is `undefined`. */
  datatype Call = Call(callback: CallbackId, data: Option<Json>)

  /** The callbacks registered for `event` (none when the map has no entry). */
  function ListenersOf(listeners: map<string, set<CallbackId>>, event: string): set<CallbackId>
  {
    if event in listeners then listeners[event] else {}
  }

  /** `on(event, callback)`. */
  function Register(listeners: map<string, set<CallbackId>>, event: string, cb: CallbackId)
    : (r: map<string, set<CallbackId>>)
    ensures r.Keys == listeners.Keys + {event}
    ensures ListenersOf(r, event) == ListenersOf(listeners, event) + {cb}
    ensures forall e :: e != event ==> ListenersOf(r, e) == ListenersOf(listeners, e)
  {
    var current := if event in listeners then listeners[event] else {};
    listeners[event := current + {cb}]
  }

  /** `off(event, callback)`: the entry stays, possibly empty. */
  function Unregister(listeners: map<string, set<CallbackId>>, event: string, cb: CallbackId)
    : (r: map<string, set<CallbackId>>)
    ensures r.Keys == listeners.Keys
    ensures ListenersOf(r, event) == ListenersOf(listeners, event) - {cb}
    ensures forall e :: e != event ==> ListenersOf(r, e) == ListenersOf(listeners, e)
  {
    if event in listeners then listeners[event := listeners[event] - {cb}] else listeners
  }

  /** Registering the same callback twice is the same as registering it once. */
  lemma RegisterIdempotent(listeners: map<string, set<CallbackId>>, event: string, cb: CallbackId)
    ensures Register(Register(listeners, event, cb), event, cb) == Register(listeners, event, cb)
  {
  }

  /** `off` undoes an `on` of a callback that was not registered before. */
  lemma UnregisterUndoesRegister(listeners: map<string, set<CallbackId>>, event: string, cb: CallbackId)
    requires cb !in ListenersOf(listeners, event)
    ensures forall e :: ListenersOf(Unregister(Register(listeners, event, cb), event, cb), e) == ListenersOf(listeners, e)
    ensures event in listeners ==> Unregister(Register(listeners, event, cb), event, cb) == listeners
  {
    var r := Unregister(Register(listeners, event, cb), event, cb);
    if event in listeners {
      assert r.Keys == listeners.Keys;
      forall e | e in listeners ensures r[e] == listeners[e] {
        assert ListenersOf(r, e) == ListenersOf(listeners, e);
      }
    }
  }

  /** The frame `send(type, payload)` writes: `JSON.stringify` drops an undefined payload. */
  function OutgoingFrame(kind: string, payload: Option<Json>): (f: Json)
    ensures Field(f, "type") == Some(JStr(kind)) && Field(f, "payload") == payload
  {
    JObj(Put(map["type" := JStr(kind)], "payload", payload))
  }

  /** The transmitted frames after `send(kind, payload)`: one more frame exactly when `writable`. */
  function AfterSend(transmitted: seq<Json>, writable: bool, kind: string, payload: Option<Json>): (r: seq<Json>)
    ensures writable ==> |r| == |transmitted| + 1 && r[..|transmitted|] == transmitted && r[|transmitted|] == OutgoingFrame(kind, payload)
    ensures !writable ==> r == transmitted
  {
    if writable then transmitted + [OutgoingFrame(kind, payload)] else transmitted
  }

  /**
   * How the `onmessage` handler dispatches a parsed frame: `emit(data.type, data.payload)`.
   * `None` when nothing reaches a listener: the text was not JSON, `data` is null (reading
   * `.type` throws), or `data.type` is not a string (every listener is registered under a string).
   */
  function Dispatch(parsed: Option<Json>): (r: Option<(string, Option<Json>)>)
    ensures r.Some? <==> parsed.Some? && Field(parsed.value, "type").Some? && Field(parsed.value, "type").value.JStr?
  {
    if parsed.None? then None
    else match Field(parsed.value, "type")
      case Some(JStr(kind)) => Some((kind, Field(parsed.value, "payload")))
      case _ => None
  }

  /** A frame written by `send` and relayed verbatim is emitted under its type with its payload. */
  lemma DispatchOutgoing(kind: string, payload: Option<Json>)
    ensures Dispatch(Some(OutgoingFrame(kind, payload))) == Some((kind, payload))
  {
  }

  /** `this.roomId` is truthy: a close event then schedules `connect(this.roomId)` again. */
  predicate SchedulesReconnect(roomId: Option<string>): (r: bool)
    ensures r <==> roomId.Some? && Truthy(JStr(roomId.value))
  {
    roomId.Some? && roomId.value != ""
  }

  /** The status object emitted as the `connection` event. */
  function ConnectionStatus(status: string, roomId: Option<string>): Json
  {
    JObj(map["status" := JStr(status), "roomId" := if roomId.Some? then JStr(roomId.value) else JNull])
  }

  /** `after` extends `before` with one call of `data` for each of `callbacks`, in some order. */
  ghost predicate Invoked(before: seq<Call>, after: seq<Call>, callbacks: set<CallbackId>, data: Option<Json>)
  {
    |after| == |before| + |callbacks| && after[..|before|] == before &&
    (set i | |before| <= i < |after| :: after[i].callback) == callbacks &&
    forall i :: |before| <= i < |after| ==> after[i].data == data
  }

  /** The exported `socketService` object. */
  class WebSocketService {
    /** `this.socket`: the current browser socket, if any. */
    var socket: Option<SocketId>
    /** `this.listeners`. */
    var listeners: map<string, set<CallbackId>>
    /** `this.roomId`. */
    var roomId: Option<string>
    /** Every frame written with `socket.send`, in order. */
    var transmitted: seq<Json>
    /** Every socket on which `close()` was called, in order. */
    var closed: seq<SocketId>
    /** Every callback invocation made by `emit`, in order. */
    var calls: seq<Call>
    const deployment: Deployment

    constructor (d: Deployment)
      ensures deployment == d && socket == None && roomId == None && listeners == map[]
      ensures transmitted == [] && closed == [] && calls == []
    {
      deployment := d;
      socket, roomId, listeners := None, None, map[];
      transmitted, closed, calls := [], [], [];
    }

    /**
     * `connect(id)`: remember the upper-cased id, close the previous socket and open
     * `newSocket` on the room's URL, which is returned.
     */
    method Connect(id: string, newSocket: SocketId) returns (url: string)
      modifies this`roomId, this`socket, this`closed
      ensures roomId == Some(ToUpper(id)) && socket == Some(newSocket)
      ensures url == RoomSocketUrl(deployment, ToUpper(id))
      ensures closed == old(closed) + (if old(socket).Some? then [old(socket).value] else [])
    {
      roomId := Some(ToUpper(id));
      if socket.Some? {
        closed := closed + [socket.value];
      }
      url := RoomSocketUrl(deployment, roomId.value);
      socket := Some(newSocket);
    }

    /** The socket's `onopen` handler. */
    method OnSocketOpen()
      modifies this`calls
      ensures Invoked(old(calls), calls, ListenersOf(listeners, "connection"), Some(ConnectionStatus("connected", roomId)))
    {
      Emit("connection", Some(ConnectionStatus("connected", roomId)));
    }

    /** The socket's `onclose` handler; `reconnect` says whether a new `connect` is scheduled. */
    method OnSocketClose() returns (reconnect: bool)
      modifies this`calls
      ensures Invoked(old(calls), calls, ListenersOf(listeners, "connection"), Some(ConnectionStatus("disconnected", roomId)))
      ensures reconnect == SchedulesReconnect(roomId)
    {
      Emit("connection", Some(ConnectionStatus("disconnected", roomId)));
      reconnect := roomId.Some? && roomId.value != "";
    }

    /** The socket's `onerror` handler, with the browser's error event as `error`. */
    method OnSocketError(error: Json)
      modifies this`calls
      ensures Invoked(old(calls), calls, ListenersOf(listeners, "error"),
                      Some(JObj(map["error" := error, "roomId" := if roomId.Some? then JStr(roomId.value) else JNull])))
    {
      Emit("error", Some(JObj(map["error" := error, "roomId" := if roomId.Some? then JStr(roomId.value) else JNull])));
    }

    /** The socket's `onmessage` handler, given the result of `JSON.parse` (`None` when it throws). */
    method OnSocketMessage(parsed: Option<Json>)
      modifies this`calls
      ensures Dispatch(parsed).None? ==> calls == old(calls)
      ensures Dispatch(parsed).Some? ==>
                Invoked(old(calls), calls, ListenersOf(listeners, Dispatch(parsed).value.0), Dispatch(parsed).value.1)
    {
      var d := Dispatch(parsed);
      if d.Some? {
        Emit(d.value.0, d.value.1);
      }
    }

    /** `disconnect()`: close and forget the socket and the room id. */
    method Disconnect()
      modifies this`socket, this`roomId, this`closed
      ensures socket == None && roomId == None && !SchedulesReconnect(roomId)
      ensures closed == old(closed) + (if old(socket).Some? then [old(socket).value] else [])
    {
      if socket.Some? {
        closed := closed + [socket.value];
        socket := None;
      }
      roomId := None;
    }

    /** `on(event, callback)`. */
    method On(event: string, cb: CallbackId)
      modifies this`listeners
      ensures listeners == Register(old(listeners), event, cb)
    {
      if event !in listeners {
        listeners := listeners[event := {}];
      }
      listeners := listeners[event := listeners[event] + {cb}];
    }

    /** `off(event, callback)`. */
    method Off(event: string, cb: CallbackId)
      modifies this`listeners
      ensures listeners == Unregister(old(listeners), event, cb)
    {
      if event in listeners {
        listeners := listeners[event := listeners[event] - {cb}];
      }
    }

    /** `emit(event, data)`: every callback registered for `event` is called once with `data`. */
    method Emit(event: string, data: Option<Json>)
      modifies this`calls
      ensures Invoked(old(calls), calls, ListenersOf(listeners, event), data)
    {
      if event !in listeners {
        return;
      }
      var order := Enumerate(listeners[event]);
      var i := 0;
      while i < |order|
        invariant 0 <= i <= |order|
        invariant calls == old(calls) + seq(i, j requires 0 <= j < i => Call(order[j], data))
      {
        calls := calls + [Call(order[i], data)];
        i := i + 1;
      }
      CallsCover(old(calls), order, data);
    }

    /** `send(type, payload)`: written only when the socket exists and its readyState is OPEN. */
    method Send(kind: string, payload: Option<Json>, isOpen: bool)
      modifies this`transmitted
      ensures transmitted == AfterSend(old(transmitted), socket.Some? && isOpen, kind, payload)
    {
      if socket.Some? && isOpen {
        transmitted := transmitted + [OutgoingFrame(kind, payload)];
      }
    }
  }

  /** Calling each callback of a duplicate-free enumeration once is an `Invoked` step. */
  lemma CallsCover(before: seq<Call>, order: seq<CallbackId>, data: Option<Json>)
    requires Distinct(order)
    ensures Invoked(before, before + seq(|order|, j requires 0 <= j < |order| => Call(order[j], data)),
                    Elements(order), data)
  {
    var added := seq(|order|, j requires 0 <= j < |order| => Call(order[j], data));
    var after := before + added;
    assert after[..|before|] == before;
    var cbs := set i | |before| <= i < |after| :: after[i].callback;
    forall c | c in cbs ensures c in Elements(order) {
      var i :| |before| <= i < |after| && after[i].callback == c;
      assert order[i - |before|] == c;
    }
    forall c | c in Elements(order) ensures c in cbs {
      var j :| 0 <= j < |order| && order[j] == c;
      assert after[|before| + j].callback == c;
    }
    DistinctCard(order);
  }
}
