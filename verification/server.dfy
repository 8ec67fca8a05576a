/**
 * The in-memory room service of the backend: the `rooms` registry, the `connections`
 * registry of sockets per room, the four HTTP room routes and the three socket handlers.
 */
module RoomServer {
  import opened Wrappers
  import opened Text
  import opened Decimal
  import opened Iteration

  /** The identity of one server-side socket. */
  type ConnId = nat

  /** A room as stored in `rooms`; `None` fields were absent from the create request. */
  datatype Room = Room(
    id: string,
    maxParticipants: Option<int>,
    topicType: Option<Json>,
    topic: Option<Json>,
    duration: Option<Json>,
    participants: seq<Record>,
    createdAt: string)

  /** The body of `POST /api/rooms/create`. */
  datatype CreateRequest = CreateRequest(
    maxParticipants: Option<int>,
    topicType: Option<Json>,
    topic: Option<Json>,
    duration: Option<Json>,
    name: Option<Json>)

  /** An HTTP answer: status code and JSON body. */
  datatype Reply = Reply(status: int, body: Json)

  /** One `send` on a socket. */
  datatype Send = Send(to: ConnId, frame: Json)

  /** `res.status(status).json({ message })`. */
  function ErrorReply(status: int, message: string): Reply
  {
    Reply(status, JObj(map["message" := JStr(message)]))
  }

  /** The frame a socket gets when it talks about a room that does not exist. */
  const RoomNotFoundFrame: Json := JObj(map["type" := JStr("error"), "payload" := JStr("Room not found")])

  /** The join guard: the room is at or over its capacity. */
  predicate IsFull(room: Room): (full: bool)
    ensures full <==> room.maxParticipants.Some? && |room.participants| >= room.maxParticipants.value
    ensures !full && room.maxParticipants.Some? ==> |room.participants| + 1 <= room.maxParticipants.value
  {
    AtLeast(|room.participants|, room.maxParticipants)
  }

  /**
   * What the service keeps of the capacity bound. Create does not check `maxParticipants`,
   * so a room made with a capacity below one already holds its creator.
   */
  predicate WithinCapacity(room: Room)
  {
    room.maxParticipants.Some? ==> |room.participants| <= 1 || |room.participants| <= room.maxParticipants.value
  }

  /** The creator record built by the create route. */
  function CreatorRecord(name: Option<Json>, nowMs: int, nowIso: string): (p: Record)
    ensures p.Keys == {"id", "name", "isLocal", "joinedAt"}
    ensures "isAdmin" !in p && Truthy(p["name"])
    ensures name.Some? && Truthy(name.value) ==> p["name"] == name.value
    ensures !(name.Some? && Truthy(name.value)) ==> p["name"] == JStr("Room Creator")
    ensures p["id"] == JNum(nowMs) && p["isLocal"] == JBool(true)
  {
    var shown := if name.Some? && Truthy(name.value) then name.value else JStr("Room Creator");
    map["id" := JNum(nowMs), "name" := shown, "isLocal" := JBool(true), "joinedAt" := JStr(nowIso)]
  }

  /** The participant record built by the join route: only `name` and `isLocal` are taken from the body. */
  function JoinerRecord(name: Option<Json>, isLocal: Option<Json>, nowMs: int, nowIso: string): (p: Record)
    ensures Get(p, "name") == name && Get(p, "isLocal") == isLocal
    ensures "id" in p && p["id"] == JNum(nowMs)
    ensures "joinedAt" in p && p["joinedAt"] == JStr(nowIso)
    ensures p.Keys <= {"id", "name", "isLocal", "joinedAt"}
  {
    assert "id" != "name" && "id" != "isLocal" && "joinedAt" != "name" && "joinedAt" != "isLocal" && "name" != "isLocal";
    Put(Put(map["id" := JNum(nowMs), "joinedAt" := JStr(nowIso)], "name", name), "isLocal", isLocal)
  }

  /** `p.id === n` for a number `n` that may be NaN (`None`). */
  predicate HasId(p: Record, n: Option<int>)
  {
    n.Some? && Get(p, "id") == Some(JNum(n.value))
  }

  /** `participants.findIndex(p => p.id === n)`. */
  function FindParticipant(ps: seq<Record>, n: Option<int>): (k: int)
    ensures -1 <= k < |ps|
    ensures k >= 0 ==> HasId(ps[k], n) && forall j :: 0 <= j < k ==> !HasId(ps[j], n)
    ensures k == -1 ==> forall j :: 0 <= j < |ps| ==> !HasId(ps[j], n)
  {
    if ps == [] then -1
    else if HasId(ps[0], n) then 0
    else
      var k := FindParticipant(ps[1..], n);
      if k == -1 then -1 else k + 1
  }

  /** `{ ...p, ...patch }`: patched fields overwrite, every other field is kept. */
  function MergePatch(p: Record, patch: Record): (r: Record)
    ensures r.Keys == p.Keys + patch.Keys
    ensures forall k :: k in patch ==> r[k] == patch[k]
    ensures forall k :: k in p && k !in patch ==> r[k] == p[k]
  {
    p + patch
  }

  /** `url.split('/').pop()`: the text after the last slash. */
  function LastSegment(url: string): (seg: string)
    ensures '/' !in url ==> seg == url
  {
    var parts := Split(url, '/');
    assert '/' !in url ==> parts == [url] by {
      if '/' !in url { SplitNoSeparator(url, '/'); }
    }
    parts[|parts| - 1]
  }

  /** A socket opened on `<prefix>/<id>` is subscribed under exactly `id` when `id` has no slash. */
  lemma LastSegmentOfPath(prefix: string, id: string)
    requires '/' !in id
    ensures LastSegment(prefix + "/" + id) == id
  {
    assert prefix + "/" + id == prefix + ['/'] + id;
    SplitLastPiece(prefix, '/', id);
  }

  /**
   * The parameters of a route made of the literal segments `fixed` followed by `arity`
   * parameters, when `path` matches it: each parameter is one non-empty segment.
   */
  function RouteParams(path: string, fixed: seq<string>, arity: nat): (params: Option<seq<string>>)
    ensures params.Some? ==> |params.value| == arity && Split(path, '/') == fixed + params.value
    ensures params.Some? ==> forall i :: 0 <= i < arity ==> params.value[i] != "" && '/' !in params.value[i]
    ensures params.None? ==> forall ps: seq<string> :: |ps| == arity && (forall i :: 0 <= i < arity ==> ps[i] != "") ==>
              Split(path, '/') != fixed + ps
  {
    var segs := Split(path, '/');
    if |segs| == |fixed| + arity && segs[..|fixed|] == fixed && forall i :: |fixed| <= i < |segs| ==> segs[i] != "" then
      assert segs == fixed + segs[|fixed|..];
      Some(segs[|fixed|..])
    else None
  }

  /** The segments before the parameters of `GET /api/rooms/:roomId`. */
  const GetRoomRoute: seq<string> := ["", "api", "rooms"]
  /** The segments before the parameter of `POST /api/rooms/join/:roomId`. */
  const JoinRoomRoute: seq<string> := ["", "api", "rooms", "join"]
  /** The segments before the parameters of `PUT /api/rooms/participant/:roomId/:participantId`. */
  const UpdateParticipantRoute: seq<string> := ["", "api", "rooms", "participant"]

  /** The sockets a frame goes to: members of `conns` that are OPEN, except `exclude`. */
  function Targets(conns: set<ConnId>, exclude: Option<ConnId>, open: set<ConnId>): set<ConnId>
  {
    set c | c in conns && c in open && exclude != Some(c)
  }

  /** The sockets reached by a run of sends. */
  function Recipients(sent: seq<Send>): set<ConnId>
  {
    set i | 0 <= i < |sent| :: sent[i].to
  }

  /** `after` extends `before` with `frame` sent once to each of `targets`, in some order. */
  ghost predicate Broadcasted(before: seq<Send>, after: seq<Send>, targets: set<ConnId>, frame: Json)
  {
    |after| == |before| + |targets| && after[..|before|] == before &&
    Recipients(after[|before|..]) == targets &&
    forall i :: |before| <= i < |after| ==> after[i].frame == frame
  }

  /** A key other than the four optional ones survives the `Put`s of `RoomJson`. */
  lemma KeptThroughPuts(base: Record, room: Room, k: string)
    requires k !in {"maxParticipants", "topicType", "topic", "duration"}
    ensures var m1 := Put(base, "maxParticipants", NumField(room.maxParticipants));
            var m2 := Put(m1, "topicType", room.topicType);
            var m3 := Put(m2, "topic", room.topic);
            Get(Put(m3, "duration", room.duration), k) == Get(base, k)
  {
    var m1 := Put(base, "maxParticipants", NumField(room.maxParticipants));
    var m2 := Put(m1, "topicType", room.topicType);
    var m3 := Put(m2, "topic", room.topic);
    GetPut(m3, "duration", room.duration, k);
    GetPut(m2, "topic", room.topic, k);
    GetPut(m1, "topicType", room.topicType, k);
    GetPut(base, "maxParticipants", NumField(room.maxParticipants), k);
  }

  /** The JSON body of `GET /api/rooms/:roomId`. */
  function RoomJson(room: Room): (j: Json)
    ensures Field(j, "id") == Some(JStr(room.id)) && Field(j, "createdAt") == Some(JStr(room.createdAt))
    ensures Field(j, "participants").Some? && Field(j, "participants").value.JArr?
    ensures var items := Field(j, "participants").value.items;
            |items| == |room.participants| && forall i :: 0 <= i < |items| ==> items[i] == JObj(room.participants[i])
    ensures Field(j, "maxParticipants") == NumField(room.maxParticipants)
    ensures Field(j, "topicType") == room.topicType && Field(j, "topic") == room.topic
    ensures Field(j, "duration") == room.duration
  {
    var ps := room.participants;
    var items := seq(|ps|, i requires 0 <= i < |ps| => JObj(ps[i]));
    var base := map["id" := JStr(room.id), "participants" := JArr(items), "createdAt" := JStr(room.createdAt)];
    var m1 := Put(base, "maxParticipants", NumField(room.maxParticipants));
    var m2 := Put(m1, "topicType", room.topicType);
    var m3 := Put(m2, "topic", room.topic);
    var m4 := Put(m3, "duration", room.duration);
    assert Get(m4, "id") == Some(JStr(room.id)) by { KeptThroughPuts(base, room, "id"); }
    assert Get(m4, "createdAt") == Some(JStr(room.createdAt)) by { KeptThroughPuts(base, room, "createdAt"); }
    assert Get(m4, "participants") == Some(JArr(items)) by { KeptThroughPuts(base, room, "participants"); }
    assert Get(m4, "maxParticipants") == NumField(room.maxParticipants) by {
      GetPut(m3, "duration", room.duration, "maxParticipants");
      GetPut(m2, "topic", room.topic, "maxParticipants");
      GetPut(m1, "topicType", room.topicType, "maxParticipants");
    }
    assert Get(m4, "topicType") == room.topicType by {
      GetPut(m3, "duration", room.duration, "topicType");
      GetPut(m2, "topic", room.topic, "topicType");
    }
    assert Get(m4, "topic") == room.topic by { GetPut(m3, "duration", room.duration, "topic"); }
    JObj(m4)
  }

  /** The frame the participant-update route broadcasts. */
  function ParticipantUpdatedFrame(id: int, p: Record): (f: Json)
    ensures Field(f, "type") == Some(JStr("participant_updated"))
    ensures Field(f, "payload").Some? &&
            Field(Field(f, "payload").value, "participantId") == Some(JNum(id)) &&
            Field(Field(f, "payload").value, "participant") == Some(JObj(p))
  {
    JObj(map[
      "type" := JStr("participant_updated"),
      "payload" := JObj(map["participantId" := JNum(id), "participant" := JObj(p)])])
  }

  /** The module-level state of the server process. */
  class Server {
    /** `rooms`: room id to room. */
    var rooms: map<string, Room>
    /** `connections`: room id to the sockets subscribed to it. */
    var connections: map<string, set<ConnId>>
    /** The room id each live socket's handlers captured when it opened. */
    var roomOf: map<ConnId, string>
    /** Every frame sent on a socket, in order. */
    var outbox: seq<Send>

    /**
     * A socket is in exactly the set of the room it opened on, no connection set is empty,
     * and every room keeps to its capacity.
     */
    ghost predicate Valid()
      reads this`rooms, this`connections, this`roomOf
    {
      Subscribed() && RoomsWithinCapacity()
    }

    /** `connections` and the sockets' captured room ids agree, and no connection set is empty. */
    ghost predicate Subscribed()
      reads this`connections, this`roomOf
    {
      (forall ws :: ws in roomOf ==> roomOf[ws] in connections && ws in connections[roomOf[ws]]) &&
      (forall id, ws :: id in connections && ws in connections[id] ==> ws in roomOf && roomOf[ws] == id) &&
      (forall id :: id in connections ==> connections[id] != {})
    }

    ghost predicate RoomsWithinCapacity()
      reads this`rooms
    {
      forall id :: id in rooms ==> WithinCapacity(rooms[id])
    }

    constructor ()
      ensures Valid()
      ensures rooms == map[] && connections == map[] && roomOf == map[] && outbox == []
    {
      rooms, connections, roomOf, outbox := map[], map[], map[], [];
    }

    /** `POST /api/rooms/create`; `randomText` is the random base-36 text the id is cut from. */
    method Create(req: CreateRequest, randomText: string, nowMs: int, nowIso: string) returns (reply: Reply)
      requires Valid()
      modifies this`rooms
      ensures Valid()
      ensures var id := ToUpper(randomText);
              var p := CreatorRecord(req.name, nowMs, nowIso);
              && rooms == old(rooms)[id := Room(id, req.maxParticipants, req.topicType, req.topic, req.duration, [p], nowIso)]
              && reply == Reply(200, JObj(map["roomId" := JStr(id), "participant" := JObj(p)]))
      ensures connections == old(connections) && roomOf == old(roomOf) && outbox == old(outbox)
    {
      var roomId := ToUpper(randomText);
      var participant := CreatorRecord(req.name, nowMs, nowIso);
      var room := Room(roomId, req.maxParticipants, req.topicType, req.topic, req.duration, [participant], nowIso);
      rooms := rooms[roomId := room];
      reply := Reply(200, JObj(map["roomId" := JStr(roomId), "participant" := JObj(participant)]));
    }

    /** `GET /api/rooms/:roomId`: the id is looked up verbatim. */
    method GetRoom(roomId: string) returns (reply: Reply)
      ensures roomId in rooms ==> reply == Reply(200, RoomJson(rooms[roomId]))
      ensures roomId !in rooms ==> reply == ErrorReply(404, "Room not found")
    {
      if roomId !in rooms {
        return ErrorReply(404, "Room not found");
      }
      reply := Reply(200, RoomJson(rooms[roomId]));
    }

    /** `POST /api/rooms/join/:roomId` with body `{ name, isLocal }`. */
    method Join(roomId: string, name: Option<Json>, isLocal: Option<Json>, nowMs: int, nowIso: string)
      returns (reply: Reply)
      requires Valid()
      modifies this`rooms
      ensures Valid()
      ensures connections == old(connections) && roomOf == old(roomOf) && outbox == old(outbox)
      ensures roomId !in old(rooms) ==> reply == ErrorReply(404, "Room not found") && rooms == old(rooms)
      ensures roomId in old(rooms) && IsFull(old(rooms)[roomId]) ==>
                reply == ErrorReply(400, "Room is full") && rooms == old(rooms)
      ensures roomId in old(rooms) && !IsFull(old(rooms)[roomId]) ==>
                var room := old(rooms)[roomId];
                var p := JoinerRecord(name, isLocal, nowMs, nowIso);
                && rooms == old(rooms)[roomId := room.(participants := room.participants + [p])]
                && reply == Reply(200, JObj(map["participant" := JObj(p), "message" := JStr("Joined room successfully")]))
                && (room.maxParticipants.Some? ==> |rooms[roomId].participants| <= room.maxParticipants.value)
    {
      if roomId !in rooms {
        return ErrorReply(404, "Room not found");
      }
      var room := rooms[roomId];
      if IsFull(room) {
        return ErrorReply(400, "Room is full");
      }
      var participant := JoinerRecord(name, isLocal, nowMs, nowIso);
      room := room.(participants := room.participants + [participant]);
      rooms := rooms[roomId := room];
      reply := Reply(200, JObj(map["participant" := JObj(participant), "message" := JStr("Joined room successfully")]));
    }

    /**
     * `PUT /api/rooms/participant/:roomId/:participantId` with a patch body.
     * `open` is the set of sockets whose readyState is OPEN; `webSocketGlobal` says whether
     * the name `WebSocket` resolves at run time (the route reads `WebSocket.OPEN`, which it never imports).
     */
    method UpdateParticipant(roomId: string, participantId: string, patch: Record,
                             open: set<ConnId>, webSocketGlobal: bool)
      returns (reply: Reply)
      requires Valid()
      modifies this`rooms, this`outbox
      ensures Valid()
      ensures connections == old(connections) && roomOf == old(roomOf)
      ensures roomId !in old(rooms) ==>
                reply == ErrorReply(404, "Room not found") && rooms == old(rooms) && outbox == old(outbox)
      ensures roomId in old(rooms) && FindParticipant(old(rooms)[roomId].participants, ParseInt(participantId)) == -1 ==>
                reply == ErrorReply(404, "Participant not found") && rooms == old(rooms) && outbox == old(outbox)
      ensures roomId in old(rooms) && FindParticipant(old(rooms)[roomId].participants, ParseInt(participantId)) >= 0 ==>
                var room := old(rooms)[roomId];
                var k := FindParticipant(room.participants, ParseInt(participantId));
                var updated := MergePatch(room.participants[k], patch);
                && rooms == old(rooms)[roomId := room.(participants := room.participants[k := updated])]
                && (roomId in connections && !webSocketGlobal ==>
                      reply == ErrorReply(500, "Failed to update participant") && outbox == old(outbox))
                && (roomId !in connections ==>
                      reply == Reply(200, JObj(map["success" := JBool(true), "participant" := JObj(updated)]))
                      && outbox == old(outbox))
                && (roomId in connections && webSocketGlobal ==>
                      reply == Reply(200, JObj(map["success" := JBool(true), "participant" := JObj(updated)]))
                      && Broadcasted(old(outbox), outbox, Targets(connections[roomId], None, open),
                                     ParticipantUpdatedFrame(ParseInt(participantId).value, updated)))
    {
      if roomId !in rooms {
        return ErrorReply(404, "Room not found");
      }
      var room := rooms[roomId];
      var target := ParseInt(participantId);
      var k := FindParticipant(room.participants, target);
      if k == -1 {
        return ErrorReply(404, "Participant not found");
      }
      var updated := PatchParticipant(roomId, k, patch);
      if roomId in connections {
        if !webSocketGlobal {
          // evaluating `WebSocket.OPEN` for the first socket throws; the update above stays applied
          return ErrorReply(500, "Failed to update participant");
        }
        Fanout(connections[roomId], None, open, ParticipantUpdatedFrame(target.value, updated));
      }
      reply := Reply(200, JObj(map["success" := JBool(true), "participant" := JObj(updated)]));
    }

    /** Replaces participant `k` of room `roomId` by its merge with `patch`. */
    method PatchParticipant(roomId: string, k: int, patch: Record) returns (updated: Record)
      requires Valid() && roomId in rooms && 0 <= k < |rooms[roomId].participants|
      modifies this`rooms
      ensures Valid()
      ensures updated == MergePatch(old(rooms)[roomId].participants[k], patch)
      ensures rooms == old(rooms)[roomId := old(rooms)[roomId].(participants := old(rooms)[roomId].participants[k := updated])]
    {
      var room := rooms[roomId];
      updated := MergePatch(room.participants[k], patch);
      room := room.(participants := room.participants[k := updated]);
      assert WithinCapacity(room) by {
        assert |room.participants| == |rooms[roomId].participants|;
      }
      rooms := rooms[roomId := room];
    }

    /** The socket `connection` handler: subscribe `ws` to the last segment of its URL. */
    method OnOpen(ws: ConnId, url: string)
      requires Valid() && ws !in roomOf
      modifies this`connections, this`roomOf
      ensures Valid()
      ensures var id := LastSegment(url);
              && connections == old(connections)[id := (if id in old(connections) then old(connections)[id] else {}) + {ws}]
              && roomOf == old(roomOf)[ws := id]
      ensures rooms == old(rooms) && outbox == old(outbox)
    {
      var roomId := LastSegment(url);
      if roomId !in connections {
        connections := connections[roomId := {}];
      }
      connections := connections[roomId := connections[roomId] + {ws}];
      roomOf := roomOf[ws := roomId];
    }

    /**
     * The socket `message` handler: `parsed` is the result of `JSON.parse` (`None` when it throws).
     * A frame is relayed to the other OPEN sockets of the sender's room, never back to the sender.
     */
    method OnMessage(ws: ConnId, parsed: Option<Json>, open: set<ConnId>)
      requires Valid() && ws in roomOf
      modifies this`outbox
      ensures parsed.None? ==> outbox == old(outbox)
      ensures parsed.Some? && roomOf[ws] !in rooms ==> outbox == old(outbox) + [Send(ws, RoomNotFoundFrame)]
      ensures parsed.Some? && roomOf[ws] in rooms ==>
                Broadcasted(old(outbox), outbox, Targets(connections[roomOf[ws]], Some(ws), open), parsed.value)
      ensures forall i :: |old(outbox)| <= i < |outbox| ==>
                outbox[i].to in roomOf && roomOf[outbox[i].to] == roomOf[ws]
    {
      if parsed.None? {
        return;
      }
      var roomId := roomOf[ws];
      if roomId !in rooms {
        outbox := outbox + [Send(ws, RoomNotFoundFrame)];
        return;
      }
      Fanout(connections[roomId], Some(ws), open, parsed.value);
      forall i | |old(outbox)| <= i < |outbox|
        ensures outbox[i].to in roomOf && roomOf[outbox[i].to] == roomOf[ws]
      {
        var sent := outbox[|old(outbox)|..];
        assert sent[i - |old(outbox)|] == outbox[i];
        assert outbox[i].to in Recipients(sent);
        assert outbox[i].to in connections[roomId];
      }
    }

    /** The socket `close` handler: unsubscribe, dropping a connection set that became empty. */
    method OnClose(ws: ConnId)
      requires Valid() && ws in roomOf
      modifies this`connections, this`roomOf
      ensures Valid()
      ensures var id := old(roomOf)[ws];
              && roomOf == old(roomOf) - {ws}
              && connections == if old(connections)[id] == {ws} then old(connections) - {id}
                                else old(connections)[id := old(connections)[id] - {ws}]
      ensures rooms == old(rooms) && outbox == old(outbox)
    {
      var roomId := roomOf[ws];
      if roomId in connections {
        var rest := connections[roomId] - {ws};
        if rest == {} {
          connections := connections - {roomId};
        } else {
          connections := connections[roomId := rest];
        }
      }
      roomOf := roomOf - {ws};
    }

    /** `conns.forEach(c => { if (c !== exclude && c.readyState === OPEN) c.send(frame) })`. */
    method Fanout(conns: set<ConnId>, exclude: Option<ConnId>, open: set<ConnId>, frame: Json)
      modifies this`outbox
      ensures Broadcasted(old(outbox), outbox, Targets(conns, exclude, open), frame)
    {
      var order := Enumerate(conns);
      ghost var sent: seq<Send> := [];
      var i := 0;
      while i < |order|
        invariant 0 <= i <= |order|
        invariant outbox == old(outbox) + sent
        invariant SentTo(sent, Targets(Elements(order[..i]), exclude, open), frame)
      {
        var c := order[i];
        FanoutStep(order, i, exclude, open, sent, frame);
        if c in open && exclude != Some(c) {
          outbox := outbox + [Send(c, frame)];
          sent := sent + [Send(c, frame)];
        }
        i := i + 1;
      }
      assert order[..|order|] == order;
      BroadcastedAppend(old(outbox), sent, Targets(conns, exclude, open), frame);
    }
  }

  /** `sent` carries `frame` once to each of `targets`. */
  ghost predicate SentTo(sent: seq<Send>, targets: set<ConnId>, frame: Json)
  {
    Recipients(sent) == targets && |sent| == |targets| &&
    forall j :: 0 <= j < |sent| ==> sent[j].frame == frame
  }

  /** One iteration of the `forEach` keeps `SentTo` for the sockets visited so far. */
  lemma FanoutStep(order: seq<ConnId>, i: nat, exclude: Option<ConnId>, open: set<ConnId>,
                   sent: seq<Send>, frame: Json)
    requires i < |order| && Distinct(order)
    requires SentTo(sent, Targets(Elements(order[..i]), exclude, open), frame)
    ensures var c := order[i];
            SentTo(if c in open && exclude != Some(c) then sent + [Send(c, frame)] else sent,
                   Targets(Elements(order[..i + 1]), exclude, open), frame)
  {
    var c := order[i];
    var before := Targets(Elements(order[..i]), exclude, open);
    var after := Targets(Elements(order[..i + 1]), exclude, open);
    TargetsStep(order, i, exclude, open);
    if c in open && exclude != Some(c) {
      var next := sent + [Send(c, frame)];
      RecipientsAppend(sent, Send(c, frame));
      assert Recipients(next) == after;
      assert |after| == |before| + 1 by { assert after == before + {c} && c !in before; }
      assert forall j :: 0 <= j < |next| ==> next[j].frame == frame by {
        forall j | 0 <= j < |next| ensures next[j].frame == frame {
          if j < |sent| { assert next[j] == sent[j]; }
        }
      }
    } else {
      assert after == before;
    }
  }

  lemma BroadcastedAppend(before: seq<Send>, sent: seq<Send>, targets: set<ConnId>, frame: Json)
    requires SentTo(sent, targets, frame)
    ensures Broadcasted(before, before + sent, targets, frame)
  {
    assert (before + sent)[..|before|] == before && (before + sent)[|before|..] == sent;
  }

  /** One more step of a `forEach` over distinct sockets adds at most that socket to the targets. */
  lemma TargetsStep(order: seq<ConnId>, i: nat, exclude: Option<ConnId>, open: set<ConnId>)
    requires i < |order| && Distinct(order)
    ensures order[i] !in Targets(Elements(order[..i]), exclude, open)
    ensures Targets(Elements(order[..i + 1]), exclude, open) ==
            Targets(Elements(order[..i]), exclude, open) +
            (if order[i] in open && exclude != Some(order[i]) then {order[i]} else {})
  {
    assert order[..i + 1] == order[..i] + [order[i]];
    AppendElements(order[..i], order[i]);
  }

  lemma RecipientsAppend(sent: seq<Send>, s: Send)
    ensures Recipients(sent + [s]) == Recipients(sent) + {s.to}
  {
    forall c | c in Recipients(sent + [s]) ensures c in Recipients(sent) + {s.to} {
      var i :| 0 <= i < |sent| + 1 && (sent + [s])[i].to == c;
      if i < |sent| { assert sent[i].to == c; }
    }
    forall c | c in Recipients(sent) ensures c in Recipients(sent + [s]) {
      var i :| 0 <= i < |sent| && sent[i].to == c;
      assert (sent + [s])[i].to == c;
    }
    assert (sent + [s])[|sent|].to == s.to;
  }
}
