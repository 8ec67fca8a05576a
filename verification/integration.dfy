/**
 * How the browser side and the room service fit together: the paths the browser requests
 * land on the server's routes with the intended parameters, the socket subscribes under the
 * room's id, server errors reach the caller as they were sent, and the browser's room-full
 * check agrees with the server's join guard.
 */
module Integration {
  import opened Wrappers
  import opened Text
  import opened Decimal
  import opened Config
  import opened RoomServer
  import opened Api
  import opened SocketService
  import opened GroupDiscussion

  /** A path whose segments are the route's fixed segments and then non-empty values matches with those values. */
  lemma MatchesWith(path: string, fixed: seq<string>, values: seq<string>)
    requires Split(path, '/') == fixed + values
    requires forall i :: 0 <= i < |values| ==> values[i] != ""
    ensures RouteParams(path, fixed, |values|) == Some(values)
  {
    var segs := Split(path, '/');
    assert segs[..|fixed|] == fixed && segs[|fixed|..] == values;
  }

  /** `getRoom` lands on `GET /api/rooms/:roomId` with the normalised id. */
  lemma GetRoomReachesRoute(roomId: Option<string>)
    requires OneSegment(roomId) && NormalizeRoomId(roomId) != ""
    ensures RouteParams(GetRoomPath(roomId), GetRoomRoute, 1) == Some([NormalizeRoomId(roomId)])
  {
    MatchesWith(GetRoomPath(roomId), GetRoomRoute, [NormalizeRoomId(roomId)]);
  }

  /** `joinRoom` lands on `POST /api/rooms/join/:roomId` with the normalised id. */
  lemma JoinRoomReachesRoute(roomId: Option<string>)
    requires OneSegment(roomId) && NormalizeRoomId(roomId) != ""
    ensures RouteParams(JoinRoomPath(roomId), JoinRoomRoute, 1) == Some([NormalizeRoomId(roomId)])
  {
    MatchesWith(JoinRoomPath(roomId), JoinRoomRoute, [NormalizeRoomId(roomId)]);
  }

  /**
   * `updateParticipant` lands on `PUT /api/rooms/participant/:roomId/:participantId` with the
   * normalised id and the decimal participant id, which `parseInt` reads back exactly.
   */
  lemma UpdateParticipantReachesRoute(roomId: Option<string>, participantId: int)
    requires OneSegment(roomId) && NormalizeRoomId(roomId) != ""
    ensures RouteParams(UpdateParticipantPath(roomId, participantId), UpdateParticipantRoute, 2) ==
              Some([NormalizeRoomId(roomId), IntToString(participantId)])
    ensures ParseInt(IntToString(participantId)) == Some(participantId)
  {
    assert |IntToString(participantId)| >= 1;
    MatchesWith(UpdateParticipantPath(roomId, participantId), UpdateParticipantRoute,
                [NormalizeRoomId(roomId), IntToString(participantId)]);
    ParseIntToString(participantId);
  }

  /**
   * An id typed in any letter case, for a room whose id the server generated from random
   * text, reaches the get route as exactly that generated id.
   */
  lemma TypedIdReachesGeneratedRoom(typed: string, randomText: string)
    requires '/' !in typed && randomText != ""
    requires ToUpper(typed) == ToUpper(randomText)
    ensures RouteParams(GetRoomPath(Some(typed)), GetRoomRoute, 1) == Some([ToUpper(randomText)])
  {
    NormalizeFindsGeneratedId(typed, randomText);
    GetRoomReachesRoute(Some(typed));
  }

  /** The socket `connect(id)` opens is subscribed by the server under the upper-cased id. */
  lemma SocketSubscribesUnderRoomId(d: Deployment, id: string)
    requires '/' !in id
    ensures LastSegment(RoomSocketUrl(d, ToUpper(id))) == ToUpper(id)
  {
    ToUpperKeepsNonLetter(id, '/');
    assert RoomSocketUrl(d, ToUpper(id)) == (WsBaseUrl(d) + "/ws/room") + "/" + ToUpper(id);
    LastSegmentOfPath(WsBaseUrl(d) + "/ws/room", ToUpper(id));
  }

  /**
   * Every error the room routes answer with ("Room not found", "Room is full", "Participant
   * not found", the 500) rejects the helper's promise with the server's message and status.
   */
  lemma ServerErrorsReachCaller(status: int, message: string, networkMessage: string, fallback: string)
    requires !IsOk(status) && message != "" && fallback != ""
    ensures FetchOutcome(Some(Response(status, Some(ErrorReply(status, message).body))), networkMessage, fallback) ==
              Rejected(ApiError(message, status))
  {
    assert Field(ErrorReply(status, message).body, "message") == Some(JStr(message));
  }

  /** The browser's room-full check on the room details agrees with the server's join guard. */
  lemma ClientFullCheckAgrees(room: Room)
    ensures DetailsRoomFull(RoomJson(room)) == Some(IsFull(room))
  {
    var j := RoomJson(room);
    assert Field(j, "participants").Some? && Field(j, "participants").value.JArr?;
    assert |Field(j, "participants").value.items| == |room.participants|;
    assert Field(j, "maxParticipants") == NumField(room.maxParticipants);
  }

  /** The id `handleJoinRoom` computes is already what the request helpers normalise it to. */
  lemma JoinTargetIsNormalized(input: string)
    requires JoinTarget(input).Some?
    ensures NormalizeRoomId(Some(JoinTarget(input).value)) == JoinTarget(input).value
  {
    ToUpperFixesUpperCase(JoinTarget(input).value);
  }
}
