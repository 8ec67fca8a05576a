/**
 * The browser's HTTP helpers for the room service: room-id normalisation, the request
 * paths of the four helpers and the classification of a response into a value or an error.
 */
module Api {
  import opened Wrappers
  import opened Text
  import opened Decimal
  import opened Config

  /**
   * `normalizeRoomId(roomId)`: `''` for a missing or empty id, otherwise the id upper-cased.
   * The result is the one upper-case string equal to the id up to letter case.
   */
  function NormalizeRoomId(roomId: Option<string>): (r: string)
    ensures IsUpperCase(r)
    ensures r == "" <==> roomId.None? || roomId.value == ""
    ensures roomId.Some? ==> ToUpper(r) == ToUpper(roomId.value)
  {
    if roomId.None? || roomId.value == "" then "" else
      ToUpperIdempotent(roomId.value);
      ToUpper(roomId.value)
  }

  /** Normalising an id that is already normalised changes nothing. */
  lemma NormalizeRoomIdIdempotent(roomId: Option<string>)
    ensures NormalizeRoomId(Some(NormalizeRoomId(roomId))) == NormalizeRoomId(roomId)
  {
    var r := NormalizeRoomId(roomId);
    ToUpperFixesUpperCase(r);
  }

  /**
   * An id typed in any letter case is normalised to the id the server generated, which is
   * the upper-cased random text.
   */
  lemma NormalizeFindsGeneratedId(typed: string, randomText: string)
    requires randomText != ""
    requires ToUpper(typed) == ToUpper(randomText)
    ensures NormalizeRoomId(Some(typed)) == ToUpper(randomText)
  {
    assert |typed| == |randomText|;
  }

  /** The endpoint of `createRoom`: it carries no id. */
  const CreateRoomPath: string := "/api/rooms/create"

  /** The path `joinRoom` posts to: the join endpoint, then the normalised id as one more segment. */
  function JoinRoomPath(roomId: Option<string>): (r: string)
    ensures OneSegment(roomId) ==> Split(r, '/') == ["", "api", "rooms", "join", NormalizeRoomId(roomId)]
  {
    var id := NormalizeRoomId(roomId);
    var path := "/api/rooms/join" + "/" + id;
    assert OneSegment(roomId) ==> Split(path, '/') == ["", "api", "rooms", "join", id] by {
      if OneSegment(roomId) {
        NormalizedOneSegment(roomId);
        assert Join(["", "api", "rooms", "join"], "/") == "/api/rooms/join" by { UnfoldJoin4("", "api", "rooms", "join"); }
        AppendSegment(["", "api", "rooms", "join"], id);
      }
    }
    path
  }

  /** The path `getRoom` fetches: the rooms endpoint, then the normalised id as one more segment. */
  function GetRoomPath(roomId: Option<string>): (r: string)
    ensures OneSegment(roomId) ==> Split(r, '/') == ["", "api", "rooms", NormalizeRoomId(roomId)]
  {
    var id := NormalizeRoomId(roomId);
    var path := "/api/rooms" + "/" + id;
    assert OneSegment(roomId) ==> Split(path, '/') == ["", "api", "rooms", id] by {
      if OneSegment(roomId) {
        NormalizedOneSegment(roomId);
        assert Join(["", "api", "rooms"], "/") == "/api/rooms" by { UnfoldJoin3("", "api", "rooms"); }
        AppendSegment(["", "api", "rooms"], id);
      }
    }
    path
  }

  /**
   * The path `updateParticipant` puts to: the participant endpoint, then the normalised id
   * and the participant id written in decimal, each one segment.
   */
  function UpdateParticipantPath(roomId: Option<string>, participantId: int): (r: string)
    ensures OneSegment(roomId) ==>
              Split(r, '/') == ["", "api", "rooms", "participant", NormalizeRoomId(roomId), IntToString(participantId)]
  {
    var id := NormalizeRoomId(roomId);
    var pid := IntToString(participantId);
    var path := "/api/rooms/participant" + "/" + id + "/" + pid;
    assert OneSegment(roomId) ==> Split(path, '/') == ["", "api", "rooms", "participant", id, pid] by {
      if OneSegment(roomId) {
        NormalizedOneSegment(roomId);
        DecimalOneSegment(participantId);
        ParticipantSegments(id, pid);
      }
    }
    path
  }

  /** The decimal text of an integer holds no slash. */
  lemma DecimalOneSegment(i: int)
    ensures '/' !in IntToString(i)
  {
    var s := IntToString(i);
    forall k | 0 <= k < |s| ensures s[k] != '/' {
      if i < 0 && k > 0 { assert s[k] == s[1..][k - 1]; }
    }
  }

  /** The participant endpoint followed by two slash-free segments splits into six segments. */
  lemma ParticipantSegments(id: string, pid: string)
    requires '/' !in id && '/' !in pid
    ensures Split("/api/rooms/participant" + "/" + id + "/" + pid, '/') == ["", "api", "rooms", "participant", id, pid]
  {
    var fixed := ["", "api", "rooms", "participant"];
    assert Join(fixed, "/") == "/api/rooms/participant" by { UnfoldJoin4("", "api", "rooms", "participant"); }
    AppendTwoSegments(fixed, id, pid);
    assert fixed + [id, pid] == ["", "api", "rooms", "participant", id, pid];
  }

  /** Two slash-free segments after a joined path add exactly those two segments. */
  lemma AppendTwoSegments(fixed: seq<string>, a: string, b: string)
    requires |fixed| >= 1
    requires forall i :: 0 <= i < |fixed| ==> '/' !in fixed[i]
    requires '/' !in a && '/' !in b
    ensures Split(Join(fixed, "/") + "/" + a + "/" + b, '/') == fixed + [a, b]
  {
    AppendSegment(fixed, a);
    var withA := fixed + [a];
    assert forall i :: 0 <= i < |withA| ==> '/' !in withA[i] by {
      forall i | 0 <= i < |withA| ensures '/' !in withA[i] {
        if i < |fixed| { assert withA[i] == fixed[i]; }
      }
    }
    AppendSegment(withA, b);
    assert withA + [b] == fixed + [a, b];
  }

  /** The full request URL of a path. */
  function RequestUrl(d: Deployment, path: string): string
  {
    ApiBaseUrl(d) + path
  }

  /** A room id that is one path segment: it holds no slash. */
  predicate OneSegment(roomId: Option<string>)
  {
    roomId.None? || '/' !in roomId.value
  }

  /** The normalised id is one segment when the id is. */
  lemma NormalizedOneSegment(roomId: Option<string>)
    requires OneSegment(roomId)
    ensures '/' !in NormalizeRoomId(roomId)
  {
    if roomId.Some? && roomId.value != "" {
      ToUpperKeepsNonLetter(roomId.value, '/');
    }
  }

  /** Joining one more piece appends a separator and the piece. */
  lemma {:induction false} JoinAppend(parts: seq<string>, last: string)
    requires |parts| >= 1
    ensures Join(parts + [last], "/") == Join(parts, "/") + "/" + last
  {
    if |parts| > 1 {
      assert (parts + [last])[1..] == parts[1..] + [last];
      JoinAppend(parts[1..], last);
    }
  }

  lemma UnfoldJoin3(a: string, b: string, c: string)
    ensures Join([a, b, c], "/") == a + "/" + b + "/" + c
  {
    assert [a, b, c][1..] == [b, c];
    assert [b, c][1..] == [c];
    assert Join([b, c], "/") == b + "/" + c;
  }

  lemma UnfoldJoin4(a: string, b: string, c: string, d: string)
    ensures Join([a, b, c, d], "/") == a + "/" + b + "/" + c + "/" + d
  {
    assert [a, b, c, d][1..] == [b, c, d];
    UnfoldJoin3(b, c, d);
  }

  /** A slash and a slash-free segment after a joined path add exactly that segment. */
  lemma AppendSegment(fixed: seq<string>, last: string)
    requires |fixed| >= 1
    requires forall i :: 0 <= i < |fixed| ==> '/' !in fixed[i]
    requires '/' !in last
    ensures Join(fixed + [last], "/") == Join(fixed, "/") + "/" + last
    ensures Split(Join(fixed, "/") + "/" + last, '/') == fixed + [last]
  {
    JoinAppend(fixed, last);
    var parts := fixed + [last];
    assert forall i :: 0 <= i < |parts| ==> '/' !in parts[i] by {
      forall i | 0 <= i < |parts| ensures '/' !in parts[i] {
        if i < |fixed| { assert parts[i] == fixed[i]; }
      }
    }
    SplitJoin(parts, '/');
  }

  /** A settled `fetch`: the status and the body as `response.json()` parses it (`None`: not JSON). */
  datatype Response = Response(status: int, body: Option<Json>)

  /** An `ApiError`: the `message` text `Error` keeps, and the status. */
  datatype ApiError = ApiError(message: string, status: int)

  /**
   * `String(v)`, which `Error` applies to the message it is given: text stays as it is,
   * an integer is written in decimal, an array is its items joined with "," (null items
   * give ""), and any other object is "[object Object]".
   */
  function JsToString(v: Json): (s: string)
    ensures v.JStr? ==> s == v.s
    ensures v.JNum? ==> ParseInt(s) == Some(v.n)
    ensures v.JBool? ==> (s == "true" <==> v.b) && (s == "false" <==> !v.b)
    ensures v.JObj? ==> s == "[object Object]"
    ensures !v.JArr? && Truthy(v) ==> s != ""
  {
    match v
    case JNull => "null"
    case JBool(b) => if b then "true" else "false"
    case JNum(n) => ParseIntToString(n); IntToString(n)
    case JStr(t) => t
    case JArr(items) =>
      Join(seq(|items|, i requires 0 <= i < |items| => if items[i] == JNull then "" else JsToString(items[i])), ",")
    case JObj(_) => "[object Object]"
  }

  /** How a helper's promise settles. */
  datatype Outcome =
    | Resolved(data: Json)
    /** Rejected with an `ApiError`. */
    | Rejected(error: ApiError)
    /** Rejected with some other error: the body is not JSON, or it is `null` and `.message` throws. */
    | Failed

  /** `response.ok`. */
  predicate IsOk(status: int) { 200 <= status <= 299 }

  /** The message an `ApiError` is built from: `m || fallback`. */
  function MessageOr(m: Option<Json>, fallback: string): (r: Json)
    requires fallback != ""
    ensures Truthy(r)
    ensures m.Some? && Truthy(m.value) ==> r == m.value
    ensures !(m.Some? && Truthy(m.value)) ==> r == JStr(fallback)
  {
    if m.Some? && Truthy(m.value) then m.value else JStr(fallback)
  }

  /**
   * `handleResponse(response)`: an ok response resolves to its body; any other response
   * rejects with the body's truthy `message`, or "Something went wrong", and its own status.
   */
  function HandleResponse(resp: Response): (o: Outcome)
    ensures o.Resolved? <==> resp.body.Some? && IsOk(resp.status)
    ensures o.Resolved? ==> o.data == resp.body.value
    ensures o.Rejected? <==> resp.body.Some? && !IsOk(resp.status) && resp.body.value != JNull
    ensures o.Rejected? ==> o.error.status == resp.status
    ensures o.Rejected? && Field(resp.body.value, "message").Some? && Truthy(Field(resp.body.value, "message").value) ==>
              o.error.message == JsToString(Field(resp.body.value, "message").value)
    ensures o.Rejected? && !(Field(resp.body.value, "message").Some? && Truthy(Field(resp.body.value, "message").value)) ==>
              o.error.message == "Something went wrong"
    ensures o.Rejected? && !(Field(resp.body.value, "message").Some? && Field(resp.body.value, "message").value.JArr?) ==>
              o.error.message != ""
  {
    match resp.body
    case None => Failed
    case Some(data) =>
      if IsOk(resp.status) then Resolved(data)
      else if data == JNull then Failed
      else Rejected(ApiError(JsToString(MessageOr(Field(data, "message"), "Something went wrong")), resp.status))
  }

  /**
   * A helper's whole outcome. `settled` is `None` when `fetch` itself rejects with an error
   * whose message is `networkMessage`; that rejection is caught and turned into an `ApiError`
   * with status 500. The promise of `handleResponse` is returned without being awaited, so
   * what it rejects with passes the `catch` untouched.
   */
  function FetchOutcome(settled: Option<Response>, networkMessage: string, fallback: string): (o: Outcome)
    requires fallback != ""
    ensures settled.None? ==> o.Rejected? && o.error.status == 500 && o.error.message != ""
    ensures settled.None? && networkMessage != "" ==> o.error.message == networkMessage
    ensures settled.None? && networkMessage == "" ==> o.error.message == fallback
    ensures settled.Some? ==> o == HandleResponse(settled.value)
  {
    if settled.None? then
      Rejected(ApiError(JsToString(MessageOr(Some(JStr(networkMessage)), fallback)), 500))
    else HandleResponse(settled.value)
  }

  /** The fallback messages of `createRoom`, `joinRoom`, `getRoom` and `updateParticipant`. */
  const CreateRoomFallback: string := "Failed to create room"
  const JoinRoomFallback: string := "Failed to join room"
  const GetRoomFallback: string := "Failed to get room details"
  const UpdateParticipantFallback: string := "Failed to update participant"

  /** A server error status reaches the caller unchanged: only a failed `fetch` is reported as 500. */
  lemma StatusPreserved(resp: Response, networkMessage: string, fallback: string)
    requires fallback != ""
    requires resp.body.Some? && resp.body.value != JNull && !IsOk(resp.status)
    ensures FetchOutcome(Some(resp), networkMessage, fallback).Rejected?
    ensures FetchOutcome(Some(resp), networkMessage, fallback).error.status == resp.status
  {
  }
}
