# FlyPrep group-discussion rooms, modelled in Dafny

FlyPrep is a web application for practising interviews and group discussions. This
project models its room service and the browser code that talks to it:

- **The room service** (`backend/server.js`). It keeps two in-memory registries:
  `rooms` (room id to room) and `connections` (room id to the sockets subscribed to it).
  It serves four HTTP routes: create, get, join, and update a participant. It also
  handles three socket events: open subscribes the socket to the room named by the last
  URL segment, a message is relayed to the other open sockets of that room, and close
  unsubscribes. This is the class `RoomServer.Server`. Every socket send is appended to
  an `outbox`.
- **The socket client** (`frontend/src/services/socket.js`). It has a registry of event
  listeners (`on`, `off`, `emit`), guards sends, and builds the room URL and dispatches
  incoming frames in `connect`. This is the class `SocketService.WebSocketService`. Every
  callback invocation is appended to `calls`, and every frame written to the socket to
  `transmitted`.
- **The request helpers** (`frontend/src/services/api.js`). Module `Api` holds room-id
  normalisation, the request paths, and the classification of a response into a value,
  an `ApiError` or another rejection.
- **The group-discussion page** (`frontend/src/components/GroupDiscussion.jsx`). Module
  `GroupDiscussion` holds:
  - the clock text;
  - the participant-list updaters run on `room_state`, `participant_joined` and
    `participant_left` frames;
  - the preparation-then-discussion countdown;
  - the room-size buttons;
  - the id clean-up and room-full check made before joining.

  The class `RoomView` holds the page state these change.
- **The AI interview wizard** (`frontend/src/components/AIInterview.jsx`): the class
  `AiInterview.InterviewWizard`.
- **The chat panel** (`frontend/src/components/Chat.jsx`): the class `Chat.ChatPanel`.

Supporting modules:
- `Wrappers`: `Option` and a JSON value type.
- `Text`: the string built-ins as the code uses them.
- `Decimal`: `toString` and `parseInt` on integers.
- `Iteration`: visiting a set's elements once each in some order.
- `Config`: the two backend addresses.

Module `Integration` proves how the pieces fit together:
- The browser's request paths land on the server's routes with the intended parameters.
- The socket subscribes under the room's own id.
- Server errors reach the caller unchanged.
- The browser's room-full check agrees with the server's join guard.

Inputs outside the code are parameters of the operations:
- random text for room ids, and the clock (`Date.now()`, ISO dates);
- which sockets are OPEN, and whether `WebSocket` resolves as a global in the server;
- what the interview service and `fetch` resolve with.

Ticks of intervals and the firing of timeouts are explicit method calls.

## Model

| member | source | states |
|---|---|---|
| RoomServer.Server.constructor | backend/server.js:101 | both registries start empty and the service invariant holds |
| RoomServer.Server.Create | backend/server.js:104-133 | the room under the upper-cased random id is set, with the given settings and exactly the creator as participant, and the reply carries that id and participant; connections and sends are untouched; the invariant is kept |
| RoomServer.CreatorRecord | backend/server.js:110-115 | the creator has exactly the keys id, name, isLocal, joinedAt and no isAdmin; the name is the given truthy name or "Room Creator"; the id is the creation time |
| RoomServer.Server.GetRoom | backend/server.js:135-149 | an id present verbatim answers 200 with the room's JSON; any other id answers 404 "Room not found"; nothing changes |
| RoomServer.RoomJson | backend/server.js:144 | the room's JSON carries its id, creation time, the participants in order, and the capacity, topic type, topic and duration, each absent exactly when the room lacks it |
| RoomServer.IsFull | backend/server.js:161 | a room is full exactly when it has a numeric capacity and at least that many participants; a room with a capacity that is not full has room for one more |
| RoomServer.Server.Join | backend/server.js:151-183 | unknown id: 404 "Room not found", nothing changes; full room (length >= capacity): 400 "Room is full", nothing changes; otherwise exactly one participant is appended after the old ones, and with a capacity the new length is within it |
| RoomServer.JoinerRecord | backend/server.js:165-170 | only name and isLocal come from the body (absent ones stay absent); id and joinedAt are the time |
| RoomServer.FindParticipant | backend/server.js:199-203 | the result is -1 exactly when no participant has the id, and otherwise the first index with that id |
| RoomServer.MergePatch | backend/server.js:206-209 | patched keys take the patch's values, every other key keeps its value, and no other key appears |
| RoomServer.Server.PatchParticipant | backend/server.js:205-209 | the participant at the index becomes its merge with the patch; every other participant and room is unchanged and the service invariant holds |
| RoomServer.ParticipantUpdatedFrame | backend/server.js:216-222 | the frame's type is `participant_updated` and its payload holds the numeric participant id and the updated participant |
| RoomServer.Server.UpdateParticipant | backend/server.js:186-233 | unknown room or participant: 404 with the message, nothing changes; otherwise only the found participant is replaced by its merge with the patch; with sockets subscribed, `participant_updated` goes once to each OPEN socket including the caller's, or, when `WebSocket` is not a global, the answer is 500 after the update |
| RoomServer.LastSegment | backend/server.js:19 | a URL without a slash is its own last segment |
| RoomServer.LastSegmentOfPath | backend/server.js:19-26 | a socket opened on `<prefix>/<id>` is subscribed under exactly `id` |
| RoomServer.RouteParams | backend/server.js:186 | a match yields one non-empty, slash-free value per parameter after the fixed segments; no match means no such values exist |
| RoomServer.Server.OnOpen | backend/server.js:18-26 | the socket is added to the set of its URL's last segment, which is created if absent; nothing else changes |
| RoomServer.Server.OnMessage | backend/server.js:29-48 | unparseable text sends nothing; a missing room sends only the error frame back to the sender; otherwise the parsed frame goes once to every other OPEN socket of the room, and every send stays inside the sender's room |
| RoomServer.Server.OnClose | backend/server.js:51-59 | the socket leaves its set, an emptied set is deleted, and `rooms` is untouched |
| RoomServer.Server.Fanout | backend/server.js:40-44 | the frame is sent exactly once to each OPEN socket of the set other than the excluded one, and to nobody else |
| Iteration.Enumerate | backend/server.js:40 | a `forEach` over a set visits every element exactly once |
| Decimal.ParseInt | backend/server.js:199 | the result is NaN exactly when no digit follows the optional whitespace and sign |
| Decimal.ParseIntToString | backend/server.js:199 | `parseInt` reads back every integer's decimal text |
| Decimal.IntToString | frontend/src/services/api.js:74 | the text of an integer is non-empty, starts with `-` exactly when the integer is negative, and is otherwise decimal digits without a leading zero whose value is the integer's magnitude |
| Decimal.NatToString | frontend/src/services/api.js:74 | the text of a number is non-empty decimal digits without a leading zero |
| Decimal.NatToStringValue | frontend/src/services/api.js:74 | the digits written for a number read back as that number |
| SocketService.WebSocketService.constructor | frontend/src/services/socket.js:4-8 | no socket, no room id, no listeners |
| SocketService.WebSocketService.Connect | frontend/src/services/socket.js:10-24 | the room id becomes the upper-cased id, any previous socket is closed, and the new socket opens on `<WS base>/ws/room/<upper-cased id>` |
| SocketService.WebSocketService.OnSocketOpen | frontend/src/services/socket.js:26-29 | every `connection` listener is called once with the connected status |
| SocketService.WebSocketService.OnSocketMessage | frontend/src/services/socket.js:31-39 | a frame with a string type calls each listener of that type once with its payload; malformed text or a typeless frame calls nobody |
| SocketService.Dispatch | frontend/src/services/socket.js:31-39 | a frame is dispatched exactly when it parsed and has a string type |
| SocketService.DispatchOutgoing | frontend/src/services/socket.js:35 | a frame written by `send` and relayed verbatim reaches the listeners of its type with its payload |
| SocketService.RoomSocketUrl | frontend/src/services/socket.js:21 | for an id without `/`, the last `/`-separated piece of the socket URL is the id |
| SocketService.SchedulesReconnect | frontend/src/services/socket.js:45 | a reconnect is scheduled exactly when the stored room id is a truthy string |
| SocketService.WebSocketService.OnSocketClose | frontend/src/services/socket.js:41-49 | every `connection` listener hears the disconnect, and a reconnect is scheduled exactly when a room id is kept |
| SocketService.WebSocketService.OnSocketError | frontend/src/services/socket.js:51-54 | every `error` listener is called once with the error and the room id |
| SocketService.WebSocketService.Disconnect | frontend/src/services/socket.js:74-81 | the socket (if any) is closed, socket and room id are cleared, so a later close schedules no reconnect |
| SocketService.Register | frontend/src/services/socket.js:83-88 | the event's set gains the callback (created if needed) and every other event's set is unchanged |
| SocketService.RegisterIdempotent | frontend/src/services/socket.js:83-88 | registering a callback twice is registering it once |
| SocketService.WebSocketService.On | frontend/src/services/socket.js:83-88 | the listeners become the registration of the callback |
| SocketService.Unregister | frontend/src/services/socket.js:90-94 | only that callback leaves only that event's set; an unknown event changes nothing |
| SocketService.UnregisterUndoesRegister | frontend/src/services/socket.js:90-94 | `off` after `on` of a new callback restores every event's listeners |
| SocketService.WebSocketService.Off | frontend/src/services/socket.js:90-94 | the listeners become the removal of the callback |
| SocketService.WebSocketService.Emit | frontend/src/services/socket.js:96-100 | each callback registered for the event is called exactly once with the data, and no other callback is called |
| SocketService.CallsCover | frontend/src/services/socket.js:98 | calling each callback of a duplicate-free visit once calls exactly the set's callbacks |
| SocketService.OutgoingFrame | frontend/src/services/socket.js:105 | the frame's type and payload are the arguments (an undefined payload is dropped) |
| SocketService.AfterSend | frontend/src/services/socket.js:102-109 | one more frame is transmitted exactly when the socket exists and is OPEN |
| SocketService.WebSocketService.Send | frontend/src/services/socket.js:102-109 | `{type, payload}` is transmitted only when the socket exists and is OPEN, otherwise nothing is |
| Api.NormalizeRoomId | frontend/src/services/api.js:19-21 | a falsy id gives ""; otherwise the result is upper-case and equal to the id up to letter case |
| Api.NormalizeRoomIdIdempotent | frontend/src/services/api.js:19-21 | normalising twice is normalising once |
| Api.NormalizeFindsGeneratedId | frontend/src/services/api.js:58 | an id typed in any letter case normalises to the id the server generated |
| Api.JoinRoomPath | frontend/src/services/api.js:43 | for an id without `/`, the join path splits at `/` into `""`, `api`, `rooms`, `join` and the normalised id |
| Api.GetRoomPath | frontend/src/services/api.js:61 | for an id without `/`, the get path splits at `/` into `""`, `api`, `rooms` and the normalised id |
| Api.UpdateParticipantPath | frontend/src/services/api.js:74 | for an id without `/`, the update path splits at `/` into `""`, `api`, `rooms`, `participant`, the normalised id and the participant id's decimal text |
| Api.MessageOr | frontend/src/services/api.js:13 | the message is the truthy one given, else the fallback, so it is never empty |
| Api.HandleResponse | frontend/src/services/api.js:10-16 | a JSON body resolves exactly when the status is 2xx; otherwise it rejects with an `ApiError` holding the text of the body's truthy message (or "Something went wrong") and the same status, a text that is empty only for an array message; a non-JSON or null body rejects otherwise |
| Api.JsToString | frontend/src/services/api.js:3-6 | the text `Error` keeps: a string as it is, an integer as decimal text that `parseInt` reads back, a boolean as "true"/"false", an object as "[object Object]", and any other truthy non-array value as non-empty text |
| Api.FetchOutcome | frontend/src/services/api.js:23-36 | a failed `fetch` rejects with status 500 and its message text, or the helper's fallback when the message is empty, so the text is never empty; a settled one is exactly `handleResponse`'s outcome |
| Api.StatusPreserved | frontend/src/services/api.js:83-86 | an error response's status reaches the caller and is not replaced by 500 |
| GroupDiscussion.JsRem | frontend/src/components/GroupDiscussion.jsx:59 | `%` agrees with the mathematical remainder for non-negative counts and stays within (-60, 0] for negative ones |
| GroupDiscussion.PadTwo | frontend/src/components/GroupDiscussion.jsx:60 | the text is left-padded with zeros to length 2 and ends with the input |
| GroupDiscussion.FormatTime | frontend/src/components/GroupDiscussion.jsx:57-61 | for a non-negative count the text is decimal minutes, a colon and exactly two digits of seconds |
| GroupDiscussion.FormatTimeRoundTrip | frontend/src/components/GroupDiscussion.jsx:57-61 | for s >= 0 the text is minutes, ':', two digits of seconds below 60, and minutes*60+seconds == s |
| GroupDiscussion.Unseen | frontend/src/components/GroupDiscussion.jsx:279-281 | exactly the snapshot entries whose id no previous entry has are kept |
| GroupDiscussion.UnseenConcat | frontend/src/components/GroupDiscussion.jsx:279-281 | `filter` keeps order and duplicates: the newcomers of a concatenation are the newcomers of each part, in turn |
| GroupDiscussion.MergeRoomState | frontend/src/components/GroupDiscussion.jsx:278-283 | the previous list is a prefix; only snapshot entries with unseen ids are appended; every snapshot id is present afterwards |
| GroupDiscussion.MergeRoomStateIdempotent | frontend/src/components/GroupDiscussion.jsx:278-283 | applying a snapshot twice gives the same list as applying it once |
| GroupDiscussion.AddIfAbsent | frontend/src/components/GroupDiscussion.jsx:295-304 | the participant is appended exactly when no entry has its id; otherwise the list is unchanged |
| GroupDiscussion.AddIfAbsentIdempotent | frontend/src/components/GroupDiscussion.jsx:295-304 | a repeated join notice changes nothing |
| GroupDiscussion.RemoveById | frontend/src/components/GroupDiscussion.jsx:309-313 | no entry with the id remains, every other entry remains, nothing new appears |
| GroupDiscussion.RemoveByIdConcat | frontend/src/components/GroupDiscussion.jsx:309-313 | removal works piecewise over a concatenation, so the kept entries keep their order |
| GroupDiscussion.RemoveByIdAbsent | frontend/src/components/GroupDiscussion.jsx:309-313 | removing an id nobody has leaves the list unchanged |
| GroupDiscussion.JoinThenLeave | frontend/src/components/GroupDiscussion.jsx:293-314 | a join notice followed by a leave notice for the same participant leaves the list as the leave alone |
| GroupDiscussion.PrepStep | frontend/src/components/GroupDiscussion.jsx:385-411 | a preparation step never touches the discussion timer, lowers the preparation timer by at most one and only while preparing with time left, starts the discussion only from preparing at 0, and does nothing when not preparing |
| GroupDiscussion.DiscussionStep | frontend/src/components/GroupDiscussion.jsx:416-437 | a discussion step never touches preparation, lowers the timer by at most one and only while running with time left, never starts the discussion, and does nothing when stopped with time left |
| GroupDiscussion.PrepCountdown | frontend/src/components/GroupDiscussion.jsx:383-413 | preparing with n seconds left, n+1 steps end preparation at 0 with the discussion running |
| GroupDiscussion.DiscussionCountdown | frontend/src/components/GroupDiscussion.jsx:416-437 | a running discussion with n seconds left stops after n+1 steps at 0 |
| GroupDiscussion.DiscussionIdleWhilePreparing | frontend/src/components/GroupDiscussion.jsx:418-434 | while the discussion is not running and time is left, its effect changes nothing |
| GroupDiscussion.SessionRunsToEnd | frontend/src/components/GroupDiscussion.jsx:383-437 | a session started in preparation ends with both timers at 0 and nothing running |
| GroupDiscussion.SmallerRoom | frontend/src/components/GroupDiscussion.jsx:795 | "-" lowers the size by one but never below 2, and any size up to 2 becomes exactly 2 |
| GroupDiscussion.LargerRoom | frontend/src/components/GroupDiscussion.jsx:802 | "+" raises the size by one but never above 6, and any size from 6 up becomes exactly 6 |
| GroupDiscussion.PressesStayInRange | frontend/src/components/GroupDiscussion.jsx:795-802 | from any size in 2..6, including the initial 4, any run of presses stays in 2..6 |
| GroupDiscussion.JoinTarget | frontend/src/components/GroupDiscussion.jsx:463-464 | a blank input joins nothing; otherwise the id is non-empty, upper-case, and the trimmed input up to letter case |
| GroupDiscussion.DetailsRoomFull | frontend/src/components/GroupDiscussion.jsx:498-500 | the room counts as full exactly when a numeric capacity is present and the participant array is at least that long |
| GroupDiscussion.RoomView.SyncWaiting | frontend/src/components/GroupDiscussion.jsx:251-255 | on the preparation page (step 4) the view waits exactly while fewer participants than the capacity are listed; on any other page the flag is unchanged |
| GroupDiscussion.RoomView.constructor | frontend/src/components/GroupDiscussion.jsx:65-84 | the page is step 1, no participants, capacity 4, waiting, preparation 30 s, discussion 300 s, nothing running, not admin |
| GroupDiscussion.RoomView.HandleRoomState | frontend/src/components/GroupDiscussion.jsx:268-291 | a missing payload changes nothing; otherwise settings are taken from the snapshot, the list is merged, and waiting is `participants.length < maxParticipants` of the snapshot |
| GroupDiscussion.RoomView.HandleParticipantJoined | frontend/src/components/GroupDiscussion.jsx:293-305 | the list becomes the add-if-absent list; waiting is recomputed only when the participant was new |
| GroupDiscussion.RoomView.HandleParticipantLeft | frontend/src/components/GroupDiscussion.jsx:307-314 | the list loses the id's entries and waiting is recomputed |
| GroupDiscussion.RoomView.HandlePrepTimerUpdate | frontend/src/components/GroupDiscussion.jsx:316-322 | a non-admin view takes the announced time and starts preparing; an admin view ignores it |
| GroupDiscussion.RoomView.HandleDiscussionTimerUpdate | frontend/src/components/GroupDiscussion.jsx:324-328 | a non-admin view takes the announced time; an admin view ignores it |
| GroupDiscussion.RoomView.HandleDiscussionStart | frontend/src/components/GroupDiscussion.jsx:330-338 | preparation ends and the discussion runs |
| GroupDiscussion.RoomView.HandleDiscussionEnd | frontend/src/components/GroupDiscussion.jsx:340-343 | the discussion stops with the timer at 0 |
| GroupDiscussion.RoomView.StartWhenFull | frontend/src/components/GroupDiscussion.jsx:368-380 | an admin view of a full room sends `start_discussion`, starts preparing and stops waiting; otherwise nothing changes |
| GroupDiscussion.RoomView.PrepTick | frontend/src/components/GroupDiscussion.jsx:383-413 | the timers take one preparation step; an admin view announces the new time on a tick and the start time at 0 |
| GroupDiscussion.RoomView.DiscussionTick | frontend/src/components/GroupDiscussion.jsx:416-437 | the timers take one discussion step; an admin view announces the new time on a tick and `discussion_end` whenever the timer is at 0 |
| GroupDiscussion.RoomView.DecreaseSize | frontend/src/components/GroupDiscussion.jsx:795 | the size takes one "-" step |
| GroupDiscussion.RoomView.IncreaseSize | frontend/src/components/GroupDiscussion.jsx:802 | the size takes one "+" step |
| AiInterview.InterviewWizard.constructor | frontend/src/components/AIInterview.jsx:7-17 | upload step, nothing chosen, no questions, index 0 |
| AiInterview.InterviewWizard.HandleFileUpload | frontend/src/components/AIInterview.jsx:20-28 | a PDF becomes the resume and clears the error; anything else sets the error and keeps the resume |
| AiInterview.InterviewWizard.StartInterview | frontend/src/components/AIInterview.jsx:30-55 | without a resume: error, still step 1, nothing else changes (the loading flag keeps its value); a successful start: step 2 on the first generated question; any failure: error and still step 1; the questions change only when the start call reports success and the generation resolves; with a resume, loading ends false; the invariant is kept |
| AiInterview.FeedbackOf | frontend/src/components/AIInterview.jsx:71-75 | the feedback keeps score and suggestions and joins the strengths: none is empty, one is itself, and two or more are the join of all but the last, ", " and the last |
| Text.JoinSnoc | frontend/src/components/AIInterview.jsx:73 | joining two or more pieces is the join of all but the last, the separator and the last piece |
| AiInterview.InterviewWizard.SubmitAnswer | frontend/src/components/AIInterview.jsx:57-96 | a blank answer sets the error and analyses nothing; an analysed answer shows its feedback and schedules the advance; a failed analysis sets the error; loading ends false |
| AiInterview.AdvancedIndex | frontend/src/components/AIInterview.jsx:79-80 | the index grows by one exactly when the captured index was not the last |
| AiInterview.InterviewWizard.AdvanceAfterFeedback | frontend/src/components/AIInterview.jsx:78-90 | before the last question: next index, the captured list's next question, answer and feedback cleared; otherwise: the summary and step 3; with fresh captured values the index stays on the shown question |
| AiInterview.DoubleSubmitOverruns | frontend/src/components/AIInterview.jsx:78-90 | two pending advances from the second-to-last question leave the index one past the last question |
| AiInterview.IntendedIndex | frontend/src/components/AIInterview.jsx:79-81 | the intended advance moves to the question after the answered one |
| AiInterview.IntendedIndexStaysInRange | frontend/src/components/AIInterview.jsx:78-90 | with the intended advance, any number of pending advances keep the index on a question |
| AiInterview.InterviewWizard.HandleStartNewInterview | frontend/src/components/AIInterview.jsx:98-108 | every wizard field except the error and loading flag is back to its initial value, on step 1 |
| Chat.ChatMessage | frontend/src/components/Chat.jsx:38-45 | the message carries the id, sender id and name, the unmodified text, the time and the admin flag |
| Chat.ChatPanel.constructor | frontend/src/components/Chat.jsx:5-7 | no messages and an empty draft |
| Chat.ChatPanel.Mount | frontend/src/components/Chat.jsx:24 | the panel's callback listens for `chat_message` |
| Chat.ChatPanel.Unmount | frontend/src/components/Chat.jsx:26-28 | the panel's callback no longer listens for `chat_message` |
| Chat.ChatPanel.HandleChatMessage | frontend/src/components/Chat.jsx:20-22 | the payload is appended at the end; earlier messages are unchanged |
| Chat.ChatPanel.HandleSendMessage | frontend/src/components/Chat.jsx:35-54 | a blank draft sends and appends nothing; otherwise one `chat_message` frame is sent (if the socket is open), the same message is appended, and the draft is cleared |
| Text.ToUpper | backend/server.js:108 | upper-casing keeps the length and leaves no lower-case letter; each ASCII lower-case letter becomes its upper-case letter (code point minus 32) and every other character is kept |
| Text.Trim | frontend/src/components/GroupDiscussion.jsx:463 | the trimmed text is a slice of the text with only whitespace before and after it, and it neither starts nor ends with whitespace |
| Text.Split | backend/server.js:19 | `split` gives at least one piece and no piece holds the separator |
| Text.ToUpperFixesUpperCase | backend/server.js:108 | upper-casing leaves a string unchanged exactly when it has no lower-case letter |
| Text.ToUpperKeepsNonLetter | frontend/src/services/socket.js:12 | upper-casing neither adds nor removes a slash (or any non-letter) |
| Text.TrimEmptyIffBlank | frontend/src/components/Chat.jsx:37 | the trimmed text is empty exactly when the text is all whitespace |
| Text.SplitJoin | backend/server.js:19 | splitting a join of slash-free pieces gives back the pieces |
| Text.JoinSplit | backend/server.js:19 | joining the pieces of a split gives back the string |
| Integration.GetRoomReachesRoute | frontend/src/services/api.js:61 | `getRoom` matches `GET /api/rooms/:roomId` with the normalised id |
| Integration.JoinRoomReachesRoute | frontend/src/services/api.js:43 | `joinRoom` matches `POST /api/rooms/join/:roomId` with the normalised id |
| Integration.UpdateParticipantReachesRoute | frontend/src/services/api.js:74 | `updateParticipant` matches the update route with the normalised id and the decimal participant id, which `parseInt` reads back exactly |
| Integration.TypedIdReachesGeneratedRoom | frontend/src/services/api.js:58-61 | an id typed in any letter case reaches the get route as the id the server generated |
| Integration.SocketSubscribesUnderRoomId | frontend/src/services/socket.js:21 | the socket `connect(id)` opens is subscribed by the server under the upper-cased id |
| Integration.ServerErrorsReachCaller | frontend/src/services/api.js:13 | each error answer of the routes rejects the helper with the server's message and status |
| Integration.ClientFullCheckAgrees | frontend/src/components/GroupDiscussion.jsx:498-500 | the browser's full check on the room details is the server's join guard |
| Integration.JoinTargetIsNormalized | frontend/src/components/GroupDiscussion.jsx:463-464 | the id the page computes is already in the helpers' normalised form |

## Left out

- Email, CORS and server start-up: the bug-report and interview-scheduling mail routes and the header middleware are I/O outside the room service.
- Media capture and playback in the group-discussion page, and the camera-wait promises in `handleJoinRoom`, are browser device APIs.
- Real time: interval and timeout scheduling, the 5 s connect timeout, the 3 s reconnect and the 2 s delays. Each interval tick or timeout firing is a method call.
- Ordering: a JavaScript `Set` visits elements in insertion order. The model visits them in some order, once each.
- Randomness: room ids come from the caller as random text. No length or collision check is claimed, and none exists: `Create` overwrites an existing room with the same id.
- Participant ids: `Date.now()` values are passed in, so two joins in the same millisecond can share an id. The model claims no uniqueness.
- The invite-expiry timer, the connection-status display, the random topic choice, rendering, navigation and the remaining components are not part of this model.
- The mock interview service (`frontend/src/services/aiInterview.js`) is not part of this model. What its calls resolve with is a parameter.
- Express routing is reduced to matching segments. Percent-decoding, case-insensitive matching, trailing slashes and query strings are not modelled. `Integration` assumes the ids hold no `/`.
- Numbers are integers. Floating point, `NaN` produced by arithmetic, and non-numeric `maxParticipants` are not modelled. A missing capacity is `undefined`, and comparisons with it are false.
- Decimal.ParseInt: the `0x` prefix and other radix handling of `parseInt` are not modelled, because room-service ids are decimal.
- Text.ToUpper: only ASCII letters are upper-cased, and Unicode case mapping is not modelled.
- Whitespace is the ECMAScript set, by code point.
- JSON text is represented by its parsed value. Parsing is an `Option` parameter, and `JSON.stringify`/`JSON.parse` round trips are taken as the identity on these values.
- The server's `room_state` handling: nothing in the repository sends `room_state`, `participant_joined` or `participant_left` frames. The server only relays frames. The page's handlers are modelled on a typed payload with a numeric capacity and duration.
- GroupDiscussion.MergeRoomStateIdempotent: holds only for participants whose ids are JSON primitives. Decoded objects are never `===`, so object ids are appended again.
- GroupDiscussion.AddIfAbsentIdempotent and GroupDiscussion.JoinThenLeave: same restriction to primitive ids.
- Page transitions of the group-discussion page (`setStep` in the name, create and join handlers) are not modelled. `step` starts at 1 and is read only by `GroupDiscussion.RoomView.SyncWaiting`.
- The second pair of countdown effects (`frontend/src/components/GroupDiscussion.jsx:208-234`) is not modelled. It repeats the branches of the pair at 383-437 without sending frames. While both pairs run, each has its own interval, so the timers drop twice per second. The model takes one step per tick and claims no rate. The message flags (`showStartMessage`, `showPrepMessage`) are not modelled.
- AiInterview.InterviewWizard.AdvanceAfterFeedback: a generated question that is `null` makes the delayed callback throw after the index update. That case is not modelled.
- SocketService.WebSocketService.OnSocketError: the browser's error event is an opaque JSON value.
- Callbacks are identities. What a listener does when called is modelled by the page and panel methods, and re-entrant `emit` is not modelled.
- Chat.ChatPanel.HandleSendMessage: the message id and locale time are parameters.

## Findings

| source | as written | input that shows it | evidently intended | confidence | as-written member | corrected member |
|---|---|---|---|---|---|---|
| frontend/src/components/AIInterview.jsx:78-90 | the delayed advance compares and reads the question index captured when the answer was submitted, but increments the current index (`prev + 1`). The submit button is enabled again before the 2 s delay ends | three questions, answer to question 2 (index 1) submitted twice within 2 s: both advances see index 1, and the index ends at 3, past the last question ("Question 4 of 3") | advance to the question after the answered one, so the index always names a question | medium, not executed | AiInterview.DoubleSubmitOverruns | AiInterview.IntendedIndexStaysInRange |
