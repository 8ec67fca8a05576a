/**
 * The group-discussion page: the clock text, the participant list kept in step with
 * socket events, the preparation-then-discussion countdown, the room-size buttons and
 * the checks made before joining a room.
 */
module GroupDiscussion {
  import opened Wrappers
  import opened Text
  import opened Decimal
  import SocketService

  // ---------------------------------------------------------------- clock text

  /** `a % b` in JavaScript for a positive `b`: the remainder takes the sign of `a`. */
  function JsRem(a: int, b: int): (r: int)
    requires b > 0
    ensures a >= 0 ==> r == a % b
    ensures a < 0 ==> -b < r <= 0
  {
    if a >= 0 then a % b else -((-a) % b)
  }

  /** `s.padStart(2, '0')`. */
  function PadTwo(s: string): (r: string)
    ensures |r| == if |s| < 2 then 2 else |s|
    ensures r[|r| - |s|..] == s
    ensures forall i :: 0 <= i < |r| - |s| ==> r[i] == '0'
  {
    if |s| == 0 then "00" else if |s| == 1 then "0" + s else s
  }

  /** `formatTime(seconds)`: whole minutes, a colon, and the remaining seconds padded to two digits. */
  function FormatTime(seconds: int): (r: string)
    ensures seconds >= 0 ==> ClockShaped(r)
  {
    var mins := IntToString(seconds / 60);
    var secs := PadTwo(IntToString(JsRem(seconds, 60)));
    assert seconds >= 0 ==> ClockShaped(mins + ":" + secs) by {
      if seconds >= 0 {
        var m := seconds % 60;
        assert JsRem(seconds, 60) == m;
        assert IntToString(m) == NatToString(m);
        PaddedValue(m);
        ClockShape(mins, secs);
      }
    }
    mins + ":" + secs
  }

  /** `m:ss` with decimal minutes and two digits of seconds. */
  predicate ClockShaped(r: string)
  {
    |r| >= 4 && r[|r| - 3] == ':' && AllDigits(r[..|r| - 3]) && AllDigits(r[|r| - 2..])
  }

  lemma ClockShape(mins: string, secs: string)
    requires |mins| >= 1 && AllDigits(mins) && |secs| == 2 && AllDigits(secs)
    ensures ClockShaped(mins + ":" + secs)
  {
    var r := mins + ":" + secs;
    assert r[..|r| - 3] == mins;
    assert r[|r| - 2..] == secs;
  }

  /** Reads `m:ss` back: decimal minutes, a colon, two digits of seconds below 60. */
  function ReadClock(t: string): (r: Option<int>)
    ensures r.Some? ==> r.value >= 0
  {
    var parts := Split(t, ':');
    if |parts| == 2 && parts[0] != "" && AllDigits(parts[0]) && |parts[1]| == 2 && AllDigits(parts[1])
       && DigitsValue(parts[1]) < 60
    then Some(DigitsValue(parts[0]) * 60 + DigitsValue(parts[1]))
    else None
  }

  /** Two padded digits read back as the number they were written from. */
  lemma PaddedValue(n: nat)
    requires n < 60
    ensures |PadTwo(NatToString(n))| == 2 && AllDigits(PadTwo(NatToString(n)))
    ensures DigitsValue(PadTwo(NatToString(n))) == n
  {
    NatToStringValue(n);
    var d := NatToString(n);
    var p := PadTwo(d);
    if n < 10 {
      assert p == ['0', d[0]];
      assert p[..1] == ['0'];
      assert DigitsValue(['0']) == 0 by { assert ['0'][..0] == []; }
    } else {
      assert |d| == 2 by { assert NatToString(n / 10) == [DigitChar(n / 10)]; }
    }
  }

  /**
   * For a non-negative count the text has a two-digit seconds field below 60, and reading
   * it back as minutes times sixty plus seconds gives the count.
   */
  lemma {:induction false} FormatTimeRoundTrip(seconds: int)
    requires seconds >= 0
    ensures ReadClock(FormatTime(seconds)) == Some(seconds)
  {
    var q, m := seconds / 60, seconds % 60;
    assert q * 60 + m == seconds;
    var mins := NatToString(q);
    var secs := PadTwo(NatToString(m));
    assert IntToString(q) == mins;
    assert JsRem(seconds, 60) == m;
    assert IntToString(m) == NatToString(m);
    PaddedValue(m);
    NatToStringValue(q);
    assert FormatTime(seconds) == mins + ":" + secs;
    ReadClockOf(mins, secs);
  }

  /** Reading a minutes field and a two-digit seconds field joined by a colon. */
  lemma ReadClockOf(mins: string, secs: string)
    requires mins != "" && AllDigits(mins)
    requires |secs| == 2 && AllDigits(secs) && DigitsValue(secs) < 60
    ensures ReadClock(mins + [':'] + secs) == Some(DigitsValue(mins) * 60 + DigitsValue(secs))
  {
    assert ':' !in mins by { assert forall i :: 0 <= i < |mins| ==> IsDigit(mins[i]); }
    assert ':' !in secs by { assert forall i :: 0 <= i < |secs| ==> IsDigit(secs[i]); }
    SplitConcat(mins, ':', secs);
    SplitNoSeparator(mins, ':');
    SplitNoSeparator(secs, ':');
  }

  // ---------------------------------------------------------------- participant list

  /** `p.id`. */
  function IdOf(p: Record): Option<Json>
  {
    Get(p, "id")
  }

  /** `a === b` on field values that may be `undefined`; two decoded arrays or objects are never identical. */
  predicate StrictEquals(a: Option<Json>, b: Option<Json>)
  {
    (a.None? && b.None?) || (a.Some? && b.Some? && a.value == b.value && !a.value.JArr? && !a.value.JObj?)
  }

  /** The participant's id is a JSON primitive (or missing), so `===` compares it by value. */
  predicate HasPrimitiveId(p: Record)
  {
    IdOf(p).None? || (!IdOf(p).value.JArr? && !IdOf(p).value.JObj?)
  }

  /** `ps.some(e => e.id === id)`. */
  predicate Present(ps: seq<Record>, id: Option<Json>)
  {
    exists i :: 0 <= i < |ps| && StrictEquals(IdOf(ps[i]), id)
  }

  /** `snapshot.filter(p => !prev.some(e => e.id === p.id))`. */
  function Unseen(prev: seq<Record>, snapshot: seq<Record>): (r: seq<Record>)
    ensures |r| <= |snapshot|
    ensures forall i :: 0 <= i < |r| ==> r[i] in snapshot && !Present(prev, IdOf(r[i]))
    ensures forall p :: p in snapshot && !Present(prev, IdOf(p)) ==> p in r
  {
    if snapshot == [] then []
    else
      var rest := Unseen(prev, snapshot[1..]);
      assert forall p :: p in snapshot && p != snapshot[0] ==> p in snapshot[1..];
      if Present(prev, IdOf(snapshot[0])) then rest else [snapshot[0]] + rest
  }

  /** The list after a `room_state` frame: the previous list, then the snapshot's newcomers. */
  function MergeRoomState(prev: seq<Record>, snapshot: seq<Record>): (r: seq<Record>)
    ensures |prev| <= |r| <= |prev| + |snapshot| && r[..|prev|] == prev
    ensures forall i :: |prev| <= i < |r| ==> r[i] in snapshot && !Present(prev, IdOf(r[i]))
    ensures forall p :: p in snapshot && !Present(prev, IdOf(p)) ==> p in r[|prev|..]
    ensures forall p :: p in snapshot && HasPrimitiveId(p) ==> Present(r, IdOf(p))
  {
    var r := prev + Unseen(prev, snapshot);
    assert r[|prev|..] == Unseen(prev, snapshot);
    assert forall p :: p in snapshot && HasPrimitiveId(p) ==> Present(r, IdOf(p)) by {
      forall p | p in snapshot && HasPrimitiveId(p) ensures Present(r, IdOf(p)) {
        if Present(prev, IdOf(p)) {
          var i :| 0 <= i < |prev| && StrictEquals(IdOf(prev[i]), IdOf(p));
          assert r[i] == prev[i];
        } else {
          var j :| 0 <= j < |r[|prev|..]| && r[|prev|..][j] == p;
          assert r[|prev| + j] == p;
          assert StrictEquals(IdOf(r[|prev| + j]), IdOf(p));
        }
      }
    }
    r
  }

  /** A single entry is kept exactly when no previous entry has its id. */
  lemma UnseenSingleton(prev: seq<Record>, p: Record)
    ensures Unseen(prev, [p]) == if Present(prev, IdOf(p)) then [] else [p]
  {
    assert [p][1..] == [];
  }

  /** One step of `filter`: the verdict on the first entry, then the rest. */
  lemma UnseenCons(prev: seq<Record>, s: seq<Record>)
    requires s != []
    ensures Unseen(prev, s) == Unseen(prev, [s[0]]) + Unseen(prev, s[1..])
  {
    UnseenSingleton(prev, s[0]);
  }

  /** The inductive step of `UnseenConcat`: from the tail of `a` to the whole of `a`. */
  lemma UnseenConcatStep(prev: seq<Record>, a: seq<Record>, b: seq<Record>)
    requires a != []
    requires Unseen(prev, a[1..] + b) == Unseen(prev, a[1..]) + Unseen(prev, b)
    ensures Unseen(prev, a + b) == Unseen(prev, a) + Unseen(prev, b)
  {
    UnseenConsConcat(prev, a, b);
    UnseenCons(prev, a);
    Regroup(Unseen(prev, a + b), Unseen(prev, a), Unseen(prev, [a[0]]),
            Unseen(prev, a[1..] + b), Unseen(prev, a[1..]), Unseen(prev, b));
  }

  /** `x + (u + v) == (x + u) + v`, stated on names so that no other fact takes part. */
  lemma Regroup<T>(whole: seq<T>, left: seq<T>, x: seq<T>, tail: seq<T>, u: seq<T>, v: seq<T>)
    requires whole == x + tail && tail == u + v && left == x + u
    ensures whole == left + v
  {
  }

  /** One step of `filter` over a concatenation whose first part is not empty. */
  lemma UnseenConsConcat(prev: seq<Record>, a: seq<Record>, b: seq<Record>)
    requires a != []
    ensures Unseen(prev, a + b) == Unseen(prev, [a[0]]) + Unseen(prev, a[1..] + b)
  {
    var ab := a + b;
    assert ab[0] == a[0] && ab[1..] == a[1..] + b;
    UnseenCons(prev, ab);
  }

  /**
   * `filter` keeps order and duplicates: the newcomers of a concatenation are the newcomers
   * of each part in turn.
   */
  lemma {:induction false} UnseenConcat(prev: seq<Record>, a: seq<Record>, b: seq<Record>)
    ensures Unseen(prev, a + b) == Unseen(prev, a) + Unseen(prev, b)
  {
    if a == [] {
      assert a + b == b;
      assert Unseen(prev, a) == [];
    } else {
      UnseenConcat(prev, a[1..], b);
      UnseenConcatStep(prev, a, b);
    }
  }

  /** When every participant of the snapshot is already listed, nothing is new. */
  lemma UnseenOfListed(prev: seq<Record>, snapshot: seq<Record>)
    requires forall p :: p in snapshot ==> Present(prev, IdOf(p))
    ensures Unseen(prev, snapshot) == []
  {
  }

  /** Applying the same snapshot twice leaves the list as applying it once, when its ids are primitives. */
  lemma MergeRoomStateIdempotent(prev: seq<Record>, snapshot: seq<Record>)
    requires forall p :: p in snapshot ==> HasPrimitiveId(p)
    ensures MergeRoomState(MergeRoomState(prev, snapshot), snapshot) == MergeRoomState(prev, snapshot)
  {
    var once := MergeRoomState(prev, snapshot);
    UnseenOfListed(once, snapshot);
  }

  /** The updater of `participant_joined`: append `p` unless an entry already has its id. */
  function AddIfAbsent(prev: seq<Record>, p: Record): (r: seq<Record>)
    ensures |prev| <= |r| <= |prev| + 1 && r[..|prev|] == prev
    ensures |r| == |prev| + 1 <==> !Present(prev, IdOf(p))
    ensures |r| == |prev| + 1 ==> r[|prev|] == p
    ensures HasPrimitiveId(p) ==> Present(r, IdOf(p))
  {
    if Present(prev, IdOf(p)) then prev
    else
      assert StrictEquals(IdOf((prev + [p])[|prev|]), IdOf(p)) <== HasPrimitiveId(p);
      prev + [p]
  }

  /** A second `participant_joined` for the same participant changes nothing. */
  lemma AddIfAbsentIdempotent(prev: seq<Record>, p: Record)
    requires HasPrimitiveId(p)
    ensures AddIfAbsent(AddIfAbsent(prev, p), p) == AddIfAbsent(prev, p)
  {
  }

  /** The updater of `participant_left`: `prev.filter(e => e.id !== id)`. */
  function RemoveById(prev: seq<Record>, id: Option<Json>): (r: seq<Record>)
    ensures |r| <= |prev|
    ensures forall i :: 0 <= i < |r| ==> r[i] in prev && !StrictEquals(IdOf(r[i]), id)
    ensures forall e :: e in prev && !StrictEquals(IdOf(e), id) ==> e in r
  {
    if prev == [] then []
    else
      var rest := RemoveById(prev[1..], id);
      assert forall e :: e in prev && e != prev[0] ==> e in prev[1..];
      if StrictEquals(IdOf(prev[0]), id) then rest else [prev[0]] + rest
  }

  /** Removal works piecewise, so the entries that stay keep their order. */
  lemma {:induction false} RemoveByIdConcat(a: seq<Record>, b: seq<Record>, id: Option<Json>)
    ensures RemoveById(a + b, id) == RemoveById(a, id) + RemoveById(b, id)
  {
    if a != [] {
      var ab := a + b;
      var head := if StrictEquals(IdOf(a[0]), id) then [] else [a[0]];
      assert ab != [] && ab[0] == a[0] && ab[1..] == a[1..] + b;
      RemoveByIdConcat(a[1..], b, id);
      assert RemoveById(ab, id) == head + RemoveById(a[1..] + b, id);
      assert RemoveById(a, id) == head + RemoveById(a[1..], id);
    } else {
      assert a + b == b;
    }
  }

  /** Removing an id nobody has leaves the list as it was. */
  lemma {:induction false} RemoveByIdAbsent(prev: seq<Record>, id: Option<Json>)
    requires !Present(prev, id)
    ensures RemoveById(prev, id) == prev
  {
    if prev != [] {
      assert !StrictEquals(IdOf(prev[0]), id);
      assert !Present(prev[1..], id) by {
        forall i | 0 <= i < |prev[1..]| ensures !StrictEquals(IdOf(prev[1..][i]), id) {
          assert prev[1..][i] == prev[i + 1];
        }
      }
      RemoveByIdAbsent(prev[1..], id);
      assert [prev[0]] + prev[1..] == prev;
    }
  }

  /** A participant who joins and then leaves is gone as if they had only left. */
  lemma JoinThenLeave(prev: seq<Record>, p: Record)
    requires HasPrimitiveId(p)
    ensures RemoveById(AddIfAbsent(prev, p), IdOf(p)) == RemoveById(prev, IdOf(p))
  {
    if !Present(prev, IdOf(p)) {
      RemoveByIdConcat(prev, [p], IdOf(p));
      assert [p][1..] == [];
    }
  }

  /** The `room_state` payload the view reads. */
  datatype RoomSnapshot = RoomSnapshot(
    maxParticipants: int,
    topicType: Option<Json>,
    topic: Option<Json>,
    duration: int,
    participants: seq<Record>)

  // ---------------------------------------------------------------- countdown

  /** The countdown part of the view. */
  datatype Clock = Clock(prepTimer: int, discussionTimer: int, isPreparing: bool, isTimerRunning: bool)

  /**
   * One step of the preparation effect: a tick of its interval while preparing time is
   * left, or the switch to the discussion once it reaches zero.
   */
  function PrepStep(c: Clock): (r: Clock)
    ensures r.discussionTimer == c.discussionTimer
    ensures c.prepTimer - 1 <= r.prepTimer <= c.prepTimer
    ensures r.prepTimer < c.prepTimer ==> c.isPreparing && r.isPreparing && c.prepTimer > 0
    ensures r.isTimerRunning != c.isTimerRunning ==> c.isPreparing && c.prepTimer == 0 && !r.isPreparing
    ensures !c.isPreparing ==> r == c
  {
    if c.isPreparing && c.prepTimer > 0 then c.(prepTimer := c.prepTimer - 1)
    else if c.prepTimer == 0 && c.isPreparing then c.(isPreparing := false, isTimerRunning := true)
    else c
  }

  /**
   * One step of the discussion effect: a tick of its interval while the discussion runs
   * with time left, or stopping the discussion when the timer reads zero.
   */
  function DiscussionStep(c: Clock): (r: Clock)
    ensures r.prepTimer == c.prepTimer && r.isPreparing == c.isPreparing
    ensures c.discussionTimer - 1 <= r.discussionTimer <= c.discussionTimer
    ensures r.discussionTimer < c.discussionTimer ==> c.isTimerRunning && c.discussionTimer > 0
    ensures r.isTimerRunning ==> c.isTimerRunning
    ensures !c.isTimerRunning && c.discussionTimer != 0 ==> r == c
  {
    if c.isTimerRunning && c.discussionTimer > 0 then c.(discussionTimer := c.discussionTimer - 1)
    else if c.discussionTimer == 0 then c.(isTimerRunning := false)
    else c
  }

  function PrepSteps(c: Clock, n: nat): Clock
    decreases n
  {
    if n == 0 then c else PrepSteps(PrepStep(c), n - 1)
  }

  function DiscussionSteps(c: Clock, n: nat): Clock
    decreases n
  {
    if n == 0 then c else DiscussionSteps(DiscussionStep(c), n - 1)
  }

  /** Preparing with `n` seconds left: after `n + 1` steps the discussion is running and preparation is over. */
  lemma {:induction false} PrepCountdown(c: Clock, n: nat)
    requires c.isPreparing && c.prepTimer == n
    ensures PrepSteps(c, n + 1) == c.(prepTimer := 0, isPreparing := false, isTimerRunning := true)
    decreases n
  {
    if n > 0 {
      PrepCountdown(PrepStep(c), n - 1);
    }
  }

  /** A running discussion with `n` seconds left stops after `n + 1` steps with the timer at zero. */
  lemma {:induction false} DiscussionCountdown(c: Clock, n: nat)
    requires c.isTimerRunning && c.discussionTimer == n
    ensures DiscussionSteps(c, n + 1) == c.(discussionTimer := 0, isTimerRunning := false)
    decreases n
  {
    if n > 0 {
      DiscussionCountdown(DiscussionStep(c), n - 1);
    }
  }

  /** While preparing, the discussion effect leaves a positive discussion timer alone. */
  lemma {:induction false} DiscussionIdleWhilePreparing(c: Clock, n: nat)
    requires !c.isTimerRunning && c.discussionTimer > 0
    ensures DiscussionSteps(c, n) == c
    decreases n
  {
    if n > 0 {
      DiscussionIdleWhilePreparing(DiscussionStep(c), n - 1);
    }
  }

  /** A whole session: preparation runs out, then the discussion runs out, and both end at zero. */
  lemma SessionRunsToEnd(c: Clock)
    requires c.isPreparing && !c.isTimerRunning && c.prepTimer >= 0 && c.discussionTimer >= 0
    ensures DiscussionSteps(PrepSteps(c, c.prepTimer + 1), c.discussionTimer + 1) ==
              Clock(0, 0, false, false)
  {
    PrepCountdown(c, c.prepTimer);
    var mid := PrepSteps(c, c.prepTimer + 1);
    DiscussionCountdown(mid, mid.discussionTimer);
  }

  // ---------------------------------------------------------------- room size

  /** The "-" button: `Math.max(2, prev - 1)`. */
  function SmallerRoom(m: int): (r: int)
    ensures r >= 2 && r >= m - 1
    ensures r < m || m <= 2
    ensures m <= 2 ==> r == 2
  {
    if m - 1 < 2 then 2 else m - 1
  }

  /** The "+" button: `Math.min(6, prev + 1)`. */
  function LargerRoom(m: int): (r: int)
    ensures r <= 6 && r <= m + 1
    ensures r > m || m >= 6
    ensures m >= 6 ==> r == 6
  {
    if m + 1 > 6 then 6 else m + 1
  }

  datatype Press = Minus | Plus

  /** The room size after a run of button presses. */
  function AfterPresses(m: int, presses: seq<Press>): int
    decreases presses
  {
    if presses == [] then m
    else AfterPresses(if presses[0].Minus? then SmallerRoom(m) else LargerRoom(m), presses[1..])
  }

  /** From any size in 2..6, and so from the initial 4, the buttons keep the size in 2..6. */
  lemma {:induction false} PressesStayInRange(m: int, presses: seq<Press>)
    requires 2 <= m <= 6
    ensures 2 <= AfterPresses(m, presses) <= 6
    decreases presses
  {
    if presses != [] {
      PressesStayInRange(if presses[0].Minus? then SmallerRoom(m) else LargerRoom(m), presses[1..]);
    }
  }

  // ---------------------------------------------------------------- joining

  /** The id `handleJoinRoom` uses: the trimmed input upper-cased, `None` when it is blank. */
  function JoinTarget(input: string): (r: Option<string>)
    ensures r.None? <==> IsBlank(input)
    ensures r.Some? ==> r.value != "" && IsUpperCase(r.value) && ToUpper(r.value) == ToUpper(Trim(input))
  {
    TrimEmptyIffBlank(input);
    var t := Trim(input);
    if t == "" then None
    else
      ToUpperIdempotent(t);
      Some(ToUpper(t))
  }

  /**
   * `roomDetails.participants.length >= roomDetails.maxParticipants`. `None` for details
   * without a participants array or with a non-numeric capacity.
   */
  function DetailsRoomFull(details: Json): (r: Option<bool>)
    ensures r.Some? <==> Field(details, "participants").Some? && Field(details, "participants").value.JArr? &&
                         (Field(details, "maxParticipants").None? || Field(details, "maxParticipants").value.JNum?)
    ensures r.Some? ==>
              (r.value <==> (Field(details, "maxParticipants").Some? &&
                             |Field(details, "participants").value.items| >= Field(details, "maxParticipants").value.n))
  {
    match (Field(details, "participants"), Field(details, "maxParticipants"))
    case (Some(JArr(items)), None) => Some(false)
    case (Some(JArr(items)), Some(JNum(m))) => Some(AtLeast(|items|, Some(m)))
    case _ => None
  }

  // ---------------------------------------------------------------- the view

  /** The state of the page that the socket handlers, the timers and the size buttons change. */
  class RoomView {
    var participants: seq<Record>
    var maxParticipants: int
    var isWaitingForMembers: bool
    var topicType: Option<Json>
    var topic: Option<Json>
    var prepTimer: int
    var discussionTimer: int
    var isPreparing: bool
    var isTimerRunning: bool
    var isAdmin: bool
    /** The wizard page: 1 name, 2 join or create, 3 room setup, 4 preparation, 5 discussion. */
    var step: int
    /** The shared `socketService`. */
    const socket: SocketService.WebSocketService

    constructor (socket: SocketService.WebSocketService)
      ensures this.socket == socket
      ensures participants == [] && maxParticipants == 4 && isWaitingForMembers
      ensures topicType == Some(JStr("")) && topic == Some(JStr(""))
      ensures Timers() == Clock(30, 300, false, false) && !isAdmin && step == 1
    {
      this.socket := socket;
      participants, maxParticipants, isWaitingForMembers := [], 4, true;
      topicType, topic := Some(JStr("")), Some(JStr(""));
      prepTimer, discussionTimer, isPreparing, isTimerRunning := 30, 300, false, false;
      isAdmin := false;
      step := 1;
    }

    /**
     * The effect that re-runs when the participant count, the capacity or the page changes:
     * on the preparation page the view waits exactly while the room has a free place.
     */
    method SyncWaiting()
      modifies this`isWaitingForMembers
      ensures step == 4 ==> (isWaitingForMembers <==> |participants| < maxParticipants)
      ensures step != 4 ==> isWaitingForMembers == old(isWaitingForMembers)
    {
      if step == 4 {
        isWaitingForMembers := |participants| < maxParticipants;
      }
    }

    /** The countdown fields. */
    function Timers(): Clock
      reads this`prepTimer, this`discussionTimer, this`isPreparing, this`isTimerRunning
    {
      Clock(prepTimer, discussionTimer, isPreparing, isTimerRunning)
    }

    /** `handleRoomState(data)`; `None` is a missing payload, which is ignored. */
    method HandleRoomState(data: Option<RoomSnapshot>)
      modifies this`maxParticipants, this`topicType, this`topic, this`discussionTimer,
               this`participants, this`isWaitingForMembers
      ensures data.None? ==> unchanged(this)
      ensures data.Some? ==> maxParticipants == data.value.maxParticipants && discussionTimer == data.value.duration
      ensures data.Some? ==> topicType == data.value.topicType && topic == data.value.topic
      ensures data.Some? ==> participants == MergeRoomState(old(participants), data.value.participants)
      ensures data.Some? ==> isWaitingForMembers == (|data.value.participants| < data.value.maxParticipants)
    {
      if data.None? {
        return;
      }
      var d := data.value;
      maxParticipants := d.maxParticipants;
      topicType, topic := d.topicType, d.topic;
      discussionTimer := d.duration;
      participants := MergeRoomState(participants, d.participants);
      isWaitingForMembers := |d.participants| < d.maxParticipants;
    }

    /** `handleParticipantJoined`: the waiting flag is recomputed only when the participant is new. */
    method HandleParticipantJoined(p: Record)
      modifies this`participants, this`isWaitingForMembers
      ensures participants == AddIfAbsent(old(participants), p)
      ensures Present(old(participants), IdOf(p)) ==> isWaitingForMembers == old(isWaitingForMembers)
      ensures !Present(old(participants), IdOf(p)) ==> isWaitingForMembers == (|participants| < maxParticipants)
    {
      var next := AddIfAbsent(participants, p);
      if |next| != |participants| {
        isWaitingForMembers := |next| < maxParticipants;
      }
      participants := next;
    }

    /** `handleParticipantLeft`; `id` is the payload's `participantId`. */
    method HandleParticipantLeft(id: Option<Json>)
      modifies this`participants, this`isWaitingForMembers
      ensures participants == RemoveById(old(participants), id)
      ensures isWaitingForMembers == (|participants| < maxParticipants)
    {
      participants := RemoveById(participants, id);
      isWaitingForMembers := |participants| < maxParticipants;
    }

    /** `handlePrepTimerUpdate`: only a non-admin view follows the admin's preparation timer. */
    method HandlePrepTimerUpdate(time: int)
      modifies this`prepTimer, this`isPreparing
      ensures isAdmin ==> prepTimer == old(prepTimer) && isPreparing == old(isPreparing)
      ensures !isAdmin ==> prepTimer == time && isPreparing
    {
      if !isAdmin {
        prepTimer, isPreparing := time, true;
      }
    }

    /** `handleDiscussionTimerUpdate`: only a non-admin view follows the admin's discussion timer. */
    method HandleDiscussionTimerUpdate(time: int)
      modifies this`discussionTimer
      ensures discussionTimer == if isAdmin then old(discussionTimer) else time
    {
      if !isAdmin {
        discussionTimer := time;
      }
    }

    /** `handleDiscussionStart`. */
    method HandleDiscussionStart()
      modifies this`isPreparing, this`isTimerRunning
      ensures !isPreparing && isTimerRunning
    {
      isPreparing, isTimerRunning := false, true;
    }

    /** `handleDiscussionEnd`. */
    method HandleDiscussionEnd()
      modifies this`isTimerRunning, this`discussionTimer
      ensures !isTimerRunning && discussionTimer == 0
    {
      isTimerRunning, discussionTimer := false, 0;
    }

    /**
     * The effect that starts the discussion once the room is full; an admin view asks the
     * others to start and begins preparing. `isOpen` is the socket's readyState.
     */
    method StartWhenFull(isOpen: bool)
      modifies this`isPreparing, this`isWaitingForMembers, socket`transmitted
      ensures |participants| == maxParticipants && isAdmin ==>
                isPreparing && !isWaitingForMembers &&
                socket.transmitted == SocketService.AfterSend(old(socket.transmitted), socket.socket.Some? && isOpen, "start_discussion", None)
      ensures !(|participants| == maxParticipants && isAdmin) ==>
                isPreparing == old(isPreparing) && isWaitingForMembers == old(isWaitingForMembers) &&
                socket.transmitted == old(socket.transmitted)
    {
      if |participants| == maxParticipants && isAdmin {
        socket.Send("start_discussion", None, isOpen);
        isPreparing, isWaitingForMembers := true, false;
      }
    }

    /**
     * One step of the preparation effect. An admin view also announces the new preparation
     * time on each tick, and the discussion start (at `nowMs`) when preparation runs out.
     */
    method PrepTick(isOpen: bool, nowMs: int)
      modifies this`prepTimer, this`isPreparing, this`isTimerRunning, socket`transmitted
      ensures Timers() == PrepStep(old(Timers()))
      ensures isAdmin && old(isPreparing) && old(prepTimer) > 0 ==>
                socket.transmitted == SocketService.AfterSend(old(socket.transmitted), socket.socket.Some? && isOpen,
                                        "prep_timer_update", Some(JObj(map["time" := JNum(prepTimer)])))
      ensures isAdmin && old(isPreparing) && old(prepTimer) == 0 ==>
                socket.transmitted == SocketService.AfterSend(old(socket.transmitted), socket.socket.Some? && isOpen,
                                        "discussion_start", Some(JObj(map["startTime" := JNum(nowMs)])))
      ensures !(isAdmin && old(isPreparing) && old(prepTimer) >= 0) ==> socket.transmitted == old(socket.transmitted)
    {
      if isPreparing && prepTimer > 0 {
        prepTimer := prepTimer - 1;
        if isAdmin {
          socket.Send("prep_timer_update", Some(JObj(map["time" := JNum(prepTimer)])), isOpen);
        }
      } else if prepTimer == 0 && isPreparing {
        isPreparing, isTimerRunning := false, true;
        if isAdmin {
          socket.Send("discussion_start", Some(JObj(map["startTime" := JNum(nowMs)])), isOpen);
        }
      }
    }

    /**
     * One step of the discussion effect. An admin view also announces the new time on each
     * tick, and the end of the discussion whenever the effect finds the timer at zero.
     */
    method DiscussionTick(isOpen: bool)
      modifies this`discussionTimer, this`isTimerRunning, socket`transmitted
      ensures Timers() == DiscussionStep(old(Timers()))
      ensures isAdmin && old(isTimerRunning) && old(discussionTimer) > 0 ==>
                socket.transmitted == SocketService.AfterSend(old(socket.transmitted), socket.socket.Some? && isOpen,
                                        "discussion_timer_update", Some(JObj(map["time" := JNum(discussionTimer)])))
      ensures isAdmin && old(discussionTimer) == 0 ==>
                socket.transmitted == SocketService.AfterSend(old(socket.transmitted), socket.socket.Some? && isOpen,
                                        "discussion_end", None)
      ensures !isAdmin || (!old(isTimerRunning) && old(discussionTimer) != 0) || old(discussionTimer) < 0 ==>
                socket.transmitted == old(socket.transmitted)
    {
      if isTimerRunning && discussionTimer > 0 {
        discussionTimer := discussionTimer - 1;
        if isAdmin {
          socket.Send("discussion_timer_update", Some(JObj(map["time" := JNum(discussionTimer)])), isOpen);
        }
      } else if discussionTimer == 0 {
        isTimerRunning := false;
        if isAdmin {
          socket.Send("discussion_end", None, isOpen);
        }
      }
    }

    /** The "-" button of the room-size selector. */
    method DecreaseSize()
      modifies this`maxParticipants
      ensures maxParticipants == SmallerRoom(old(maxParticipants))
    {
      maxParticipants := if maxParticipants - 1 < 2 then 2 else maxParticipants - 1;
    }

    /** The "+" button of the room-size selector. */
    method IncreaseSize()
      modifies this`maxParticipants
      ensures maxParticipants == LargerRoom(old(maxParticipants))
    {
      maxParticipants := if maxParticipants + 1 > 6 then 6 else maxParticipants + 1;
    }
  }
}
