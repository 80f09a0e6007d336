/**
 * The meeting room's call lifecycle (meetpilot/app/components/meeting.room.jsx).
 *
 * Two one-shot flags guard it. `joinedRef` guards the join effect: the first
 * run that has a video client issues, one awaited step at a time,
 * getOrCreate, join, startClosedCaptions, then registers a session_ended
 * listener and stores the call; any failure stops the sequence and stores
 * the error message. `leavingRef` guards the leave button: the first click
 * stops captions and leaves the call (errors swallowed), every click invokes
 * `onLeave`.
 *
 * SDK calls are actions appended to `log`. Each awaited promise settles when
 * the caller invokes ResumeJoin or ResumeLeave, so session-ended events,
 * cleanups and repeated clicks can be interleaved with pending steps. The
 * leave button is rendered only once the call is stored, so no click comes
 * before that.
 */
module MeetingRoom {
  import opened Wrappers

  const CallType := "default"
  const CaptionLanguage := "en"
  const MemberRole := "call_member"

  datatype Member = Member(userId: string, role: string)

  /** The call object `client.call(type, id)`. */
  datatype CallRef = CallRef(callType: string, id: string)

  datatype Action =
    | GetOrCreate(call: CallRef, createdBy: string, members: seq<Member>)
    | Join(call: CallRef)
    | StartClosedCaptions(call: CallRef, language: string)
    | ListenSessionEnded(call: CallRef)
    | StopClosedCaptions(call: CallRef)
    | Leave(call: CallRef)
    | InvokeOnLeave

  predicate IsJoinStep(a: Action)
  {
    a.GetOrCreate? || a.Join? || a.StartClosedCaptions? || a.ListenSessionEnded?
  }

  predicate IsLeaveStep(a: Action)
  {
    a.StopClosedCaptions? || a.Leave?
  }

  /** The join steps in the order the join effect issues them. */
  function JoinSequence(callId: string, userId: string): (s: seq<Action>)
    ensures |s| == 4 && forall a :: a in s ==> IsJoinStep(a)
  {
    var c := CallRef(CallType, callId);
    [GetOrCreate(c, userId, [Member(userId, MemberRole)]), Join(c),
     StartClosedCaptions(c, CaptionLanguage), ListenSessionEnded(c)]
  }

  /** The leave steps, in order. */
  function LeaveSequence(c: CallRef): (s: seq<Action>)
    ensures |s| == 2 && forall a :: a in s ==> IsLeaveStep(a)
  {
    [StopClosedCaptions(c), Leave(c)]
  }

  /** `onLeave?.()`: one invocation when the prop is given, none otherwise. */
  function NotifyOwner(hasOnLeave: bool): seq<Action>
  {
    if hasOnLeave then [InvokeOnLeave] else []
  }

  /** The join steps of a log, in order. */
  function JoinStepsOf(log: seq<Action>): seq<Action>
  {
    if log == [] then []
    else JoinStepsOf(log[..|log| - 1]) + (if IsJoinStep(log[|log| - 1]) then [log[|log| - 1]] else [])
  }

  /** The leave steps of a log, in order. */
  function LeaveStepsOf(log: seq<Action>): seq<Action>
  {
    if log == [] then []
    else LeaveStepsOf(log[..|log| - 1]) + (if IsLeaveStep(log[|log| - 1]) then [log[|log| - 1]] else [])
  }

  /** Whether `s` is a prefix of `t`. */
  predicate IsPrefix(s: seq<Action>, t: seq<Action>)
  {
    |s| <= |t| && s == t[..|s|]
  }

  /** A prefix grows by the next element of the sequence it is a prefix of. */
  lemma PrefixExtend(s: seq<Action>, t: seq<Action>)
    requires IsPrefix(s, t) && |s| < |t|
    ensures IsPrefix(s + [t[|s|]], t)
  {
    assert s + [t[|s|]] == t[..|s| + 1];
  }

  /** Where the async `init` of the join effect stands. */
  datatype JoinTask = NotStarted | AwaitingGetOrCreate | AwaitingJoin | AwaitingCaptions | Settled

  /** The state after the awaited step of t resolves. */
  function NextJoinTask(t: JoinTask): JoinTask
  {
    match t
    case NotStarted => NotStarted
    case AwaitingGetOrCreate => AwaitingJoin
    case AwaitingJoin => AwaitingCaptions
    case AwaitingCaptions => Settled
    case Settled => Settled
  }

  /** Where the async leave-click handler stands. */
  datatype LeaveTask = Idle | AwaitingStop | AwaitingLeave | Done

  /** The cleanup closure of the join effect, with the `call` state it captured when the effect ran. */
  datatype Cleanup = Cleanup(captured: Option<CallRef>)

  /** Number of join steps issued by the time the task is in a given awaiting state. */
  function IssuedBy(t: JoinTask): nat
  {
    match t
    case NotStarted => 0
    case AwaitingGetOrCreate => 1
    case AwaitingJoin => 2
    case AwaitingCaptions => 3
    case Settled => 4
  }

  class Room {
    // props
    const callId: string
    const userId: string
    const hasOnLeave: bool
    // React state
    var call: Option<CallRef>
    var error: Option<string>
    // refs
    var joinedRef: bool
    var leavingRef: bool
    // pending async work and listeners
    var joinTask: JoinTask
    var leaveTask: LeaveTask
    var sessionEndedListener: bool
    /** Every SDK call and `onLeave` invocation, in issue order. */
    var log: seq<Action>

    /** The only call this room ever joins. */
    function TheCall(): CallRef
    {
      CallRef(CallType, callId)
    }

    function JoinSteps(): seq<Action>
      reads this
    {
      JoinStepsOf(log)
    }

    function LeaveSteps(): seq<Action>
      reads this
    {
      LeaveStepsOf(log)
    }

    ghost predicate Valid()
      reads this
    {
      // join: the issued join steps are a prefix of the fixed sequence
      && (joinedRef <==> !joinTask.NotStarted?)
      && IsPrefix(JoinSteps(), JoinSequence(callId, userId))
      && (!joinTask.Settled? ==> |JoinSteps()| == IssuedBy(joinTask))
      && (joinTask.Settled? ==> 1 <= |JoinSteps()| && (error.None? <==> |JoinSteps()| == 4))
      && (call.Some? <==> joinTask.Settled? && error.None?)
      && (call.Some? ==> call.value == TheCall())
      && (error.Some? ==> joinTask.Settled?)
      && (sessionEndedListener <==> call.Some?)
      // leave: the issued leave steps are a prefix of stop-then-leave
      && IsPrefix(LeaveSteps(), LeaveSequence(TheCall()))
      && (!leavingRef ==> LeaveSteps() == [] && leaveTask.Idle?)
      && (leaveTask.AwaitingStop? ==> |LeaveSteps()| == 1)
      && (leaveTask.AwaitingLeave? ==> |LeaveSteps()| == 2)
    }

    constructor (callId: string, userId: string, hasOnLeave: bool)
      ensures Valid()
      ensures this.callId == callId && this.userId == userId && this.hasOnLeave == hasOnLeave
      ensures call.None? && error.None? && !joinedRef && !leavingRef && log == []
    {
      this.callId := callId;
      this.userId := userId;
      this.hasOnLeave := hasOnLeave;
      call := None;
      error := None;
      joinedRef := false;
      leavingRef := false;
      joinTask := NotStarted;
      leaveTask := Idle;
      sessionEndedListener := false;
      log := [];
    }

    /** Appends one action to the log and keeps the two filtered views in step. */
    method Issue(a: Action)
      modifies this`log
      ensures log == old(log) + [a]
      ensures JoinSteps() == old(JoinSteps()) + (if IsJoinStep(a) then [a] else [])
      ensures LeaveSteps() == old(LeaveSteps()) + (if IsLeaveStep(a) then [a] else [])
    {
      assert (log + [a])[..|log|] == log;
      log := log + [a];
    }

    /** `onLeave?.()`. */
    method Notify()
      requires Valid()
      modifies this`log
      ensures Valid()
      ensures log == old(log) + NotifyOwner(hasOnLeave)
    {
      if hasOnLeave {
        Issue(InvokeOnLeave);
      }
    }

    /**
     * One run of the join effect. Without a client, or once `joinedRef` is
     * set, it does nothing and installs no cleanup. Otherwise it sets
     * `joinedRef` before any call, issues getOrCreate (creator and sole
     * member: this user) and returns a cleanup that captured the current
     * `call` state, which is still null.
     */
    method RunEffect(clientReady: bool) returns (cleanup: Option<Cleanup>)
      requires Valid()
      modifies this
      ensures Valid()
      ensures !clientReady || old(joinedRef) ==>
        cleanup.None? && log == old(log) && joinTask == old(joinTask) && joinedRef == old(joinedRef)
      ensures clientReady && !old(joinedRef) ==>
        && joinedRef && joinTask == AwaitingGetOrCreate
        && log == old(log) + [GetOrCreate(TheCall(), userId, [Member(userId, MemberRole)])]
        && cleanup == Some(Cleanup(old(call)))
      ensures cleanup.Some? ==> cleanup.value.captured.None?
      ensures call == old(call) && error == old(error) && leavingRef == old(leavingRef)
      ensures leaveTask == old(leaveTask) && sessionEndedListener == old(sessionEndedListener)
    {
      if !clientReady {
        return None;
      }
      if joinedRef {
        return None;
      }
      assert JoinSteps() == [] && call.None?;
      PrefixExtend(JoinSteps(), JoinSequence(callId, userId));
      joinedRef := true;
      var myCall := CallRef(CallType, callId);
      Issue(GetOrCreate(myCall, userId, [Member(userId, MemberRole)]));
      joinTask := AwaitingGetOrCreate;
      cleanup := Some(Cleanup(call));
    }

    /**
     * The pending join step settles. A rejection ends the join: the message
     * goes to `error` and `call` stays null. A resolution issues the next
     * step of the join sequence; once captions have started, that step is
     * the session_ended listener, and the call is stored.
     */
    method ResumeJoin(outcome: Outcome)
      requires Valid()
      requires joinTask.AwaitingGetOrCreate? || joinTask.AwaitingJoin? || joinTask.AwaitingCaptions?
      modifies this
      ensures Valid()
      ensures outcome.Rejected? ==>
        joinTask.Settled? && error == Some(outcome.message) && call.None? && log == old(log)
      ensures outcome.Resolved? ==>
        && log == old(log) + [JoinSequence(callId, userId)[IssuedBy(old(joinTask))]]
        && joinTask == NextJoinTask(old(joinTask))
        && (call.Some? <==> old(joinTask).AwaitingCaptions?)
        && error.None?
      ensures joinedRef == old(joinedRef) && leavingRef == old(leavingRef) && leaveTask == old(leaveTask)
    {
      match outcome
      case Rejected(message) =>
        error := Some(message);
        joinTask := Settled;
      case Resolved =>
        AdvanceJoin();
    }

    method AdvanceJoin()
      requires Valid()
      requires joinTask.AwaitingGetOrCreate? || joinTask.AwaitingJoin? || joinTask.AwaitingCaptions?
      modifies this
      ensures Valid()
      ensures log == old(log) + [JoinSequence(callId, userId)[IssuedBy(old(joinTask))]]
      ensures joinTask == NextJoinTask(old(joinTask))
      ensures call.Some? <==> old(joinTask).AwaitingCaptions?
      ensures error == old(error)
      ensures joinedRef == old(joinedRef) && leavingRef == old(leavingRef) && leaveTask == old(leaveTask)
    {
      PrefixExtend(JoinSteps(), JoinSequence(callId, userId));
      var myCall := CallRef(CallType, callId);
      match joinTask
      case AwaitingGetOrCreate =>
        Issue(Join(myCall));
        joinTask := AwaitingJoin;
      case AwaitingJoin =>
        Issue(StartClosedCaptions(myCall, CaptionLanguage));
        joinTask := AwaitingCaptions;
      case AwaitingCaptions =>
        Issue(ListenSessionEnded(myCall));
        sessionEndedListener := true;
        call := Some(myCall);
        joinTask := Settled;
    }

    /**
     * The leave button. A click after the first only invokes `onLeave`. The
     * first click sets `leavingRef`, issues stopClosedCaptions and awaits it.
     * The button is rendered only once `call` is stored (the page returns
     * early while it is null), so the click always finds a call.
     */
    method LeaveClick()
      requires Valid() && call.Some?
      modifies this
      ensures Valid() && leavingRef
      ensures old(leavingRef) ==> log == old(log) + NotifyOwner(hasOnLeave) && leaveTask == old(leaveTask)
      ensures !old(leavingRef) ==>
        log == old(log) + [StopClosedCaptions(TheCall())] && leaveTask.AwaitingStop?
      ensures call == old(call) && error == old(error) && joinTask == old(joinTask)
      ensures joinedRef == old(joinedRef) && sessionEndedListener == old(sessionEndedListener)
    {
      if leavingRef {
        Notify();
        return;
      }
      leavingRef := true;
      Issue(StopClosedCaptions(call.value));
      leaveTask := AwaitingStop;
    }

    /**
     * The pending leave step settles. Errors are swallowed, so the outcome
     * does not matter: after stopClosedCaptions comes leave, after leave
     * comes `onLeave`.
     */
    method ResumeLeave(outcome: Outcome)
      requires Valid()
      requires leaveTask.AwaitingStop? || leaveTask.AwaitingLeave?
      modifies this
      ensures Valid()
      ensures old(leaveTask).AwaitingStop? ==> log == old(log) + [Leave(TheCall())] && leaveTask.AwaitingLeave?
      ensures old(leaveTask).AwaitingLeave? ==> log == old(log) + NotifyOwner(hasOnLeave) && leaveTask.Done?
      ensures call == old(call) && error == old(error) && joinTask == old(joinTask)
      ensures joinedRef == old(joinedRef) && leavingRef == old(leavingRef)
      ensures sessionEndedListener == old(sessionEndedListener)
    {
      if leaveTask.AwaitingStop? {
        Issue(Leave(TheCall()));
        leaveTask := AwaitingLeave;
      } else {
        Notify();
        leaveTask := Done;
      }
    }

    /** A session_ended event on the call: its listener, once registered, invokes `onLeave`. */
    method SessionEnded()
      requires Valid()
      modifies this
      ensures Valid()
      ensures log == old(log) + (if sessionEndedListener then NotifyOwner(hasOnLeave) else [])
      ensures call == old(call) && error == old(error) && joinTask == old(joinTask)
      ensures joinedRef == old(joinedRef) && leavingRef == old(leavingRef) && leaveTask == old(leaveTask)
      ensures sessionEndedListener == old(sessionEndedListener)
    {
      if sessionEndedListener {
        Notify();
      }
    }

    /**
     * The join effect's cleanup, as written: it acts on the `call` it
     * captured, and only if no leave has started; it sets `leavingRef` and
     * issues stopClosedCaptions and leave without awaiting them.
     */
    method RunCleanup(cleanup: Cleanup)
      requires Valid()
      requires cleanup.captured.Some? ==> cleanup.captured.value == TheCall()
      modifies this
      ensures Valid()
      ensures cleanup.captured.Some? && !old(leavingRef) ==>
        leavingRef && log == old(log) + LeaveSequence(TheCall())
      ensures cleanup.captured.None? || old(leavingRef) ==>
        log == old(log) && leavingRef == old(leavingRef)
      ensures call == old(call) && error == old(error) && joinTask == old(joinTask)
      ensures joinedRef == old(joinedRef) && leaveTask == old(leaveTask)
    {
      if cleanup.captured.Some? && !leavingRef {
        leavingRef := true;
        Issue(StopClosedCaptions(cleanup.captured.value));
        Issue(Leave(cleanup.captured.value));
      }
    }

    /**
     * The cleanup as evidently intended: it acts on the call the room holds
     * now (as a ref would give it) rather than on the one captured when the
     * effect ran.
     */
    method RunCleanupOnCurrentCall()
      requires Valid()
      modifies this
      ensures Valid()
      ensures old(call).Some? && !old(leavingRef) ==>
        leavingRef && log == old(log) + LeaveSequence(TheCall())
      ensures old(call).None? || old(leavingRef) ==>
        log == old(log) && leavingRef == old(leavingRef)
      ensures call == old(call) && error == old(error) && joinTask == old(joinTask)
      ensures joinedRef == old(joinedRef) && leaveTask == old(leaveTask)
    {
      if call.Some? && !leavingRef {
        leavingRef := true;
        Issue(StopClosedCaptions(call.value));
        Issue(Leave(call.value));
      }
    }
  }

  // ---------------------------------------------------------------------
  // Consequences of the room's invariant for any log it can produce.

  /** The SDK calls that must not be repeated. */
  datatype Kind = GetOrCreateCall | JoinCall | LeaveCall

  predicate OfKind(k: Kind, a: Action)
  {
    match k
    case GetOrCreateCall => a.GetOrCreate?
    case JoinCall => a.Join?
    case LeaveCall => a.Leave?
  }

  /** How many calls of kind k a log holds. */
  function Count(k: Kind, log: seq<Action>): nat
  {
    if log == [] then 0
    else Count(k, log[..|log| - 1]) + (if OfKind(k, log[|log| - 1]) then 1 else 0)
  }

  lemma CountSnoc(k: Kind, s: seq<Action>, x: Action)
    ensures Count(k, s + [x]) == Count(k, s) + (if OfKind(k, x) then 1 else 0)
  {
    assert (s + [x])[..|s|] == s;
  }

  lemma {:induction false} CountNone(k: Kind, s: seq<Action>)
    requires forall j :: 0 <= j < |s| ==> !OfKind(k, s[j])
    ensures Count(k, s) == 0
    decreases |s|
  {
    if s != [] {
      var init := s[..|s| - 1];
      assert forall j :: 0 <= j < |init| ==> init[j] == s[j];
      CountNone(k, init);
    }
  }

  /** A log in which only position i can hold a call of kind k holds at most one. */
  lemma {:induction false} CountAtMostOne(k: Kind, s: seq<Action>, i: int)
    requires forall j :: 0 <= j < |s| && j != i ==> !OfKind(k, s[j])
    ensures Count(k, s) <= 1
    decreases |s|
  {
    if s != [] {
      var init := s[..|s| - 1];
      assert forall j :: 0 <= j < |init| ==> init[j] == s[j];
      if i == |s| - 1 {
        CountNone(k, init);
      } else {
        CountAtMostOne(k, init, i);
      }
    }
  }

  /** Getting-or-creating and joining are join steps, so the join view counts them all. */
  lemma {:induction false} CountJoinSteps(k: Kind, log: seq<Action>)
    requires k != LeaveCall
    ensures Count(k, JoinStepsOf(log)) == Count(k, log)
    decreases |log|
  {
    if log != [] {
      var init := log[..|log| - 1];
      var last := log[|log| - 1];
      assert log == init + [last];
      CountJoinSteps(k, init);
      CountSnoc(k, init, last);
      if IsJoinStep(last) {
        CountSnoc(k, JoinStepsOf(init), last);
      } else {
        assert !OfKind(k, last);
        assert JoinStepsOf(log) == JoinStepsOf(init) + [] == JoinStepsOf(init);
      }
    }
  }

  /** Leaving is a leave step, so the leave view counts every leave. */
  lemma {:induction false} CountLeaveSteps(log: seq<Action>)
    ensures Count(LeaveCall, LeaveStepsOf(log)) == Count(LeaveCall, log)
    decreases |log|
  {
    if log != [] {
      var init := log[..|log| - 1];
      var last := log[|log| - 1];
      assert log == init + [last];
      CountLeaveSteps(init);
      CountSnoc(LeaveCall, init, last);
      if IsLeaveStep(last) {
        CountSnoc(LeaveCall, LeaveStepsOf(init), last);
      } else {
        assert !OfKind(LeaveCall, last);
        assert LeaveStepsOf(log) == LeaveStepsOf(init) + [] == LeaveStepsOf(init);
      }
    }
  }

  /**
   * However often the effect re-runs, a log whose join steps are a prefix
   * of the join sequence holds at most one getOrCreate and at most one join.
   */
  lemma JoinAtMostOnce(log: seq<Action>, callId: string, userId: string)
    requires IsPrefix(JoinStepsOf(log), JoinSequence(callId, userId))
    ensures Count(GetOrCreateCall, log) <= 1
    ensures Count(JoinCall, log) <= 1
  {
    var steps := JoinStepsOf(log);
    var all := JoinSequence(callId, userId);
    forall j | 0 <= j < |steps| && j != 0 ensures !OfKind(GetOrCreateCall, steps[j]) {
      assert steps[j] == all[j];
      if j == 1 {} else if j == 2 {} else {}
    }
    forall j | 0 <= j < |steps| && j != 1 ensures !OfKind(JoinCall, steps[j]) {
      assert steps[j] == all[j];
      if j == 0 {} else if j == 2 {} else {}
    }
    CountAtMostOne(GetOrCreateCall, steps, 0);
    CountAtMostOne(JoinCall, steps, 1);
    CountJoinSteps(GetOrCreateCall, log);
    CountJoinSteps(JoinCall, log);
  }

  /** At most one leave call is issued, however many times `onLeave` fires. */
  lemma LeaveAtMostOnce(log: seq<Action>, c: CallRef)
    requires IsPrefix(LeaveStepsOf(log), LeaveSequence(c))
    ensures Count(LeaveCall, log) <= 1
  {
    var steps := LeaveStepsOf(log);
    forall j | 0 <= j < |steps| && j != 1 ensures !OfKind(LeaveCall, steps[j]) {
      assert steps[j] == LeaveSequence(c)[j];
    }
    CountAtMostOne(LeaveCall, steps, 1);
    CountLeaveSteps(log);
  }

  /**
   * In every state the room can reach, its log holds at most one
   * getOrCreate, one join and one leave of the call.
   */
  lemma RoomCallsAtMostOnce(room: Room)
    requires room.Valid()
    ensures Count(GetOrCreateCall, room.log) <= 1
    ensures Count(JoinCall, room.log) <= 1
    ensures Count(LeaveCall, room.log) <= 1
  {
    JoinAtMostOnce(room.log, room.callId, room.userId);
    LeaveAtMostOnce(room.log, room.TheCall());
  }

  // ---------------------------------------------------------------------
  // Scenarios

  /** All three awaited join steps resolve: the rest of the join sequence is issued and the call is stored. */
  method FinishJoin(room: Room)
    requires room.Valid() && room.joinTask.AwaitingGetOrCreate?
    modifies room
    ensures room.Valid()
    ensures room.log == old(room.log) + JoinSequence(room.callId, room.userId)[1..]
    ensures room.call == Some(room.TheCall())
    ensures room.leavingRef == old(room.leavingRef) && room.leaveTask == old(room.leaveTask)
  {
    var all := JoinSequence(room.callId, room.userId);
    room.ResumeJoin(Resolved);
    room.ResumeJoin(Resolved);
    room.ResumeJoin(Resolved);
    assert all[1..] == [all[1], all[2], all[3]];
  }

  /** A fresh room whose join ran to completion: the whole join sequence was issued and the call is stored. */
  method JoinedRoom(callId: string, userId: string) returns (room: Room, cleanup: Cleanup)
    ensures fresh(room) && room.Valid()
    ensures room.callId == callId && room.userId == userId && room.hasOnLeave
    ensures room.call == Some(room.TheCall()) && !room.leavingRef && room.leaveTask.Idle?
    ensures room.log == JoinSequence(callId, userId)
    ensures cleanup.captured.None?
  {
    room := new Room(callId, userId, true);
    var all := JoinSequence(callId, userId);
    var installed := room.RunEffect(true);
    cleanup := installed.value;
    FinishJoin(room);
    assert room.log == [all[0]] + all[1..] == all;
  }

  /**
   * A room that joins and is then unmounted: the as-written cleanup is the
   * one the joining run returned, which captured a null call, so the call is
   * never left.
   */
  method UnmountAfterJoin(callId: string, userId: string) returns (room: Room)
    ensures room.call == Some(room.TheCall())
    ensures room.log == JoinSequence(callId, userId)
    ensures Leave(room.TheCall()) !in room.log
  {
    var cleanup;
    room, cleanup := JoinedRoom(callId, userId);
    var again := room.RunEffect(true);
    assert again.None?;
    room.RunCleanup(cleanup);
  }

  /** The same unmount with the cleanup acting on the current call leaves it. */
  method UnmountAfterJoinCorrected(callId: string, userId: string) returns (room: Room)
    ensures room.call == Some(room.TheCall())
    ensures room.log == JoinSequence(callId, userId) + LeaveSequence(room.TheCall())
  {
    var cleanup;
    room, cleanup := JoinedRoom(callId, userId);
    room.RunCleanupOnCurrentCall();
  }

  /**
   * Two clicks and a session_ended event invoke `onLeave` three times, while
   * stopClosedCaptions and leave are issued once; a rejected stop does not
   * prevent the leave.
   */
  method ClickTwiceThenSessionEnds(callId: string, userId: string) returns (room: Room)
    ensures room.log == JoinSequence(callId, userId) +
      [StopClosedCaptions(room.TheCall()), InvokeOnLeave, Leave(room.TheCall()), InvokeOnLeave, InvokeOnLeave]
  {
    var cleanup;
    room, cleanup := JoinedRoom(callId, userId);
    room.LeaveClick();
    room.LeaveClick();
    room.ResumeLeave(Rejected("network"));
    room.ResumeLeave(Resolved);
    room.SessionEnded();
  }
}
