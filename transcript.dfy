/**
 * The transcript panel (meetpilot/app/components/transcript.jsx): it listens
 * for closed-caption events on the call and for new messages on the meeting's
 * chat channel, and grows an append-only list of transcript entries.
 *
 * A caption event with a payload becomes one entry. A chat message is
 * admitted past the sender filter only when it comes from the meeting
 * assistant bot, and even then nothing is appended: the code that would
 * append it is commented out in the source.
 */
module Transcript {
  import opened Wrappers

  const BotId := "meeting-assistant-bot"
  const UnknownSpeaker := "Unknown"
  const CaptionEventName := "call.closed_caption"
  const MessageEventName := "message.new"
  const ChannelKind := "messaging"

  /** The `user` of a caption: both fields may be missing. */
  datatype CaptionUser = CaptionUser(name: Option<string>, id: Option<string>)

  /** The `closed_caption` payload; `startTime` stands for the formatted start time. */
  datatype ClosedCaption = ClosedCaption(text: Option<string>, user: Option<CaptionUser>, startTime: string)

  datatype CaptionEvent = CaptionEvent(closedCaption: Option<ClosedCaption>)

  datatype Sender = Sender(id: Option<string>)
  datatype Message = Message(user: Option<Sender>, text: Option<string>)
  datatype MessageEvent = MessageEvent(message: Option<Message>)

  /** One line of the transcript. */
  datatype Entry = Entry(text: Option<string>, speaker: string, timestamp: string)

  /** The events the panel's two listeners receive, in arrival order. */
  datatype Event = Caption(caption: CaptionEvent) | Chat(chat: MessageEvent)

  /** `user?.name || user?.id || "Unknown"`. */
  function Speaker(user: Option<CaptionUser>): (s: string)
    ensures s != ""
    ensures user.Some? && Truthy(user.value.name) ==> s == user.value.name.value
    ensures user.Some? && !Truthy(user.value.name) && Truthy(user.value.id) ==> s == user.value.id.value
    ensures (user.None? || (!Truthy(user.value.name) && !Truthy(user.value.id))) ==> s == UnknownSpeaker
  {
    match user
    case None => UnknownSpeaker
    case Some(u) =>
      if Truthy(u.name) then u.name.value
      else if Truthy(u.id) then u.id.value
      else UnknownSpeaker
  }

  /** The entry built from a caption payload: its text is copied unchanged and it always names a speaker. */
  function EntryOf(cc: ClosedCaption): (e: Entry)
    ensures e.text == cc.text && e.timestamp == cc.startTime
    ensures e.speaker != "" && e.speaker == Speaker(cc.user)
  {
    Entry(cc.text, Speaker(cc.user), cc.startTime)
  }

  /** The transcript after a caption event. */
  function AfterCaption(t: seq<Entry>, ev: CaptionEvent): (r: seq<Entry>)
    ensures ev.closedCaption.None? ==> r == t
    ensures ev.closedCaption.Some? ==>
      |r| == |t| + 1 && r[..|t|] == t && r[|t|] == EntryOf(ev.closedCaption.value)
  {
    match ev.closedCaption
    case None => t
    case Some(cc) => t + [EntryOf(cc)]
  }

  /** The sender filter: `message?.user?.id === "meeting-assistant-bot"`. */
  predicate FromBot(ev: MessageEvent)
  {
    ev.message.Some? && ev.message.value.user.Some? && ev.message.value.user.value.id == Some(BotId)
  }

  /** The transcript after a chat message: unchanged, whoever sent it (the append is commented out). */
  function AfterMessage(t: seq<Entry>, ev: MessageEvent): (r: seq<Entry>)
  {
    t
  }

  function Step(t: seq<Entry>, e: Event): seq<Entry>
  {
    match e
    case Caption(c) => AfterCaption(t, c)
    case Chat(m) => AfterMessage(t, m)
  }

  /** The transcript after a stream of events, handled one at a time in arrival order. */
  function Replay(t: seq<Entry>, events: seq<Event>): seq<Entry>
    decreases |events|
  {
    if events == [] then t else Replay(Step(t, events[0]), events[1..])
  }

  /** The entries a stream of events contributes: one per caption payload, in arrival order. */
  function NewEntries(events: seq<Event>): seq<Entry>
  {
    if events == [] then []
    else
      (match events[0]
       case Caption(CaptionEvent(Some(cc))) => [EntryOf(cc)]
       case _ => [])
      + NewEntries(events[1..])
  }

  /** The number of caption events that carry a payload. */
  function CaptionCount(events: seq<Event>): nat
  {
    if events == [] then 0
    else (if events[0].Caption? && events[0].caption.closedCaption.Some? then 1 else 0) + CaptionCount(events[1..])
  }

  /**
   * The transcript is append-only: handling a stream of events keeps every
   * earlier entry in place and appends exactly the caption entries, in order.
   */
  lemma {:induction false} ReplayAppends(t: seq<Entry>, events: seq<Event>)
    ensures Replay(t, events) == t + NewEntries(events)
    decreases |events|
  {
    if events == [] {
      assert t + [] == t;
    } else {
      var t' := Step(t, events[0]);
      ReplayAppends(t', events[1..]);
      match events[0]
      case Caption(CaptionEvent(Some(cc))) =>
        assert t' == t + [EntryOf(cc)];
        assert t' + NewEntries(events[1..]) == t + ([EntryOf(cc)] + NewEntries(events[1..]));
      case Caption(CaptionEvent(None)) =>
        assert t' == t;
        assert NewEntries(events) == NewEntries(events[1..]);
      case Chat(m) =>
        assert t' == t;
        assert NewEntries(events) == NewEntries(events[1..]);
    }
  }

  /** One entry per caption payload: chat messages never add to the transcript. */
  lemma {:induction false} NewEntriesCount(events: seq<Event>)
    ensures |NewEntries(events)| == CaptionCount(events)
    decreases |events|
  {
    if events != [] {
      NewEntriesCount(events[1..]);
    }
  }

  /** The transcript's length is its old length plus the number of caption events with a payload. */
  lemma ReplayLength(t: seq<Entry>, events: seq<Event>)
    ensures |Replay(t, events)| == |t| + CaptionCount(events)
    ensures Replay(t, events)[..|t|] == t
  {
    ReplayAppends(t, events);
    NewEntriesCount(events);
  }

  /** Interleaving chat messages anywhere in the stream does not change the transcript. */
  lemma {:induction false} ChatMessagesAddNothing(t: seq<Entry>, before: seq<Event>, m: MessageEvent, after: seq<Event>)
    ensures Replay(t, before + [Chat(m)] + after) == Replay(t, before + after)
  {
    var tail := [Chat(m)] + after;
    assert before + [Chat(m)] + after == before + tail;
    assert tail[1..] == after;
    assert NewEntries(tail) == NewEntries(after);
    NewEntriesConcat(before, tail);
    NewEntriesConcat(before, after);
    ReplayAppends(t, before + tail);
    ReplayAppends(t, before + after);
  }

  lemma {:induction false} NewEntriesConcat(a: seq<Event>, b: seq<Event>)
    ensures NewEntries(a + b) == NewEntries(a) + NewEntries(b)
    decreases |a|
  {
    if a == [] {
      assert a + b == b;
    } else {
      assert (a + b)[1..] == a[1..] + b;
      NewEntriesConcat(a[1..], b);
    }
  }

  // ---------------------------------------------------------------------
  // The component: its transcript state and its listener registrations.

  /** The object a listener is attached to: the call (by identity) or the chat channel. */
  datatype Target = CallTarget(call: nat) | ChannelTarget(kind: string, id: Option<string>)

  /** A listener closure, tagged with the effect run that created it. */
  datatype Handler = CaptionHandler(run: nat) | MessageHandler(run: nat)

  datatype Registration = Registration(target: Target, event: string, handler: Handler)

  /** What the effect's cleanup closure captured: the call, the channel and the run's two handlers. */
  datatype Subscription = Subscription(call: nat, channel: Target, run: nat)

  /** The two listeners a subscription attaches, and its cleanup detaches. */
  function Listeners(s: Subscription): (m: multiset<Registration>)
    ensures |m| == 2
    ensures forall r :: r in m ==> r.handler.run == s.run
  {
    multiset{
      Registration(CallTarget(s.call), CaptionEventName, CaptionHandler(s.run)),
      Registration(s.channel, MessageEventName, MessageHandler(s.run))}
  }

  class TranscriptPanel {
    /** React state: the list rendered by the panel. */
    var transcripts: seq<Entry>
    /** Listeners currently attached to calls and channels by this panel. */
    var listeners: multiset<Registration>
    /** Channels on which `watch()` was issued, in order. */
    var watched: seq<Target>
    /** Effect runs that got past the `!call` guard (tags their handlers). */
    var runs: nat

    constructor ()
      ensures transcripts == [] && listeners == multiset{} && watched == [] && runs == 0
    {
      transcripts := [];
      listeners := multiset{};
      watched := [];
      runs := 0;
    }

    /**
     * One run of the subscribe effect, keyed on `call`. Without a call it
     * registers nothing and installs no cleanup; otherwise it watches the
     * "messaging" channel named by the call id and attaches both listeners.
     */
    method RunEffect(call: Option<nat>, callId: Option<string>) returns (cleanup: Option<Subscription>)
      modifies this
      ensures call.None? ==> cleanup.None? && listeners == old(listeners) && watched == old(watched) && runs == old(runs)
      ensures call.Some? ==>
        && cleanup == Some(Subscription(call.value, ChannelTarget(ChannelKind, callId), old(runs)))
        && listeners == old(listeners) + Listeners(cleanup.value)
        && watched == old(watched) + [ChannelTarget(ChannelKind, callId)]
        && runs == old(runs) + 1
      ensures transcripts == old(transcripts)
    {
      if call.None? {
        return None;
      }
      var channel := ChannelTarget(ChannelKind, callId);
      watched := watched + [channel];
      var s := Subscription(call.value, channel, runs);
      listeners := listeners
        + multiset{Registration(CallTarget(s.call), CaptionEventName, CaptionHandler(s.run))}
        + multiset{Registration(channel, MessageEventName, MessageHandler(s.run))};
      runs := runs + 1;
      cleanup := Some(s);
    }

    /** The cleanup returned by a run that subscribed: both of its listeners are detached together. */
    method RunCleanup(s: Subscription)
      modifies this
      ensures listeners == old(listeners) - Listeners(s)
      ensures transcripts == old(transcripts) && watched == old(watched) && runs == old(runs)
    {
      listeners := listeners - Listeners(s);
    }

    /** The caption listener. */
    method HandleClosedCaption(ev: CaptionEvent)
      modifies this
      ensures transcripts == AfterCaption(old(transcripts), ev)
      ensures listeners == old(listeners) && watched == old(watched) && runs == old(runs)
    {
      if ev.closedCaption.Some? {
        transcripts := transcripts + [EntryOf(ev.closedCaption.value)];
      }
    }

    /**
     * The message listener: it reports whether the sender filter skipped the
     * message. It has no `modifies` clause, so the transcript is unchanged
     * whatever the sender, as AfterMessage says.
     */
    method HandleNewMessage(ev: MessageEvent) returns (skipped: bool)
      ensures skipped <==> !FromBot(ev)
    {
      return !FromBot(ev);
    }
  }

  /** Subscribing and then running the returned cleanup leaves no listener behind. */
  method SubscribeThenCleanUp(callRef: nat, callId: Option<string>) returns (panel: TranscriptPanel)
    ensures panel.listeners == multiset{} && panel.watched == [ChannelTarget(ChannelKind, callId)]
  {
    panel := new TranscriptPanel();
    var none := panel.RunEffect(None, callId);
    assert none.None? && panel.listeners == multiset{};
    var cleanup := panel.RunEffect(Some(callRef), callId);
    assert |panel.listeners| == 2;
    panel.RunCleanup(cleanup.value);
    assert panel.listeners == multiset{};
  }
}
