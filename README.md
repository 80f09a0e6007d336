# MeetPilot session core in Dafny

MeetPilot is a Next.js meeting front end built on Stream's video and chat
SDKs. This project models the four pieces that hold its session logic:

- **Join page** (`join_page.dfy`, with `uri_component.dfy`). `handleJoin`
  trims the typed name and falls back to "anonymous". It then builds
  `/meeting/<call id>?name=<encodeURIComponent(name)>`. `String.prototype.trim`
  and `encodeURIComponent` are modelled after ECMAScript, together with a
  `decodeURIComponent` to read the URL back.
- **Meeting room** (`meeting_room.dfy`). Two one-shot refs guard the
  join/leave state machine: `joinedRef` guards the join effect and
  `leavingRef` guards the leave button. Each SDK call is an action appended
  to a log. Each awaited promise settles when the caller invokes `ResumeJoin`
  or `ResumeLeave` with an outcome. `call.session_ended` events, effect
  cleanups and repeated clicks can therefore interleave with pending steps.
  The leave button is rendered only after the call is stored (the page
  returns a loading or error view before that), so the model admits no click
  while the join is pending, and the `if (call)` test in `handleLeaveClick`
  always passes.
- **Client hook** (`stream_clients.dfy`). `useStreamClients` builds a video
  client for each effect run and reconciles the process-wide `StreamChat`
  singleton with the user. It publishes both clients only while the run is
  mounted. Its cleanup disconnects what the run obtained and clears the ref
  slots that still hold those clients.
- **Transcript panel** (`transcript.dfy`). `TranscriptPanel` attaches a
  caption listener to the call and a message listener to the `messaging`
  channel, and keeps an append-only transcript.

`wrappers.dfy` holds `Option`, the `Outcome` of an awaited promise and
JavaScript truthiness of an optional string.

Where MeetPilot's stated design and its code differ, the model follows the
code:

- A rejected `startClosedCaptions` aborts the join. It sets `error`, never
  stores the call and never registers the session-ended listener. It does
  not leave the call joined without captions.
- `onLeave` is not single-fire. Every click after the first invokes it, and
  so does every `call.session_ended` event once the listener is registered.
  Only stopClosedCaptions and leave are issued at most once.
- The hook's cleanup disconnects the chat singleton whenever its own run kept
  it. No ownership check guards that. The reference comparison only decides
  whether the ref slot is cleared.
- A message from the meeting assistant bot passes the sender filter, but the
  code that would append it is commented out. No chat message ever reaches
  the transcript.

## Model

| member | source | states |
|---|---|---|
| JoinPage.TrimStart | meetpilot/app/page.js:11 | the result is a suffix of the input; everything dropped is ECMAScript white space; the result does not start with white space |
| JoinPage.TrimEnd | meetpilot/app/page.js:11 | the result is a prefix of the input; everything dropped is white space; the result does not end with white space |
| JoinPage.Trim | meetpilot/app/page.js:11 | definition: `String.prototype.trim` as TrimEnd after TrimStart; its properties are TrimSlice, TrimIsTrimmed, TrimTrimmed and TrimIdempotent |
| JoinPage.TrimSlice | meetpilot/app/page.js:11 | `trim()` returns a contiguous slice `s[i..j]` of its input with only white space outside it |
| JoinPage.TrimIsTrimmed | meetpilot/app/page.js:11 | `trim()` leaves white space at neither end |
| JoinPage.TrimTrimmed | meetpilot/app/page.js:11 | a string without white space at its ends is returned unchanged by `trim()` |
| JoinPage.TrimIdempotent | meetpilot/app/page.js:11 | trimming twice is trimming once |
| JoinPage.DefaultNameTrimmed | meetpilot/app/page.js:11 | the fallback name "anonymous" is non-empty and has no white space at its ends |
| JoinPage.ChooseName | meetpilot/app/page.js:11 | the chosen name is never empty and is trimmed; it is the trimmed input when that is non-empty and "anonymous" otherwise |
| JoinPage.ChooseNameIdempotent | meetpilot/app/page.js:11 | choosing a name from a chosen name gives it back unchanged |
| JoinPage.JoinTarget | meetpilot/app/page.js:10-15 | definition: the URL `handleJoin` pushes, `/meeting/${meetingId}?name=${encodeURIComponent(name)}` with the chosen name; its properties are QuestionMarkOnlyFromPath and JoinTargetReadBack |
| JoinPage.IndexOf | meetpilot/app/page.js:14 | the position of the first occurrence of a character, or the length when there is none |
| JoinPage.QuestionMarkOnlyFromPath | meetpilot/app/page.js:14 | in the join URL no '?' appears after the one that opens `?name=` |
| JoinPage.SplitNameQuery | meetpilot/app/page.js:14 | a URL `<path>?name=<value>` without '?' in the path and '&' in the value splits back into the path and the decoded value |
| JoinPage.PathHasNoQuestionMark | meetpilot/app/page.js:14 | `/meeting/<call id>` holds no '?' when the call id holds none |
| JoinPage.JoinTargetReadBack | meetpilot/app/page.js:10-15 | for a call id without '?' or '#', the join URL's path is `/meeting/<call id>` and its `name` field decodes to exactly the chosen name |
| UriComponent.HexDigit | meetpilot/app/page.js:14 | an escape's hex digit is an upper-case hexadecimal digit |
| UriComponent.HexDigitValue | meetpilot/app/page.js:14 | a hex digit written by the encoder reads back as the value it encodes |
| UriComponent.Utf8 | meetpilot/app/page.js:14 | a character encodes to 1 to 4 UTF-8 bytes, and to exactly one byte when it is ASCII |
| UriComponent.Escape | meetpilot/app/page.js:14 | each byte becomes a three-character `%XX` escape |
| UriComponent.EscapeAll | meetpilot/app/page.js:14 | a byte sequence becomes three characters per byte |
| UriComponent.EncodeChar | meetpilot/app/page.js:14 | definition: an unreserved character stays as it is, any other becomes the `%XX` escapes of its UTF-8 bytes; its properties are DecodeEncodedChar and EncodeWellEncoded |
| UriComponent.Encode | meetpilot/app/page.js:14 | definition: `encodeURIComponent`, character by character; its properties are EncodeWellEncoded, EncodeHasNoDelimiters and DecodeEncode |
| UriComponent.EscapeAllWellEncoded | meetpilot/app/page.js:14 | escaped bytes followed by a well-encoded text are well encoded |
| UriComponent.EncodeWellEncoded | meetpilot/app/page.js:14 | `encodeURIComponent` output holds only unreserved characters and `%` followed by two upper-case hex digits |
| UriComponent.WellEncodedAlphabet | meetpilot/app/page.js:14 | every character of a well-encoded text is unreserved, `%` or a hex digit |
| UriComponent.EncodeHasNoDelimiters | meetpilot/app/page.js:14 | the encoded name contains none of space, `&`, `#`, `?`, `/`, `=`, `+`, so it cannot end the query field early |
| UriComponent.AlphabetHasNoDelimiters | meetpilot/app/page.js:14 | a text made only of encoded characters holds none of the query-string delimiters |
| UriComponent.Decode | meetpilot/app/page.js:14 | definition: `decodeURIComponent`, the reader of the encoded name, failing on a malformed escape; its properties are DecodeEscapes, DecodeEncodedChar and DecodeEncode |
| UriComponent.ContinuationAt | meetpilot/app/page.js:14 | a continuation byte read by the decoder carries a 6-bit payload |
| UriComponent.DecodeEscapes | meetpilot/app/page.js:14 | a decoded escape group consumes between 3 characters and the rest of the input |
| UriComponent.EscapeByte | meetpilot/app/page.js:14 | an escaped byte reads back as that byte |
| UriComponent.EscapeAllAt | meetpilot/app/page.js:14 | the k-th escape of an escaped byte sequence reads back as its k-th byte |
| UriComponent.SixBitGroups | meetpilot/app/page.js:14 | a code point is the sum of its 6-bit groups, as UTF-8 splits it |
| UriComponent.DecodeTwo | meetpilot/app/page.js:14 | a two-byte UTF-8 escape group of a code point decodes to it |
| UriComponent.DecodeThree | meetpilot/app/page.js:14 | a three-byte UTF-8 escape group of a code point decodes to it |
| UriComponent.DecodeFour | meetpilot/app/page.js:14 | a four-byte UTF-8 escape group of a code point decodes to it |
| UriComponent.DecodeEncodedChar | meetpilot/app/page.js:14 | the escapes of one encoded character decode to that character and consume exactly its escapes |
| UriComponent.DecodeEncode | meetpilot/app/page.js:14 | `decodeURIComponent(encodeURIComponent(s)) == s` for every string of scalar values |
| Transcript.Speaker | meetpilot/app/components/transcript.jsx:39-42 | the speaker is the user's name if truthy, else the user's id if truthy, else "Unknown"; never empty |
| Transcript.EntryOf | meetpilot/app/components/transcript.jsx:37-46 | an entry copies the caption text and start time and names the speaker |
| Transcript.AfterCaption | meetpilot/app/components/transcript.jsx:33-49 | a caption event without payload leaves the transcript unchanged; one with a payload appends exactly its entry and keeps every earlier entry |
| Transcript.FromBot | meetpilot/app/components/transcript.jsx:51-58 | definition: the sender filter, `message?.user?.id` equals the bot's id; its property is TranscriptPanel.HandleNewMessage |
| Transcript.AfterMessage | meetpilot/app/components/transcript.jsx:51-74 | definition: a message leaves the transcript as it is, because the append is commented out; its property is ChatMessagesAddNothing |
| Transcript.Step | meetpilot/app/components/transcript.jsx:33-78 | definition: one event handled by the listener registered for it; its properties are ReplayAppends and ChatMessagesAddNothing |
| Transcript.Replay | meetpilot/app/components/transcript.jsx:33-78 | definition: a stream of events handled in arrival order; its properties are ReplayAppends, ReplayLength and ChatMessagesAddNothing |
| Transcript.ReplayAppends | meetpilot/app/components/transcript.jsx:33-78 | handling any stream of events keeps the old transcript as a prefix and appends exactly the caption entries, in arrival order |
| Transcript.NewEntriesCount | meetpilot/app/components/transcript.jsx:36-47 | a stream contributes exactly one entry per caption event with a payload |
| Transcript.ReplayLength | meetpilot/app/components/transcript.jsx:33-78 | the transcript grows by the number of caption payloads and never loses or changes an entry |
| Transcript.ChatMessagesAddNothing | meetpilot/app/components/transcript.jsx:51-74 | inserting a chat message anywhere in the event stream leaves the resulting transcript unchanged |
| Transcript.NewEntriesConcat | meetpilot/app/components/transcript.jsx:33-78 | the entries of two consecutive streams are the entries of the first followed by those of the second |
| Transcript.Listeners | meetpilot/app/components/transcript.jsx:76-84 | a subscription consists of exactly two listeners, both created by its own effect run |
| Transcript.TranscriptPanel.constructor | meetpilot/app/components/transcript.jsx:9 | the panel starts with an empty transcript and no listeners |
| Transcript.TranscriptPanel.RunEffect | meetpilot/app/components/transcript.jsx:19-85 | without a call nothing is watched or attached and no cleanup is installed; with one the `messaging` channel named by the call id is watched and both listeners are attached |
| Transcript.TranscriptPanel.RunCleanup | meetpilot/app/components/transcript.jsx:80-84 | the cleanup removes both of its run's listeners together, and nothing else |
| Transcript.TranscriptPanel.HandleClosedCaption | meetpilot/app/components/transcript.jsx:33-49 | the transcript becomes AfterCaption of the old transcript |
| Transcript.TranscriptPanel.HandleNewMessage | meetpilot/app/components/transcript.jsx:51-74 | the message is skipped exactly when it is not from `meeting-assistant-bot`; the transcript is unchanged either way |
| Transcript.SubscribeThenCleanUp | meetpilot/app/components/transcript.jsx:19-85 | a run without a call, then a run with one, then that run's cleanup leave no listener attached and one channel watched |
| MeetingRoom.JoinSequence | meetpilot/app/components/meeting.room.jsx:33-48 | the join issues four steps in a fixed order: getOrCreate with the user as creator and sole `call_member`, join, startClosedCaptions "en", the session-ended listener |
| MeetingRoom.LeaveSequence | meetpilot/app/components/meeting.room.jsx:61-62 | leaving is stopClosedCaptions then leave |
| MeetingRoom.Room.Valid | meetpilot/app/components/meeting.room.jsx:16-85 | definition: the invariant every Room method keeps: the issued join steps are a prefix of JoinSequence matching the pending step, a call is stored exactly after a complete join, and the issued leave steps are a prefix of LeaveSequence, none before `leavingRef`; its consequence is RoomCallsAtMostOnce |
| MeetingRoom.Room.constructor | meetpilot/app/components/meeting.room.jsx:16-22 | a room starts with no call, no error, both refs clear and an empty log |
| MeetingRoom.Room.Issue | meetpilot/app/components/meeting.room.jsx:33-62 | issuing an SDK call appends it to the log and changes nothing else |
| MeetingRoom.Room.Notify | meetpilot/app/components/meeting.room.jsx:69 | `onLeave?.()` is recorded once if the prop is given and not at all otherwise |
| MeetingRoom.Room.RunEffect | meetpilot/app/components/meeting.room.jsx:25-40 | without a client, or once `joinedRef` is set, nothing is issued and no cleanup is installed; otherwise `joinedRef` is set, getOrCreate is issued, and the cleanup captures the current `call`, which is null |
| MeetingRoom.Room.ResumeJoin | meetpilot/app/components/meeting.room.jsx:35-53 | a rejected step stores its message in `error` and ends the join with no call; a resolved step issues the next step of JoinSequence, and the call is stored once captions have started |
| MeetingRoom.Room.AdvanceJoin | meetpilot/app/components/meeting.room.jsx:41-50 | after a resolved step, the next step of JoinSequence is issued; the last step stores the call |
| MeetingRoom.Room.LeaveClick | meetpilot/app/components/meeting.room.jsx:67-85 | a repeated click only invokes `onLeave`; a first click sets `leavingRef` and issues stopClosedCaptions on the stored call, which the button (rendered only with a call, lines 87-101 and 207) always finds |
| MeetingRoom.Room.ResumeLeave | meetpilot/app/components/meeting.room.jsx:77-84 | whatever the outcome, leave follows stopClosedCaptions and `onLeave` follows leave |
| MeetingRoom.Room.SessionEnded | meetpilot/app/components/meeting.room.jsx:45-48 | once the listener is registered, each session-ended event invokes `onLeave`; before that nothing happens |
| MeetingRoom.Room.RunCleanup | meetpilot/app/components/meeting.room.jsx:58-64 | as written: stop and leave are issued only when the captured call is set and no leave has started |
| MeetingRoom.Room.RunCleanupOnCurrentCall | meetpilot/app/components/meeting.room.jsx:58-64 | corrected: stop and leave are issued when the room holds a call and no leave has started |
| MeetingRoom.JoinAtMostOnce | meetpilot/app/components/meeting.room.jsx:21-29 | a log whose join steps follow the join sequence holds at most one getOrCreate and one join |
| MeetingRoom.CountAtMostOne | meetpilot/app/components/meeting.room.jsx:21-29 | a log in which only one position can hold a call of some kind holds at most one such call |
| MeetingRoom.CountJoinSteps | meetpilot/app/components/meeting.room.jsx:35-41 | the join view of a log holds every getOrCreate and every join of the log |
| MeetingRoom.CountLeaveSteps | meetpilot/app/components/meeting.room.jsx:61-62 | the leave view of a log holds every leave of the log |
| MeetingRoom.LeaveAtMostOnce | meetpilot/app/components/meeting.room.jsx:59-73 | a log whose leave steps follow stop-then-leave holds at most one leave |
| MeetingRoom.RoomCallsAtMostOnce | meetpilot/app/components/meeting.room.jsx:21-73 | in every reachable room state the log holds at most one getOrCreate, one join and one leave |
| MeetingRoom.FinishJoin | meetpilot/app/components/meeting.room.jsx:35-50 | when every awaited join step resolves, the rest of the join sequence is issued and the call is stored |
| MeetingRoom.JoinedRoom | meetpilot/app/components/meeting.room.jsx:25-56 | a completed join has logged exactly the join sequence, while its cleanup captured no call |
| MeetingRoom.UnmountAfterJoin | meetpilot/app/components/meeting.room.jsx:58-64 | as written, unmounting a joined room never leaves the call |
| MeetingRoom.UnmountAfterJoinCorrected | meetpilot/app/components/meeting.room.jsx:58-64 | with the corrected cleanup, unmounting a joined room stops captions and leaves the call |
| MeetingRoom.ClickTwiceThenSessionEnds | meetpilot/app/components/meeting.room.jsx:45-85 | two clicks and a session-ended event invoke `onLeave` three times; stop and leave are issued once each, even after a rejected stop |
| StreamClients.ChatClient.constructor | meetpilot/app/hooks/useStreamClients.js:41 | the chat singleton starts unbound |
| StreamClients.VideoClient.constructor | meetpilot/app/hooks/useStreamClients.js:33-34 | a video client is bound to the run's API key, user and token |
| StreamClients.Hook.constructor | meetpilot/app/hooks/useStreamClients.js:19-21 | both state slots and both ref slots start null |
| StreamClients.Reconcile | meetpilot/app/hooks/useStreamClients.js:43-58 | same user: no call, published; other user: disconnect first, and connect only after it; connect exactly when unbound at the re-check; a failed connect publishes nothing; a swallowed disconnect failure publishes a client still bound to the other user |
| StreamClients.ChatActions | meetpilot/app/hooks/useStreamClients.js:43-49 | one chat SDK call per reconcile step |
| StreamClients.Run.constructor | meetpilot/app/hooks/useStreamClients.js:26-28 | a run starts mounted with no local clients |
| StreamClients.Run.InitClients | meetpilot/app/hooks/useStreamClients.js:30-49 | a fresh video client is built first; a singleton bound to another user gets a disconnect and is awaited; otherwise the re-check follows at once |
| StreamClients.Run.Recheck | meetpilot/app/hooks/useStreamClients.js:47-58 | an unbound singleton gets a connect; a bound one is kept, and both clients are published if the run is still mounted |
| StreamClients.Run.Finish | meetpilot/app/hooks/useStreamClients.js:51-58 | the run keeps the chat client and publishes both clients to state and refs only while mounted |
| StreamClients.Run.ResumeDisconnect | meetpilot/app/hooks/useStreamClients.js:44-49 | a resolved disconnect unbinds the singleton; a rejection is swallowed; the re-check then reads the singleton as it is |
| StreamClients.Run.ResumeConnect | meetpilot/app/hooks/useStreamClients.js:48-61 | a rejected connect keeps and publishes nothing; a resolved connect binds the singleton to the user and publishes only while mounted |
| StreamClients.Run.Cleanup | meetpilot/app/hooks/useStreamClients.js:66-80 | the run is unmounted; its video client is disconnected, and its chat client too if it kept one; each ref slot is cleared only if it still holds this run's client |
| StreamClients.CanInit | meetpilot/app/hooks/useStreamClients.js:24 | definition: the effect's guard, `user`, `token` and `apiKey` all truthy; its property is RunEffect |
| StreamClients.RunEffect | meetpilot/app/hooks/useStreamClients.js:23-64 | without a user, a truthy token and a truthy API key nothing happens and no cleanup is installed; otherwise a mounted run starts with its own fresh video client |
| StreamClients.InitUninterrupted | meetpilot/app/hooks/useStreamClients.js:30-62 | a run that nothing interrupts issues exactly the chat calls Reconcile lists, leaves the singleton bound as Reconcile says, and publishes exactly when Reconcile says |
| StreamClients.UnmountDuringConnect | meetpilot/app/hooks/useStreamClients.js:47-80 | unmounting while the connect is pending publishes nothing, and the connect still binds the singleton with no later disconnect |
| StreamClients.RemountSameUser | meetpilot/app/hooks/useStreamClients.js:23-80 | a cleanup followed by a re-run for the same user connects, disconnects, then connects again |
| StreamClients.FailedConnectThenCleanup | meetpilot/app/hooks/useStreamClients.js:59-75 | after a rejected connect, nothing is published and the cleanup disconnects the video client but not the chat client |

## Left out

- Rendering: the JSX markup, the participant strip, the scroll-into-view effect and the `captionsActive` flag, which is never set.
- `console.log` and `console.error` calls have no effect on state and are not modelled.
- `router.push` is not modelled. `JoinTarget` returns the URL it would navigate to.
- `process.env.NEXT_PUBLIC_CALL_ID` is a parameter. When absent it renders as "undefined" in the template literal.
- Transcript.EntryOf: the timestamp is the caption's start time as an opaque string. The model does not follow it through `new Date(...).toLocaleTimeString()`, which depends on the locale and clock.
- Transcript: caption and message fields are modelled as present or absent strings. Non-string values and JavaScript coercion of them are not modelled.
- SDK internals (network, tokens, the video client's own connection) are not modelled. Each SDK call is a logged action, and its promise settles with an outcome the caller chooses.
- MeetingRoom: `client.call(type, id)` is taken never to throw, and `callId` and `userId` are constant for a room's lifetime. Prop changes that re-run the effect are covered by the `joinedRef` guard only.
- MeetingRoom: what `useStreamVideoClient` returns is a boolean saying whether a client is ready.
- StreamClients.Run.Cleanup: the fire-and-forget chat disconnect settles at once, with the outcome given as a parameter. A disconnect still pending when a later run starts is not modelled.
- StreamClients: the singleton's `userID` changes only when a connect or disconnect settles successfully. The SDK may set it earlier, and that is not modelled.
- StreamClients: the video client's own `disconnectUser` outcome is ignored, because the source ignores it.
- StreamClients: `StreamChat.getInstance(apiKey)` is modelled as one singleton shared by all runs. Singletons for different API keys are not modelled.
- React scheduling is not modelled. The order of effect runs, cleanups and promise settlements is chosen by the caller of the methods.
- JoinPage.JoinTargetReadBack: the read-back splits the URL at '?' and '&' itself; it is not a browser's URL parser. A call id holding '?' or '#', which `handleJoin` inserts unencoded, is excluded, since either would move the name out of the query.
- UriComponent: Dafny characters are Unicode scalar values, so lone surrogates cannot occur. The URIError path of `encodeURIComponent` is therefore absent.

## Findings

| source | as written | input that shows it | evidently intended | confidence | as-written member | corrected member |
|---|---|---|---|---|---|---|
| meetpilot/app/components/meeting.room.jsx:58-64 | The join effect's cleanup reads the `call` value of the render in which the effect ran. Only the first run with a client gets past `joinedRef`, and it runs while `call` is still null. Later runs return at line 27 and install no cleanup. The one cleanup therefore never stops captions or leaves the call. | Mount with a ready client, let getOrCreate, join and startClosedCaptions resolve, then unmount. | The cleanup stops captions and leaves the call the room holds at unmount time, unless a leave has already started. | not executed | MeetingRoom.UnmountAfterJoin | MeetingRoom.UnmountAfterJoinCorrected |
