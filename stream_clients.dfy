/**
 * The client hook (meetpilot/app/hooks/useStreamClients.js): each run of its
 * effect constructs a video client for the user and reconciles the
 * process-wide chat client with that user, then publishes both to React
 * state and to a ref, but only while the run is still mounted. The run's
 * cleanup marks it unmounted, disconnects the clients this run obtained,
 * and clears each ref slot that still holds this run's client.
 *
 * The chat singleton carries the `userID` it is bound to. If it is bound to
 * another user it is disconnected first; if it is then unbound it is
 * connected; if it is already bound to this user it is left alone. SDK
 * calls are actions appended to the hook's log; each awaited call settles
 * when the caller invokes ResumeDisconnect or ResumeConnect on the run.
 */
module StreamClients {
  import opened Wrappers

  /** The user object passed to the hook; only its id matters here. */
  datatype User = User(id: string)

  /** The process-wide chat client (`StreamChat.getInstance(apiKey)`). */
  class ChatClient {
    /** The user the singleton is bound to, if any. */
    var userID: Option<string>

    constructor ()
      ensures userID.None?
    {
      userID := None;
    }
  }

  /** A video client; every effect run constructs its own. */
  class VideoClient {
    const apiKey: string
    const user: User
    const token: string

    constructor (apiKey: string, user: User, token: string)
      ensures this.apiKey == apiKey && this.user == user && this.token == token
    {
      this.apiKey := apiKey;
      this.user := user;
      this.token := token;
    }
  }

  datatype Action =
    | NewVideoClient(video: VideoClient)
    | ChatDisconnect
    | ChatConnect(user: User, token: string)
    | VideoDisconnect(video: VideoClient)

  /** The hook instance: its React state, its ref slots and the actions it issued. */
  class Hook {
    var videoClient: VideoClient?
    var chatClient: ChatClient?
    var refVideo: VideoClient?
    var refChat: ChatClient?
    var log: seq<Action>

    constructor ()
      ensures videoClient == null && chatClient == null && refVideo == null && refChat == null
      ensures log == []
    {
      videoClient := null;
      chatClient := null;
      refVideo := null;
      refChat := null;
      log := [];
    }
  }

  /** Where a run's async `initClients` stands. */
  datatype Phase = AwaitingDisconnect | AwaitingConnect | Finished | Failed

  // ---------------------------------------------------------------------
  // The reconnect decision, for a run that no other run interleaves with.

  datatype ChatStep = Disconnect | Connect

  datatype InitResult = InitResult(steps: seq<ChatStep>, userID: Option<string>, published: bool)

  /** Bound to a user other than `userId`. */
  predicate BoundToOther(bound: Option<string>, userId: string)
  {
    Truthy(bound) && bound.value != userId
  }

  /** The singleton's userID at the re-check, after the optional disconnect settled. */
  function AtRecheck(bound: Option<string>, userId: string, disconnect: Outcome): Option<string>
  {
    if BoundToOther(bound, userId) && disconnect.Resolved? then None else bound
  }

  /**
   * The chat calls an uninterrupted run issues, the singleton's final
   * userID and whether the run publishes its clients, given how the
   * disconnect and connect calls settle.
   */
  function Reconcile(bound: Option<string>, userId: string, disconnect: Outcome, connect: Outcome): (r: InitResult)
    // bound to this user already: neither disconnect nor connect, and the clients are published
    ensures Truthy(bound) && bound.value == userId ==> r == InitResult([], bound, true)
    // bound to another user: the disconnect comes first, and a connect can only follow it
    ensures BoundToOther(bound, userId) <==> (|r.steps| >= 1 && r.steps[0] == Disconnect)
    ensures r.steps == [] || r.steps == [Disconnect] || r.steps == [Connect] || r.steps == [Disconnect, Connect]
    // connect exactly when the singleton is unbound at the re-check
    ensures Connect in r.steps <==> !Truthy(AtRecheck(bound, userId, disconnect))
    // a failed connect publishes nothing and leaves the singleton as it was at the re-check
    ensures Connect in r.steps && connect.Rejected? ==> !r.published && r.userID == AtRecheck(bound, userId, disconnect)
    ensures Connect in r.steps && connect.Resolved? ==> r.published && r.userID == Some(userId)
    // a swallowed disconnect failure does not abort the run: it publishes a client still bound to the other user
    ensures BoundToOther(bound, userId) && disconnect.Rejected? ==> r.published && r.userID == bound
  {
    var first := if BoundToOther(bound, userId) then [Disconnect] else [];
    var recheck := AtRecheck(bound, userId, disconnect);
    if !Truthy(recheck) then
      InitResult(first + [Connect], if connect.Resolved? then Some(userId) else recheck, connect.Resolved?)
    else
      InitResult(first, recheck, true)
  }

  function ChatActions(steps: seq<ChatStep>, user: User, token: string): (acts: seq<Action>)
    ensures |acts| == |steps|
  {
    if steps == [] then []
    else
      (if steps[0] == Disconnect then [ChatDisconnect] else [ChatConnect(user, token)])
      + ChatActions(steps[1..], user, token)
  }

  // ---------------------------------------------------------------------
  // One effect run: the closure's local variables and its async continuation.

  class Run {
    const hook: Hook
    const chat: ChatClient
    const apiKey: string
    const user: User
    const token: string
    var isMounted: bool
    var localVideo: VideoClient?
    var localChat: ChatClient?
    var phase: Phase

    ghost predicate Valid()
      reads this
    {
      && localVideo != null
      && (localChat != null <==> phase.Finished?)
      && (localChat != null ==> localChat == chat)
    }

    /** Whether the hook's state and refs hold this run's clients. */
    predicate PublishedIn(h: Hook)
      reads this, h
    {
      h.videoClient == localVideo && h.chatClient == chat && h.refVideo == localVideo && h.refChat == chat
    }

    constructor (hook: Hook, chat: ChatClient, apiKey: string, user: User, token: string)
      ensures this.hook == hook && this.chat == chat && this.apiKey == apiKey
      ensures this.user == user && this.token == token
      ensures isMounted && localVideo == null && localChat == null
    {
      this.hook := hook;
      this.chat := chat;
      this.apiKey := apiKey;
      this.user := user;
      this.token := token;
      isMounted := true;
      localVideo := null;
      localChat := null;
      phase := Failed;
    }

    /**
     * The synchronous part of `initClients`: construct the video client,
     * then disconnect the singleton if it is bound to another user, or else
     * go straight to the re-check.
     */
    method InitClients()
      requires localVideo == null && localChat == null && isMounted
      modifies this, hook, chat
      ensures Valid() && isMounted && fresh(localVideo)
      ensures localVideo.apiKey == apiKey && localVideo.user == user && localVideo.token == token
      ensures BoundToOther(old(chat.userID), user.id) ==>
        && phase.AwaitingDisconnect? && chat.userID == old(chat.userID)
        && hook.log == old(hook.log) + [NewVideoClient(localVideo), ChatDisconnect]
        && unchanged(hook`videoClient, hook`chatClient, hook`refVideo, hook`refChat)
      ensures !BoundToOther(old(chat.userID), user.id) ==>
        Rechecked(old(hook.log) + [NewVideoClient(localVideo)], old(hook.videoClient), old(hook.chatClient),
          old(hook.refVideo), old(hook.refChat), old(chat.userID))
    {
      var myVideoClient := new VideoClient(apiKey, user, token);
      localVideo := myVideoClient;
      hook.log := hook.log + [NewVideoClient(myVideoClient)];
      if Truthy(chat.userID) && chat.userID.value != user.id {
        hook.log := hook.log + [ChatDisconnect];
        phase := AwaitingDisconnect;
      } else {
        Recheck();
      }
    }

    /**
     * The state after the re-check, from the log, hook state and singleton
     * userID before it: connect if the singleton is unbound, otherwise
     * finish and publish if still mounted.
     */
    ghost predicate Rechecked(log0: seq<Action>, video0: VideoClient?, chat0: ChatClient?,
                              refVideo0: VideoClient?, refChat0: ChatClient?, bound: Option<string>)
      reads this, hook, chat
    {
      && chat.userID == bound
      && (!Truthy(bound) ==>
        && phase.AwaitingConnect? && hook.log == log0 + [ChatConnect(user, token)]
        && hook.videoClient == video0 && hook.chatClient == chat0
        && hook.refVideo == refVideo0 && hook.refChat == refChat0)
      && (Truthy(bound) ==>
        && phase.Finished? && hook.log == log0
        && (isMounted ==> PublishedIn(hook))
        && (!isMounted ==> hook.videoClient == video0 && hook.chatClient == chat0
                           && hook.refVideo == refVideo0 && hook.refChat == refChat0))
    }

    /** `if (!myChatClient.userID) await connectUser(user, token)`, or finish at once. */
    method Recheck()
      requires localVideo != null && localChat == null
      modifies this`localChat, this`phase, hook
      ensures Valid()
      ensures Rechecked(old(hook.log), old(hook.videoClient), old(hook.chatClient),
        old(hook.refVideo), old(hook.refChat), old(chat.userID))
    {
      if !Truthy(chat.userID) {
        hook.log := hook.log + [ChatConnect(user, token)];
        phase := AwaitingConnect;
      } else {
        Finish();
      }
    }

    /** Keep the chat client and publish both clients, but only while mounted. */
    method Finish()
      requires localVideo != null
      modifies this`localChat, this`phase, hook`videoClient, hook`chatClient, hook`refVideo, hook`refChat
      ensures Valid() && phase.Finished? && localChat == chat
      ensures isMounted ==> PublishedIn(hook)
      ensures !isMounted ==> unchanged(hook`videoClient, hook`chatClient, hook`refVideo, hook`refChat)
    {
      localChat := chat;
      phase := Finished;
      if isMounted {
        hook.videoClient := localVideo;
        hook.chatClient := chat;
        hook.refVideo := localVideo;
        hook.refChat := chat;
      }
    }

    /**
     * The awaited disconnect settles. A rejection is swallowed; a
     * resolution unbinds the singleton. Either way the run goes on to the
     * re-check, which reads the singleton's userID as it is now.
     */
    method ResumeDisconnect(outcome: Outcome)
      requires Valid() && phase.AwaitingDisconnect?
      modifies this, hook, chat
      ensures Valid()
      ensures isMounted == old(isMounted) && localVideo == old(localVideo)
      ensures Rechecked(old(hook.log), old(hook.videoClient), old(hook.chatClient),
        old(hook.refVideo), old(hook.refChat), if outcome.Resolved? then None else old(chat.userID))
    {
      if outcome.Resolved? {
        chat.userID := None;
      }
      Recheck();
    }

    /**
     * The awaited connect settles. A rejection ends the run in its catch
     * block: nothing is kept and nothing is published. A resolution binds
     * the singleton to this user and finishes the run.
     */
    method ResumeConnect(outcome: Outcome)
      requires Valid() && phase.AwaitingConnect?
      modifies this, hook, chat
      ensures Valid()
      ensures isMounted == old(isMounted) && localVideo == old(localVideo) && hook.log == old(hook.log)
      ensures outcome.Rejected? ==>
        && phase.Failed? && localChat == null && chat.userID == old(chat.userID)
        && unchanged(hook)
      ensures outcome.Resolved? ==>
        && phase.Finished? && localChat == chat && chat.userID == Some(user.id)
        && (isMounted ==> PublishedIn(hook))
        && (!isMounted ==> unchanged(hook))
    {
      if outcome.Rejected? {
        phase := Failed;
        return;
      }
      chat.userID := Some(user.id);
      Finish();
    }

    /**
     * The effect's cleanup. The run is marked unmounted; each client this
     * run obtained is disconnected, whatever other runs did since; each ref
     * slot is cleared only if it still holds this run's client. The chat
     * disconnect is not awaited; `chatDisconnect` is how it settles.
     */
    method Cleanup(chatDisconnect: Outcome)
      requires Valid()
      modifies this`isMounted, hook`log, hook`refVideo, hook`refChat, chat
      ensures Valid() && !isMounted
      ensures hook.log == old(hook.log) + [VideoDisconnect(localVideo)] + (if localChat != null then [ChatDisconnect] else [])
      ensures chat.userID == if localChat != null && chatDisconnect.Resolved? then None else old(chat.userID)
      ensures hook.refVideo == if old(hook.refVideo) == localVideo then null else old(hook.refVideo)
      ensures hook.refChat == if old(hook.refChat) == localChat then null else old(hook.refChat)
    {
      isMounted := false;
      if localVideo != null {
        hook.log := hook.log + [VideoDisconnect(localVideo)];
      }
      if localChat != null {
        hook.log := hook.log + [ChatDisconnect];
        if chatDisconnect.Resolved? {
          chat.userID := None;
        }
      }
      if hook.refVideo == localVideo {
        hook.refVideo := null;
      }
      if hook.refChat == localChat {
        hook.refChat := null;
      }
    }
  }

  /** Whether the effect has all it needs: `user && token && apiKey`. */
  predicate CanInit(apiKey: Option<string>, user: Option<User>, token: Option<string>)
  {
    Truthy(apiKey) && user.Some? && Truthy(token)
  }

  /**
   * One run of the effect: without a user, a token and an API key it does
   * nothing and installs no cleanup; otherwise it starts a run whose
   * `Cleanup` is the returned cleanup.
   */
  method RunEffect(hook: Hook, chat: ChatClient, apiKey: Option<string>, user: Option<User>, token: Option<string>)
    returns (run: Run?)
    modifies hook, chat
    ensures !CanInit(apiKey, user, token) ==> run == null && unchanged(hook, chat)
    ensures CanInit(apiKey, user, token) ==>
      && run != null && fresh(run) && run.Valid() && run.isMounted
      && run.hook == hook && run.chat == chat
      && run.apiKey == apiKey.value && run.user == user.value && run.token == token.value
      && fresh(run.localVideo)
      && (BoundToOther(old(chat.userID), user.value.id) ==>
        && run.phase.AwaitingDisconnect? && chat.userID == old(chat.userID)
        && hook.log == old(hook.log) + [NewVideoClient(run.localVideo), ChatDisconnect]
        && unchanged(hook`videoClient, hook`chatClient, hook`refVideo, hook`refChat))
      && (!BoundToOther(old(chat.userID), user.value.id) ==>
        run.Rechecked(old(hook.log) + [NewVideoClient(run.localVideo)], old(hook.videoClient), old(hook.chatClient),
          old(hook.refVideo), old(hook.refChat), old(chat.userID)))
  {
    if !CanInit(apiKey, user, token) {
      return null;
    }
    run := new Run(hook, chat, apiKey.value, user.value, token.value);
    run.InitClients();
  }

  /**
   * A run that nothing interrupts issues exactly the chat calls Reconcile
   * lists, after constructing its video client, leaves the singleton bound
   * as Reconcile says, and publishes both clients exactly when Reconcile
   * says it does.
   */
  method InitUninterrupted(hook: Hook, chat: ChatClient, apiKey: string, user: User, token: string,
                           disconnect: Outcome, connect: Outcome)
    returns (run: Run)
    requires apiKey != "" && token != ""
    modifies hook, chat
    ensures fresh(run) && run.Valid() && run.isMounted && fresh(run.localVideo)
    ensures run.hook == hook && run.chat == chat && run.user == user && run.token == token
    ensures run.phase.Finished? <==> Reconcile(old(chat.userID), user.id, disconnect, connect).published
    ensures var r := Reconcile(old(chat.userID), user.id, disconnect, connect);
      && hook.log == old(hook.log) + [NewVideoClient(run.localVideo)] + ChatActions(r.steps, user, token)
      && chat.userID == r.userID
      && (r.published ==> run.PublishedIn(hook))
      && (!r.published ==> unchanged(hook`videoClient, hook`chatClient, hook`refVideo, hook`refChat))
  {
    var started := RunEffect(hook, chat, Some(apiKey), Some(user), Some(token));
    run := started;
    if run.phase.AwaitingDisconnect? {
      run.ResumeDisconnect(disconnect);
    }
    if run.phase.AwaitingConnect? {
      run.ResumeConnect(connect);
    }
  }

  /**
   * The hook unmounts while the connect is still pending: the cleanup finds
   * no chat client to disconnect, the connect then binds the singleton, and
   * nothing is published. The singleton stays connected for this user with
   * no disconnect issued after the connect.
   */
  method UnmountDuringConnect(apiKey: string, user: User, token: string) returns (hook: Hook, chat: ChatClient)
    requires apiKey != "" && token != ""
    ensures chat.userID == Some(user.id) && ChatDisconnect !in hook.log
    ensures hook.videoClient == null && hook.chatClient == null && hook.refVideo == null && hook.refChat == null
  {
    hook := new Hook();
    chat := new ChatClient();
    var run := RunEffect(hook, chat, Some(apiKey), Some(user), Some(token));
    assert run.phase.AwaitingConnect?;
    assert hook.log == [NewVideoClient(run.localVideo), ChatConnect(user, token)];
    run.Cleanup(Resolved);
    assert hook.log == [NewVideoClient(run.localVideo), ChatConnect(user, token), VideoDisconnect(run.localVideo)];
    run.ResumeConnect(Resolved);
    assert chat.userID == Some(user.id);
    assert hook.videoClient == null && hook.chatClient == null && hook.refChat == null;
    assert ChatDisconnect !in hook.log;
  }

  /**
   * Mounted for one user, then re-run for the same user after the first
   * run's cleanup: the cleanup disconnected the singleton, so the second
   * run connects again, and publishes its own video client.
   */
  method RemountSameUser(apiKey: string, user: User, token: string) returns (hook: Hook, chat: ChatClient)
    requires apiKey != "" && token != ""
    ensures chat.userID == Some(user.id)
    ensures |hook.log| == 6 && hook.log[1] == ChatConnect(user, token) && hook.log[3] == ChatDisconnect
    ensures hook.log[5] == ChatConnect(user, token)
  {
    hook := new Hook();
    chat := new ChatClient();
    var first := InitUninterrupted(hook, chat, apiKey, user, token, Resolved, Resolved);
    assert chat.userID == Some(user.id) && first.PublishedIn(hook);
    first.Cleanup(Resolved);
    assert chat.userID.None? && hook.refVideo == null && hook.refChat == null;
    var log0 := hook.log;
    var second := InitUninterrupted(hook, chat, apiKey, user, token, Resolved, Resolved);
    assert hook.log == log0 + [NewVideoClient(second.localVideo), ChatConnect(user, token)];
    assert second.PublishedIn(hook) && second.localVideo != first.localVideo;
  }

  /**
   * The connect is rejected: nothing is published, and the run's cleanup
   * still disconnects the video client it constructed, but issues no chat
   * disconnect because the run never kept the chat client.
   */
  method FailedConnectThenCleanup(apiKey: string, user: User, token: string) returns (hook: Hook, chat: ChatClient)
    requires apiKey != "" && token != ""
    ensures chat.userID.None? && hook.videoClient == null && hook.chatClient == null
    ensures |hook.log| == 3 && hook.log[2].VideoDisconnect? && ChatDisconnect !in hook.log
  {
    hook := new Hook();
    chat := new ChatClient();
    var run := RunEffect(hook, chat, Some(apiKey), Some(user), Some(token));
    run.ResumeConnect(Rejected("unauthorized"));
    assert hook.videoClient == null && hook.chatClient == null && chat.userID.None?;
    run.Cleanup(Resolved);
    assert hook.log == [NewVideoClient(run.localVideo), ChatConnect(user, token), VideoDisconnect(run.localVideo)];
  }
}
