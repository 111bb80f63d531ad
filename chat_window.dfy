/**
  The conversation pane (`ChatWindow.jsx`): how stored message documents become chat
  bubbles, the play guard of a bubble's speaker button, and the `sendMessage` flow with
  its guard, lazy session creation, title and timestamp writes and error document.
  The backend calls are oracles; the Firestore writes are applied to an abstract store.
 */
module ChatWindow {
  import opened Wrappers
  import opened Text
  import InputBar
  import AiCore

  // ---------------------------------------------------------------------------------------
  // Flattening stored documents into bubbles

  datatype Sender = User | Bot

  /**
    A message document as the listener delivers it. A missing or empty `input_text` or
    `gpt_response` is "" (both are falsy); a missing `isError` is false.
   */
  datatype StoredMessage = StoredMessage(id: string, inputText: string, gptResponse: string, isError: bool)

  /** One rendered bubble. */
  datatype Bubble = Bubble(id: string, text: string, sender: Sender, isError: bool)

  const ErrorReply: string := "Sorry, I'm having trouble responding right now."

  /** The document `sendMessage` adds when a reply fails. */
  function ErrorDocument(id: string): StoredMessage {
    StoredMessage(id, "", ErrorReply, true)
  }

  /**
    The bubbles of one document: a user bubble when `input_text` is truthy, then a bot
    bubble when `gpt_response` is truthy.
   */
  function DocumentBubbles(m: StoredMessage): (bubbles: seq<Bubble>)
    ensures |bubbles| == (if m.inputText != [] then 1 else 0) + (if m.gptResponse != [] then 1 else 0)
    ensures m.inputText != [] ==> bubbles[0] == Bubble(m.id + "-user", m.inputText, User, false)
    ensures m.gptResponse != [] ==> bubbles[|bubbles| - 1] == Bubble(m.id + "-bot", m.gptResponse, Bot, m.isError)
    ensures forall k :: 0 <= k < |bubbles| && bubbles[k].sender == User ==> !bubbles[k].isError
  {
    (if m.inputText != [] then [Bubble(m.id + "-user", m.inputText, User, false)] else [])
    + (if m.gptResponse != [] then [Bubble(m.id + "-bot", m.gptResponse, Bot, m.isError)] else [])
  }

  /** `messages.map(...).flat()`: every document's bubbles, in document order. */
  function Flatten(messages: seq<StoredMessage>): (bubbles: seq<Bubble>)
    ensures |bubbles| <= 2 * |messages|
    ensures forall k :: 0 <= k < |bubbles| && bubbles[k].sender == User ==> !bubbles[k].isError
  {
    if messages == [] then []
    else Flatten(messages[..|messages| - 1]) + DocumentBubbles(messages[|messages| - 1])
  }

  /** Flattening distributes over concatenation: documents keep their order. */
  lemma {:induction false} FlattenAppend(a: seq<StoredMessage>, b: seq<StoredMessage>)
    ensures Flatten(a + b) == Flatten(a) + Flatten(b)
    decreases |b|
  {
    if b == [] {
      assert a + b == a;
    } else {
      var init := b[..|b| - 1];
      assert (a + b)[..|a + b| - 1] == a + init;
      assert (a + b)[|a + b| - 1] == b[|b| - 1];
      FlattenAppend(a, init);
    }
  }

  /** The bubbles of document `i` sit between those of the documents before and after it. */
  lemma FlattenAt(messages: seq<StoredMessage>, i: int)
    requires 0 <= i < |messages|
    ensures Flatten(messages) == Flatten(messages[..i]) + DocumentBubbles(messages[i]) + Flatten(messages[i + 1..])
  {
    var pre, m, post := messages[..i], messages[i], messages[i + 1..];
    SplitAt(messages, i);
    FlattenAppend(pre + [m], post);
    FlattenAppend(pre, [m]);
    assert [m][..0] == [];
  }

  lemma SplitAt<T>(s: seq<T>, i: int)
    requires 0 <= i < |s|
    ensures s == (s[..i] + [s[i]]) + s[i + 1..]
  {
    assert s[..i + 1] == s[..i] + [s[i]];
    assert s == s[..i + 1] + s[i + 1..];
  }

  /** An error document renders as exactly one bot bubble flagged as an error. */
  lemma ErrorDocumentRendersOneBubble(id: string)
    ensures DocumentBubbles(ErrorDocument(id)) == [Bubble(id + "-bot", ErrorReply, Bot, true)]
  {
  }

  // ---------------------------------------------------------------------------------------
  // MessageBubble's speaker button

  /** One bubble on screen, with its `isPlaying` state and the play requests it has made. */
  class MessageBubble {
    const isUser: bool
    const isTyping: bool
    /** Whether an `onPlayAudio` handler was passed: only for bot messages. */
    const hasPlayHandler: bool
    var isPlaying: bool
    var playRequests: nat

    /** A rendered message: play is offered exactly for bot messages. */
    constructor (b: Bubble)
      ensures isUser == (b.sender == User) && !isTyping && hasPlayHandler == (b.sender == Bot)
      ensures !isPlaying && playRequests == 0
    {
      isUser := b.sender == User;
      isTyping := false;
      hasPlayHandler := b.sender == Bot;
      isPlaying := false;
      playRequests := 0;
    }

    /** The typing indicator shown while a reply is pending: a bot bubble without a handler. */
    constructor TypingIndicator()
      ensures !isUser && isTyping && !hasPlayHandler && !isPlaying && playRequests == 0
    {
      isUser := false;
      isTyping := true;
      hasPlayHandler := false;
      isPlaying := false;
      playRequests := 0;
    }

    /** The speaker button is shown for a settled bot message that has a handler. */
    function ShowsSpeaker(): (shown: bool)
      reads this
    {
      !isUser && !isTyping && hasPlayHandler
    }

    /** `handlePlayAudio`: start playback unless there is no handler or one is already playing. */
    method HandlePlayAudio()
      modifies this
      ensures hasPlayHandler && !old(isPlaying) ==> isPlaying && playRequests == old(playRequests) + 1
      ensures !(hasPlayHandler && !old(isPlaying)) ==> isPlaying == old(isPlaying) && playRequests == old(playRequests)
    {
      if hasPlayHandler && !isPlaying {
        isPlaying := true;
        playRequests := playRequests + 1;
      }
    }

    /** The `finally` after playback resolves or fails. */
    method PlaybackSettled()
      modifies this
      ensures !isPlaying && playRequests == old(playRequests)
    {
      isPlaying := false;
    }
  }

  /** A bubble built from a rendered message shows the speaker exactly when it is a bot message. */
  method RenderedBubbleSpeaker(b: Bubble) returns (shown: bool)
    ensures shown <==> b.sender == Bot
  {
    var bubble := new MessageBubble(b);
    shown := bubble.ShowsSpeaker();
  }

  /** A second press while audio plays makes no second request; after it settles, play works again. */
  method PressTwiceThenSettle(b: Bubble) returns (requests: nat)
    requires b.sender == Bot
    ensures requests == 2
  {
    var bubble := new MessageBubble(b);
    bubble.HandlePlayAudio();
    bubble.HandlePlayAudio();
    assert bubble.playRequests == 1;
    bubble.PlaybackSettled();
    bubble.HandlePlayAudio();
    requests := bubble.playRequests;
  }

  // ---------------------------------------------------------------------------------------
  // sendMessage

  /** Where a document lives: `conversations/<user>/sessions/<session>`. */
  datatype SessionPath = SessionPath(userId: string, sessionId: string)

  /** The Firestore data the flow writes: session titles and timestamps, and message documents. */
  datatype Store = Store(
    titles: map<SessionPath, string>,
    lastUpdated: map<SessionPath, int>,
    messages: map<SessionPath, seq<StoredMessage>>)

  /** The reply endpoint's answer; a missing or empty title is "". */
  datatype Answer = Answer(reply: string, title: string)

  /** One observable step of the flow, in order. */
  datatype Effect =
    | CreateSession
    | SelectSession(sessionId: string)
    | RequestReply(sessionId: string, text: string)
    | WriteTitle(sessionId: string, title: string)
    | WriteTimestamp(sessionId: string, time: int)
    | AddErrorDocument(sessionId: string, document: StoredMessage)

  /** What a step does to the store of user `uid`. */
  function Apply(store: Store, uid: string, e: Effect): Store {
    match e
    case WriteTitle(sid, title) => store.(titles := store.titles[SessionPath(uid, sid) := title])
    case WriteTimestamp(sid, time) => store.(lastUpdated := store.lastUpdated[SessionPath(uid, sid) := time])
    case AddErrorDocument(sid, document) =>
      var path := SessionPath(uid, sid);
      var existing := if path in store.messages then store.messages[path] else [];
      store.(messages := store.messages[path := existing + [document]])
    case _ => store
  }

  function ApplyAll(store: Store, uid: string, effects: seq<Effect>): Store {
    if effects == [] then store
    else Apply(ApplyAll(store, uid, effects[..|effects| - 1]), uid, effects[|effects| - 1])
  }

  lemma ApplyAllSnoc(store: Store, uid: string, effects: seq<Effect>, e: Effect)
    ensures ApplyAll(store, uid, effects + [e]) == Apply(ApplyAll(store, uid, effects), uid, e)
  {
    assert (effects + [e])[..|effects|] == effects;
  }

  /** Applying two runs of steps one after the other is applying their concatenation. */
  lemma {:induction false} ApplyAllAppend(store: Store, uid: string, xs: seq<Effect>, ys: seq<Effect>)
    ensures ApplyAll(store, uid, xs + ys) == ApplyAll(ApplyAll(store, uid, xs), uid, ys)
    decreases |ys|
  {
    if ys == [] {
      assert xs + ys == xs;
    } else {
      var init := ys[..|ys| - 1];
      assert (xs + ys)[..|xs + ys| - 1] == xs + init;
      ApplyAllAppend(store, uid, xs, init);
    }
  }

  lemma AppendAssociates<T>(a: seq<T>, b: seq<T>, c: seq<T>)
    ensures (a + b) + c == a + (b + c)
  {
  }

  /** A session id is truthy. */
  predicate HasSession(sessionId: Option<string>) {
    sessionId.Some? && sessionId.value != []
  }

  /** The session the reply is requested for: the current one, or the one just created. */
  function Target(sessionId: Option<string>, created: Option<string>): Option<string> {
    if HasSession(sessionId) then sessionId else created
  }

  /** The reply request failed: no session could be created, or the endpoint raised. */
  predicate SendFails(sessionId: Option<string>, inputText: string, created: Option<string>,
                      backend: (string, string) -> Option<Answer>) {
    var target := Target(sessionId, created);
    target.None? || backend(target.value, inputText).None?
  }

  /**
    The steps of one `sendMessage` for a non-blank trimmed input and a signed-in user.
    `created` is the new session id when `/sessions/new` succeeds, `backend` the reply
    endpoint, `now` the server timestamp, and `errorDocId` the id the error document gets.
   */
  function SendEffects(sessionId: Option<string>, inputText: string, created: Option<string>,
                       backend: (string, string) -> Option<Answer>, now: int, errorDocId: string): seq<Effect>
  {
    var target := Target(sessionId, created);
    Opening(sessionId, created)
    + if target.None? then []
      else [RequestReply(target.value, inputText)]
           + Outcome(sessionId, target.value, backend(target.value, inputText), now, errorDocId)
  }

  /** The session-creation block: nothing when a session is selected. */
  function Opening(sessionId: Option<string>, created: Option<string>): seq<Effect> {
    if HasSession(sessionId) then []
    else [CreateSession] + (if created.Some? then [SelectSession(created.value)] else [])
  }

  /**
    After the reply request for `target`: on an answer, the title write when the title is
    truthy and the timestamp write; on a failure, the error document under the session
    that was selected when the send began, when there was one.
   */
  function Outcome(sessionId: Option<string>, target: string, answer: Option<Answer>,
                   now: int, errorDocId: string): seq<Effect> {
    match answer
    case Some(a) =>
      (if a.title != [] then [WriteTitle(target, a.title)] else []) + [WriteTimestamp(target, now)]
    case None =>
      if HasSession(sessionId) then [AddErrorDocument(sessionId.value, ErrorDocument(errorDocId))] else []
  }

  /** A session is created exactly when none is selected, and the reply is requested first otherwise. */
  lemma SendCreatesSessionOnlyWhenNoneSelected(sessionId: Option<string>, inputText: string, created: Option<string>,
                                               backend: (string, string) -> Option<Answer>, now: int, errorDocId: string)
    ensures var effects := SendEffects(sessionId, inputText, created, backend, now, errorDocId);
      && effects != []
      && (CreateSession in effects <==> !HasSession(sessionId))
      && (HasSession(sessionId) ==> effects[0] == RequestReply(sessionId.value, inputText))
      && (!HasSession(sessionId) ==> effects[0] == CreateSession)
  {
  }

  /**
    A created session is selected before the reply is requested for it; when creation fails
    nothing else happens.
   */
  lemma SendSelectsCreatedSessionFirst(sessionId: Option<string>, inputText: string, created: Option<string>,
                                       backend: (string, string) -> Option<Answer>, now: int, errorDocId: string)
    requires !HasSession(sessionId)
    ensures var effects := SendEffects(sessionId, inputText, created, backend, now, errorDocId);
      && (created.Some? ==>
            |effects| >= 3 && effects[1] == SelectSession(created.value)
            && effects[2] == RequestReply(created.value, inputText))
      && (created.None? ==> effects == [CreateSession])
  {
  }

  /**
    On an answer the last step writes the timestamp of the target session, the title is
    written exactly when it is truthy, and no error document is added.
   */
  lemma SendSuccessWrites(sessionId: Option<string>, inputText: string, created: Option<string>,
                          backend: (string, string) -> Option<Answer>, now: int, errorDocId: string)
    requires !SendFails(sessionId, inputText, created, backend)
    ensures var effects := SendEffects(sessionId, inputText, created, backend, now, errorDocId);
      var target := Target(sessionId, created).value;
      var answer := backend(target, inputText).value;
      && effects[|effects| - 1] == WriteTimestamp(target, now)
      && (WriteTitle(target, answer.title) in effects <==> answer.title != [])
      && forall k :: 0 <= k < |effects| ==> !effects[k].AddErrorDocument?
  {
  }

  /**
    On a failure nothing is written to the session, and the error document is added exactly
    when a session was selected when the send began, under that session.
   */
  lemma SendFailureErrorDocument(sessionId: Option<string>, inputText: string, created: Option<string>,
                                 backend: (string, string) -> Option<Answer>, now: int, errorDocId: string)
    requires SendFails(sessionId, inputText, created, backend)
    ensures var effects := SendEffects(sessionId, inputText, created, backend, now, errorDocId);
      && (forall k :: 0 <= k < |effects| ==> !effects[k].WriteTitle? && !effects[k].WriteTimestamp?)
      && (HasSession(sessionId) ==> AddErrorDocument(sessionId.value, ErrorDocument(errorDocId)) in effects)
      && (!HasSession(sessionId) ==> forall k :: 0 <= k < |effects| ==> !effects[k].AddErrorDocument?)
  {
  }

  /**
    The reply endpoint as wired: `sendMessageToBackend` resolves to the `/text` route's body,
    whose keys are `gpt_response`, `text_emotion` and `tone_emotion`; destructuring `reply`
    and `title` from it gives `undefined` for both, which the flow sees as "".
   */
  function TextRouteBackend(route: (string, string) -> Option<AiCore.Analysis>): (string, string) -> Option<Answer> {
    (sid: string, text: string) => if route(sid, text).Some? then Some(Answer("", "")) else None
  }

  /** With the `/text` route behind it, the flow never writes a title, though it stamps every success. */
  lemma TextRouteNeverWritesTitle(sessionId: Option<string>, inputText: string, created: Option<string>,
                                  route: (string, string) -> Option<AiCore.Analysis>, now: int, errorDocId: string)
    ensures var effects := SendEffects(sessionId, inputText, created, TextRouteBackend(route), now, errorDocId);
      forall k :: 0 <= k < |effects| ==> !effects[k].WriteTitle?
  {
  }

  /** A reply failure after a lazily created session leaves no error document. */
  lemma NoErrorDocumentForNewSession(inputText: string, id: string,
                                     backend: (string, string) -> Option<Answer>, now: int, errorDocId: string)
    requires backend(id, inputText).None?
    ensures forall e :: e in SendEffects(None, inputText, Some(id), backend, now, errorDocId) ==> !e.AddErrorDocument?
    ensures SendEffects(None, inputText, Some(id), backend, now, errorDocId)
            == [CreateSession, SelectSession(id), RequestReply(id, inputText)]
  {
  }

  /** The chat pane's state and its props. */
  class ChatWindowState {
    /** The signed-in user's uid, if any (prop). */
    var user: Option<string>
    /** The selected session (prop); `setSessionId` changes it in the parent, seen here as an effect. */
    var sessionId: Option<string>
    var sending: bool
    var store: Store
    /** Every step taken so far, oldest first. */
    var effects: seq<Effect>

    constructor (user: Option<string>, sessionId: Option<string>, store: Store)
      ensures this.user == user && this.sessionId == sessionId && this.store == store
      ensures !sending && effects == []
    {
      this.user := user;
      this.sessionId := sessionId;
      this.sending := false;
      this.store := store;
      this.effects := [];
    }

    /** Records one step and applies its write to the store of `uid`. */
    method Emit(uid: string, e: Effect)
      modifies this
      ensures effects == old(effects) + [e] && store == Apply(old(store), uid, e)
      ensures user == old(user) && sessionId == old(sessionId) && sending == old(sending)
    {
      effects := effects + [e];
      store := Apply(store, uid, e);
    }

    /** The session-creation block; `target` is the session the reply is then requested for. */
    method OpenSession(uid: string, created: Option<string>) returns (target: Option<string>)
      modifies this
      ensures target == Target(old(sessionId), created)
      ensures effects == old(effects) + Opening(old(sessionId), created)
      ensures store == ApplyAll(old(store), uid, Opening(old(sessionId), created))
      ensures user == old(user) && sessionId == old(sessionId) && sending == old(sending)
    {
      target := sessionId;
      if !HasSession(sessionId) {
        Emit(uid, CreateSession);
        ApplyAllSnoc(old(store), uid, [], CreateSession);
        target := created;
        if created.Some? {
          Emit(uid, SelectSession(created.value));
          ApplyAllSnoc(old(store), uid, [CreateSession], SelectSession(created.value));
          assert [CreateSession] + [SelectSession(created.value)] == Opening(sessionId, created);
        }
      }
    }

    /** The reply request for `target` and the writes that follow it, or the error document. */
    method RequestAndRecord(uid: string, target: string, inputText: string,
                            backend: (string, string) -> Option<Answer>, now: int, errorDocId: string)
      modifies this
      ensures var steps := [RequestReply(target, inputText)]
                           + Outcome(old(sessionId), target, backend(target, inputText), now, errorDocId);
        effects == old(effects) + steps && store == ApplyAll(old(store), uid, steps)
      ensures user == old(user) && sessionId == old(sessionId) && sending == old(sending)
    {
      var request := RequestReply(target, inputText);
      Emit(uid, request);
      ApplyAllSnoc(old(store), uid, [], request);
      var answer := backend(target, inputText);
      if answer.Some? {
        ghost var done := [request];
        if answer.value.title != [] {
          var write := WriteTitle(target, answer.value.title);
          Emit(uid, write);
          ApplyAllSnoc(old(store), uid, done, write);
          done := done + [write];
        }
        var stamp := WriteTimestamp(target, now);
        Emit(uid, stamp);
        ApplyAllSnoc(old(store), uid, done, stamp);
        assert done + [stamp] == [request] + Outcome(sessionId, target, answer, now, errorDocId);
      } else if HasSession(sessionId) {
        var e := AddErrorDocument(sessionId.value, ErrorDocument(errorDocId));
        Emit(uid, e);
        ApplyAllSnoc(old(store), uid, [request], e);
      } else {
        assert [request] + Outcome(sessionId, target, answer, now, errorDocId) == [request];
      }
    }

    /**
      `sendMessage(text)`: nothing (and `sending` untouched) for blank text or no user;
      otherwise the steps of `SendEffects` on the trimmed text, with their writes applied to
      the user's store, and `sending` false afterwards.
     */
    method SendMessage(text: string, created: Option<string>, backend: (string, string) -> Option<Answer>,
                       now: int, errorDocId: string)
      modifies this
      ensures user == old(user) && sessionId == old(sessionId)
      ensures IsBlank(text, IsJsSpace) || old(user).None? ==>
        sending == old(sending) && store == old(store) && effects == old(effects)
      ensures !IsBlank(text, IsJsSpace) && old(user).Some? ==>
        var steps := SendEffects(old(sessionId), JsTrim(text), created, backend, now, errorDocId);
        && !sending
        && effects == old(effects) + steps
        && store == ApplyAll(old(store), old(user).value, steps)
    {
      var inputText := JsTrim(text);
      if inputText == [] || user.None? {
        return;
      }
      sending := true;
      var uid := user.value;
      ghost var steps := SendEffects(sessionId, inputText, created, backend, now, errorDocId);
      ghost var opening := Opening(sessionId, created);
      var target := OpenSession(uid, created);
      if target.Some? {
        RequestAndRecord(uid, target.value, inputText, backend, now, errorDocId);
        ghost var rest := [RequestReply(target.value, inputText)]
                          + Outcome(sessionId, target.value, backend(target.value, inputText), now, errorDocId);
        ApplyAllAppend(old(store), uid, opening, rest);
        AppendAssociates(old(effects), opening, rest);
        assert steps == opening + rest;
      } else {
        assert steps == opening + [];
        assert steps == opening;
      }
      sending := false;
    }

    /**
      `sendMessage` as it is wired to the input bar: the bar calls it with a payload object,
      and `text.trim()` on an object throws before anything happens, so the async call
      rejects and no state changes. A plain string behaves as `SendMessage`.
     */
    method ReceiveAsWired(arg: SendArgument, created: Option<string>, backend: (string, string) -> Option<Answer>,
                          now: int, errorDocId: string)
      modifies this
      ensures user == old(user) && sessionId == old(sessionId)
      ensures arg.FromInputBar? ==> sending == old(sending) && store == old(store) && effects == old(effects)
      ensures arg.PlainText? && !IsBlank(arg.text, IsJsSpace) && old(user).Some? ==>
        effects == old(effects) + SendEffects(old(sessionId), JsTrim(arg.text), created, backend, now, errorDocId)
    {
      match TrimArgument(arg)
      case Err(_) =>
      case Ok(_) =>
        SendMessage(arg.text, created, backend, now, errorDocId);
    }

    /**
      The evident intent: take the text out of the payload. The bar's text is already
      trimmed, so a non-blank payload runs the flow on exactly that text.
     */
    method ReceivePayload(p: InputBar.Payload, created: Option<string>, backend: (string, string) -> Option<Answer>,
                          now: int, errorDocId: string)
      modifies this
      ensures user == old(user) && sessionId == old(sessionId)
      ensures IsBlank(p.text, IsJsSpace) || old(user).None? ==>
        sending == old(sending) && store == old(store) && effects == old(effects)
      ensures IsStripped(p.text, IsJsSpace) && p.text != [] && old(user).Some? ==>
        var steps := SendEffects(old(sessionId), p.text, created, backend, now, errorDocId);
        && !sending
        && effects == old(effects) + steps
        && store == ApplyAll(old(store), old(user).value, steps)
    {
      if IsStripped(p.text, IsJsSpace) {
        StripStripped(p.text, IsJsSpace);
      }
      SendMessage(p.text, created, backend, now, errorDocId);
    }
  }

  /** What `sendMessage` may be called with: a string, or the input bar's payload object. */
  datatype SendArgument = PlainText(text: string) | FromInputBar(payload: InputBar.Payload)

  const TrimTypeError: string := "TypeError: text.trim is not a function"

  /** `text.trim()` on the argument: strings trim, a payload object has no `trim` and throws. */
  function TrimArgument(arg: SendArgument): (r: Result<string, string>)
    ensures r.Ok? <==> arg.PlainText?
    ensures r.Ok? ==> IsStripped(r.value, IsJsSpace) && (r.value == [] <==> IsBlank(arg.text, IsJsSpace))
  {
    match arg
    case PlainText(text) => Ok(JsTrim(text))
    case FromInputBar(_) => Err(TrimTypeError)
  }

  /**
    The input bar's "hello" is lost as wired, while the corrected receiver requests a reply
    for it in the selected session.
   */
  method InputBarMessageLost(backend: (string, string) -> Option<Answer>) returns (asWired: seq<Effect>, corrected: seq<Effect>)
    ensures asWired == []
    ensures corrected != [] && corrected[0] == RequestReply("s1", "hello")
  {
    var payload := InputBar.Payload("hello", None);
    var empty := Store(map[], map[], map[]);
    var wired := new ChatWindowState(Some("u1"), Some("s1"), empty);
    wired.ReceiveAsWired(FromInputBar(payload), None, backend, 0, "e1");
    asWired := wired.effects;
    var fixed := new ChatWindowState(Some("u1"), Some("s1"), empty);
    fixed.ReceivePayload(payload, None, backend, 0, "e1");
    corrected := fixed.effects;
    SendCreatesSessionOnlyWhenNoneSelected(Some("s1"), "hello", None, backend, 0, "e1");
  }
}
