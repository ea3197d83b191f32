/** The socket server of the backend: the handshake middleware that attaches an identity
    to a connection, and the two conversational turns, `ai-message` and `ai-image`.
    Each external collaborator (the message store's writes and reads, the embedding,
    memory-index and generation services) is a parameter that may fail. */
module SocketServer {
  import opened Common
  import opened ChatMemory

  // ---------------------------------------------------------------------------
  // Handshake (io.use)

  /** One call of the middleware's `next` callback. */
  datatype NextCall = Proceed | Reject(message: string)

  /** A user record as `userModel.findOne` returns it; only `_id` is read. */
  datatype User = User(id: UserId)

  /** Whether the middleware assigned `socket.user`, and to what (`findOne` may give null). */
  datatype SocketUser = Unassigned | Assigned(user: Option<User>)

  /** The outcome of `userModel.findOne({_id})`. */
  datatype Lookup = Found(user: User) | NotFound | LookupFailed

  const NoTokenError: string := "Authentication Error: No Token Provided"
  const InvalidTokenError: string := "Authentication Error: Invalid Token"

  /** The middleware as written. `token` is the `token` cookie (absent when there is no
      cookie header); `verify` stands for `jwt.verify`, giving the `id` claim of a token
      whose signature checks, and `findUser` for the user lookup. */
  method Handshake(token: Option<string>, verify: string -> Option<UserId>, findUser: UserId -> Lookup)
    returns (calls: seq<NextCall>, socketUser: SocketUser)
    ensures !Truthy(token) ==>
              calls == [Reject(NoTokenError), Reject(InvalidTokenError)] && socketUser == Unassigned
    ensures Truthy(token) && verify(token.value).None? ==>
              calls == [Reject(InvalidTokenError)] && socketUser == Unassigned
    ensures Truthy(token) && verify(token.value).Some? ==>
              match findUser(verify(token.value).value)
              case Found(u) => calls == [Proceed] && socketUser == Assigned(Some(u))
              case NotFound => calls == [Proceed] && socketUser == Assigned(None)
              case LookupFailed => calls == [Reject(InvalidTokenError)] && socketUser == Unassigned
    ensures socketUser.Assigned? <==> Proceed in calls
    ensures Proceed in calls ==> calls == [Proceed]
  {
    calls := [];
    socketUser := Unassigned;
    if !Truthy(token) {
      calls := calls + [Reject(NoTokenError)];
    }
    // jwt.verify throws on a missing or empty token before it looks at any signature
    var decoded := if Truthy(token) then verify(token.value) else None;
    if decoded.None? {
      calls := calls + [Reject(InvalidTokenError)];
      return;
    }
    match findUser(decoded.value)
    case LookupFailed =>
      calls := calls + [Reject(InvalidTokenError)];
    case NotFound =>
      socketUser := Assigned(None);
      calls := calls + [Proceed];
    case Found(u) =>
      socketUser := Assigned(Some(u));
      calls := calls + [Proceed];
  }

  /** The middleware as evidently intended: it stops at the first rejection, so `next`
      is called exactly once on every path. */
  method HandshakeStrict(token: Option<string>, verify: string -> Option<UserId>, findUser: UserId -> Lookup)
    returns (calls: seq<NextCall>, socketUser: SocketUser)
    ensures |calls| == 1
    ensures !Truthy(token) ==> calls == [Reject(NoTokenError)] && socketUser == Unassigned
    ensures Truthy(token) && verify(token.value).None? ==>
              calls == [Reject(InvalidTokenError)] && socketUser == Unassigned
    ensures Truthy(token) && verify(token.value).Some? ==>
              match findUser(verify(token.value).value)
              case Found(u) => calls == [Proceed] && socketUser == Assigned(Some(u))
              case NotFound => calls == [Proceed] && socketUser == Assigned(None)
              case LookupFailed => calls == [Reject(InvalidTokenError)] && socketUser == Unassigned
    ensures socketUser.Assigned? <==> calls == [Proceed]
  {
    socketUser := Unassigned;
    if !Truthy(token) {
      calls := [Reject(NoTokenError)];
      return;
    }
    var decoded := verify(token.value);
    if decoded.None? {
      calls := [Reject(InvalidTokenError)];
      return;
    }
    match findUser(decoded.value)
    case LookupFailed =>
      calls := [Reject(InvalidTokenError)];
    case NotFound =>
      socketUser := Assigned(None);
      calls := [Proceed];
    case Found(u) =>
      socketUser := Assigned(Some(u));
      calls := [Proceed];
  }

  /** A connection without a token cookie: the middleware as written calls `next` twice. */
  method NoTokenHandshake(verify: string -> Option<UserId>, findUser: UserId -> Lookup)
    returns (calls: seq<NextCall>)
    ensures |calls| == 2 && calls[0] == Reject(NoTokenError)
  {
    var u;
    calls, u := Handshake(None, verify, findUser);
  }

  // ---------------------------------------------------------------------------
  // Conversational turns

  /** The inbound `ai-message` payload. The client also sends `file`, `fileData` and
      `fileType`; the handler reads none of them. */
  datatype MessagePayload = MessagePayload(
    chatID: string, content: string, file: bool, fileData: Option<seq<bv8>>,
    fileType: Option<string>, tempID: Option<string>)

  /** The inbound `ai-image` payload. */
  datatype ImagePayload = ImagePayload(chatID: string, prompt: string, tempID: Option<string>)

  /** The fields handed to `messageModel.create`. */
  datatype Draft = Draft(userID: UserId, chatID: string, content: Content, file: bool, role: Role)

  /** `{queryVector, limit, metadata: {userID}}`. */
  datatype MemoryQuery = MemoryQuery(queryVector: Vector, limit: nat, userID: UserId)

  /** The events this connection's socket emits. */
  datatype Event =
    | AiResponseStart                                   // "ai-response-start"
    | UserMessageAck(message: Message, tempID: Option<string>) // "user-message"
    | AiResponse(message: Message)                      // "ai-response"
    | AiImageStart                                      // "ai-image-start"
    | AiImageResponse(message: Message, image: bool)    // "ai-image-response"
    | AiError(error: string)                            // "ai-error"

  /** The calls a turn makes to its collaborators, in the order they are issued. */
  datatype Call =
    | CreateMessage(draft: Draft)
    | GenerateVector(text: string)
    | CreateMemory(entry: MemoryEntry)
    | QueryMemory(query: MemoryQuery)
    | FindRecent(chatID: string, limit: nat)
    | GenerateResponse(turns: seq<PromptTurn>)
    | GenerateImage(prompt: string)

  /** The collaborators, each of which may fail. */
  datatype Services = Services(
    accepts: Draft -> bool,                                 // messageModel.create succeeds
    embed: string -> Option<Vector>,                        // generateVector
    indexes: MemoryEntry -> bool,                           // createMemory succeeds
    query: (seq<MemoryEntry>, MemoryQuery) -> Option<seq<Match>>, // queryMemory
    readable: string -> bool,                               // the history find succeeds
    generate: seq<PromptTurn> -> Option<string>,            // generateResponse
    generateImage: string -> Option<(string, string)>)      // generateImage: (text, imageUrl)

  /** The step at which a turn stopped because an expression or a collaborator threw. */
  datatype Step =
    | ReadUser | StoreUserMessage | EmbedUserMessage | IndexUserMessage
    | FetchHistory | QueryMatches | Generate | StoreReply | EmbedReply | IndexReply
    | CreateImage | StoreImage

  /** The message store, the memory index, the events emitted on the connection, and the
      store's clock. */
  datatype ServerState = ServerState(
    messages: seq<Message>, memory: seq<MemoryEntry>, events: seq<Event>, clock: nat)

  /** The outcome of one turn: the new state, the collaborator calls issued, and the step
      that threw, if any. */
  datatype Turn = Turn(after: ServerState, calls: seq<Call>, stoppedAt: Option<Step>)

  const ImageFailure: string := "Failed to generate image"

  /** A memory entry describes a stored message: it points at the message and its metadata
      repeats the message's chat, owner and text. */
  predicate Describes(e: MemoryEntry, m: Message) {
    e.messageID == m.id && e.metadata.chatID == m.chatID &&
    e.metadata.userID == m.userID && m.content == Text(e.metadata.text)
  }

  /** The store invariant: ids are creation indices, timestamps strictly increase and stay
      below the clock, and every memory entry describes the message it points at. */
  ghost predicate Valid(s: ServerState) {
    && (forall i | 0 <= i < |s.messages| :: s.messages[i].id == i && s.messages[i].createdAt < s.clock)
    && Chronological(s.messages)
    && (forall k | 0 <= k < |s.memory| ::
          s.memory[k].messageID < |s.messages| && Describes(s.memory[k], s.messages[s.memory[k].messageID]))
  }

  /** `messageModel.create`: the next id, the current time. */
  function Stamp(s: ServerState, d: Draft): Message {
    Message(|s.messages|, d.userID, d.chatID, d.role, d.content, d.file, s.clock)
  }

  function Store(s: ServerState, d: Draft): ServerState {
    s.(messages := s.messages + [Stamp(s, d)], clock := s.clock + 1)
  }

  function Emit(s: ServerState, e: Event): ServerState {
    s.(events := s.events + [e])
  }

  function Index(s: ServerState, e: MemoryEntry): ServerState {
    s.(memory := s.memory + [e])
  }

  /** Lines 44-50: the stored user message is always `file: false`. */
  function UserDraft(uid: UserId, p: MessagePayload): Draft {
    Draft(uid, p.chatID, Text(p.content), false, UserRole)
  }

  /** Lines 115-121. */
  function ReplyDraft(uid: UserId, chatID: string, reply: string): Draft {
    Draft(uid, chatID, Text(reply), false, ModelRole)
  }

  /** Lines 59-67 and 129-137. */
  function MemoryFor(m: Message, v: Vector, chatID: string, uid: UserId, text: string): MemoryEntry {
    MemoryEntry(m.id, v, Metadata(chatID, uid, text))
  }

  /** What the reply half of a turn does to the state: it stores at most one message, the
      reply, and emits at most one event, `ai-response` with that reply, which a completed
      turn always emits. */
  predicate AddsReply(before: ServerState, after: ServerState, done: bool) {
    && |before.messages| <= |after.messages| <= |before.messages| + 1
    && after.messages[..|before.messages|] == before.messages
    && |before.events| <= |after.events| <= |before.events| + 1
    && after.events[..|before.events|] == before.events
    && (|after.events| > |before.events| ==>
          |after.messages| > |before.messages| &&
          after.events[|before.events|] == AiResponse(after.messages[|before.messages|]))
    && (done ==> |after.events| > |before.events|)
  }

  /** The `ai-message` handler, lines 40-138. `user` is `socket.user`. There is no
      try/catch: the first step that throws ends the turn, and nothing more is emitted.
      Lines 41-57: announce the turn, store the user message while embedding it, and
      acknowledge it. */
  function AiMessageTurn(s: ServerState, user: Option<User>, p: MessagePayload, svc: Services): Turn
  {
    var s0 := Emit(s, AiResponseStart);
    if user.None? then Turn(s0, [], Some(ReadUser)) else
    var uid := user.value.id;
    var ud := UserDraft(uid, p);
    var calls := [CreateMessage(ud), GenerateVector(p.content)];
    if !svc.accepts(ud) then Turn(s0, calls, Some(StoreUserMessage)) else
    var um := Stamp(s0, ud);
    var uv := svc.embed(p.content);
    if uv.None? then Turn(Store(s0, ud), calls, Some(EmbedUserMessage)) else
    Recall(Emit(Store(s0, ud), UserMessageAck(um, p.tempID)), um, uv.value, uid, p, svc, calls)
  }

  /** Lines 59-67: index the user message, then consult the memory and the history. */
  function Recall(s: ServerState, um: Message, v: Vector, uid: UserId, p: MessagePayload,
                  svc: Services, calls: seq<Call>): Turn
  {
    var ue := MemoryFor(um, v, p.chatID, uid, p.content);
    var c1 := calls + [CreateMemory(ue)];
    if !svc.indexes(ue) then Turn(s, c1, Some(IndexUserMessage)) else
    Consult(Index(s, ue), v, uid, p, svc, c1)
  }

  /** Lines 69-112: read the memory matches and the recent history together, assemble the
      prompt and answer it. */
  function Consult(s: ServerState, v: Vector, uid: UserId, p: MessagePayload,
                   svc: Services, calls: seq<Call>): Turn
  {
    var q := MemoryQuery(v, MemoryLimit, uid);
    var c := calls + [QueryMemory(q), FindRecent(p.chatID, HistoryLimit)];
    if !svc.readable(p.chatID) then Turn(s, c, Some(FetchHistory)) else
    var matches := svc.query(s.memory, q);
    if matches.None? then Turn(s, c, Some(QueryMatches)) else
    var prompt := Prompt(matches.value, RecentHistory(s.messages, p.chatID));
    Answer(s, uid, p, prompt, svc, c + [GenerateResponse(prompt)])
  }

  /** Lines 109-137: generate the reply, store it while embedding it, emit it, index it. */
  function Answer(s: ServerState, uid: UserId, p: MessagePayload, prompt: seq<PromptTurn>,
                  svc: Services, calls: seq<Call>): (r: Turn)
    ensures |calls| <= |r.calls| && r.calls[..|calls|] == calls
    ensures AddsReply(s, r.after, r.stoppedAt.None?)
  {
    var reply := svc.generate(prompt);
    if reply.None? then Turn(s, calls, Some(Generate)) else
    var rd := ReplyDraft(uid, p.chatID, reply.value);
    var c1 := calls + [CreateMessage(rd), GenerateVector(reply.value)];
    if !svc.accepts(rd) then Turn(s, c1, Some(StoreReply)) else
    var rm := Stamp(s, rd);
    var rv := svc.embed(reply.value);
    if rv.None? then Turn(Store(s, rd), c1, Some(EmbedReply)) else
    var s1 := Emit(Store(s, rd), AiResponse(rm));
    var re := MemoryFor(rm, rv.value, p.chatID, uid, reply.value);
    var c2 := c1 + [CreateMemory(re)];
    if !svc.indexes(re) then Turn(s1, c2, Some(IndexReply)) else
    Turn(Index(s1, re), c2, None)
  }

  /** The `ai-image` handler, lines 140-176: every throw is caught and reported as one
      `ai-error` event. */
  function AiImageTurn(s: ServerState, user: Option<User>, p: ImagePayload, svc: Services): Turn
  {
    var s0 := Emit(s, AiImageStart);
    if user.None? then Turn(Emit(s0, AiError(ImageFailure)), [], Some(ReadUser)) else
    var uid := user.value.id;
    var ud := Draft(uid, p.chatID, Text(p.prompt), false, UserRole);
    var c1 := [CreateMessage(ud)];
    if !svc.accepts(ud) then Turn(Emit(s0, AiError(ImageFailure)), c1, Some(StoreUserMessage)) else
    var um := Stamp(s0, ud);
    var s1 := Emit(Store(s0, ud), UserMessageAck(um, p.tempID));
    var c2 := c1 + [GenerateImage(p.prompt)];
    var image := svc.generateImage(p.prompt);
    if image.None? then Turn(Emit(s1, AiError(ImageFailure)), c2, Some(CreateImage)) else
    var rd := Draft(uid, p.chatID, Picture(image.value.0, image.value.1), true, ModelRole);
    var c3 := c2 + [CreateMessage(rd)];
    if !svc.accepts(rd) then Turn(Emit(s1, AiError(ImageFailure)), c3, Some(StoreImage)) else
    var rm := Stamp(s1, rd);
    Turn(Emit(Store(s1, rd), AiImageResponse(rm, true)), c3, None)
  }

  // ---------------------------------------------------------------------------
  // What the turns promise

  /** Lines 41, 54-57 and 125-127: an `ai-message` turn appends to the event log, in this
      order, `ai-response-start`, then `user-message` acknowledging the stored user message
      with the inbound `tempID`, then `ai-response` with the stored reply. A turn that
      stops early emits a prefix of these and never `ai-error`. */
  lemma AiMessageEvents(s: ServerState, user: Option<User>, p: MessagePayload, svc: Services)
    ensures var r := AiMessageTurn(s, user, p, svc);
            var e := r.after.events;
            var n := |s.events|;
            && n < |e| <= n + 3 && e[..n] == s.events
            && e[n] == AiResponseStart
            && (|e| > n + 1 ==>
                  |r.after.messages| > |s.messages| &&
                  e[n + 1] == UserMessageAck(r.after.messages[|s.messages|], p.tempID))
            && (|e| > n + 2 ==>
                  |r.after.messages| > |s.messages| + 1 &&
                  e[n + 2] == AiResponse(r.after.messages[|s.messages| + 1]))
            && (r.stoppedAt.None? ==> |e| == n + 3)
            && (forall i | n <= i < |e| :: !e[i].AiError?)
  {
    var r := AiMessageTurn(s, user, p, svc);
    var s0 := Emit(s, AiResponseStart);
    if user.Some? && svc.accepts(UserDraft(user.value.id, p)) && svc.embed(p.content).Some? {
      var ud := UserDraft(user.value.id, p);
      var um := Stamp(s0, ud);
      var s2 := Emit(Store(s0, ud), UserMessageAck(um, p.tempID));
      assert r == Recall(s2, um, svc.embed(p.content).value, user.value.id, p, svc,
                         [CreateMessage(ud), GenerateVector(p.content)]);
      RecallAddsReply(s2, um, svc.embed(p.content).value, user.value.id, p, svc,
                      [CreateMessage(ud), GenerateVector(p.content)]);
      EventsAfterAck(s, s2, r.after, um, p.tempID, r.stoppedAt.None?);
    } else {
      assert r.after.events == s0.events;
    }
  }

  /** Indexing and reading store and emit nothing, so the recall stage changes the messages
      and the events only as its reply stage does. */
  lemma RecallAddsReply(s: ServerState, um: Message, v: Vector, uid: UserId, p: MessagePayload,
                        svc: Services, calls: seq<Call>)
    ensures var r := Recall(s, um, v, uid, p, svc, calls);
            AddsReply(s, r.after, r.stoppedAt.None?)
  {
    var ue := MemoryFor(um, v, p.chatID, uid, p.content);
    if svc.indexes(ue) {
      ConsultAddsReply(Index(s, ue), v, uid, p, svc, calls + [CreateMemory(ue)]);
    }
  }

  /** Reading stores and emits nothing, so consulting changes the messages and the events
      only as the reply stage does. */
  lemma ConsultAddsReply(s: ServerState, v: Vector, uid: UserId, p: MessagePayload,
                         svc: Services, calls: seq<Call>)
    ensures var r := Consult(s, v, uid, p, svc, calls);
            AddsReply(s, r.after, r.stoppedAt.None?)
  {
    var q := MemoryQuery(v, MemoryLimit, uid);
    var matches := svc.query(s.memory, q);
    if svc.readable(p.chatID) && matches.Some? {
      var prompt := Prompt(matches.value, RecentHistory(s.messages, p.chatID));
      var c := calls + [QueryMemory(q), FindRecent(p.chatID, HistoryLimit), GenerateResponse(prompt)];
      assert Consult(s, v, uid, p, svc, calls) == Answer(s, uid, p, prompt, svc, c);
    }
  }

  /** The event log of a turn that acknowledged the user message and went on to the reply. */
  lemma EventsAfterAck(s: ServerState, s2: ServerState, after: ServerState, um: Message,
                       tempID: Option<string>, done: bool)
    requires s2.events == s.events + [AiResponseStart, UserMessageAck(um, tempID)]
    requires s2.messages == s.messages + [um]
    requires AddsReply(s2, after, done)
    ensures var e := after.events;
            var n := |s.events|;
            && n + 2 <= |e| <= n + 3 && e[..n] == s.events
            && e[n] == AiResponseStart
            && |after.messages| > |s.messages| && e[n + 1] == UserMessageAck(after.messages[|s.messages|], tempID)
            && (|e| > n + 2 ==>
                  |after.messages| > |s.messages| + 1 &&
                  e[n + 2] == AiResponse(after.messages[|s.messages| + 1]))
            && (done ==> |e| == n + 3)
            && (forall i | n <= i < |e| :: !e[i].AiError?)
  {
    var e := after.events;
    var n := |s.events|;
    assert e[..n] == s2.events[..n];
    assert e[n] == s2.events[n] && e[n + 1] == s2.events[n + 1];
    assert after.messages[|s.messages|] == s2.messages[|s.messages|];
    forall i | n <= i < |e| ensures !e[i].AiError? {
      if i < n + 2 {
        assert e[i] == s2.events[i];
      }
    }
  }

  /** Lines 43-57: the stored user message belongs to `socket.user`, carries the payload's
      chat and content, has role "user" and `file: false` whatever the payload says, and is
      the message the `user-message` event acknowledges. Without a user the turn stops
      before anything is stored. */
  lemma AiMessageStoresUserMessage(s: ServerState, user: Option<User>, p: MessagePayload, svc: Services)
    ensures var r := AiMessageTurn(s, user, p, svc);
            && r.after.messages[..|s.messages|] == s.messages
            && (user.None? ==> r.after.messages == s.messages && r.after.events == s.events + [AiResponseStart])
            && (user.Some? && svc.accepts(UserDraft(user.value.id, p)) ==>
                  |r.after.messages| > |s.messages| &&
                  r.after.messages[|s.messages|] ==
                    Message(|s.messages|, user.value.id, p.chatID, UserRole, Text(p.content), false, s.clock))
  {
    var r := AiMessageTurn(s, user, p, svc);
    var s0 := Emit(s, AiResponseStart);
    if user.Some? && svc.accepts(UserDraft(user.value.id, p)) && svc.embed(p.content).Some? {
      var ud := UserDraft(user.value.id, p);
      var um := Stamp(s0, ud);
      var s2 := Emit(Store(s0, ud), UserMessageAck(um, p.tempID));
      var calls := [CreateMessage(ud), GenerateVector(p.content)];
      assert r == Recall(s2, um, svc.embed(p.content).value, user.value.id, p, svc, calls);
      RecallAddsReply(s2, um, svc.embed(p.content).value, user.value.id, p, svc, calls);
      StoredFirst(s.messages, um, r.after.messages);
    }
  }

  /** A store that extends `before + [m]` holds `before` and then `m`. */
  lemma StoredFirst(before: seq<Message>, m: Message, after: seq<Message>)
    requires |before| + 1 <= |after| && after[..|before| + 1] == before + [m]
    ensures after[..|before|] == before && after[|before|] == m
  {
    assert after[..|before|] == after[..|before| + 1][..|before|];
    assert after[|before|] == after[..|before| + 1][|before|];
  }

  /** Lines 69-112: when the turn reaches generation, the memory query asks for five matches
      of the user message's embedding restricted to `socket.user`, the history read asks for
      twenty messages of the chat, and the prompt is the long-term turn built from the matches
      followed by the short-term turns of the recent history, which ends with the user
      message just stored. */
  lemma AiMessagePrompt(s: ServerState, user: Option<User>, p: MessagePayload, svc: Services)
    ensures var r := AiMessageTurn(s, user, p, svc);
            |r.calls| > 5 ==>
              && user.Some? && svc.embed(p.content).Some?
              && var um := Stamp(s, UserDraft(user.value.id, p));
                 var v := svc.embed(p.content).value;
                 var q := MemoryQuery(v, MemoryLimit, user.value.id);
                 var ue := MemoryFor(um, v, p.chatID, user.value.id, p.content);
                 var matches := svc.query(s.memory + [ue], q);
                 && r.calls[3] == QueryMemory(q)
                 && r.calls[4] == FindRecent(p.chatID, HistoryLimit)
                 && matches.Some?
                 && r.calls[5] == GenerateResponse(Prompt(matches.value, RecentHistory(s.messages + [um], p.chatID)))
                 && r.calls[5].turns[|r.calls[5].turns| - 1] == ToTurn(um)
  {
    var r := AiMessageTurn(s, user, p, svc);
    if user.Some? && svc.accepts(UserDraft(user.value.id, p)) && svc.embed(p.content).Some? {
      var s0 := Emit(s, AiResponseStart);
      var uid := user.value.id;
      var ud := UserDraft(uid, p);
      var um := Stamp(s0, ud);
      var s2 := Emit(Store(s0, ud), UserMessageAck(um, p.tempID));
      var v := svc.embed(p.content).value;
      var calls := [CreateMessage(ud), GenerateVector(p.content)];
      assert r == Recall(s2, um, v, uid, p, svc, calls);
      if |r.calls| > 5 {
        RecallPrompt(s2, um, v, uid, p, svc, calls);
        PromptAfterAck(s, s2, um, v, uid, p, svc, r.calls);
      }
    }
  }

  /** The generation request of a turn that acknowledged `um`: the index holds the user
      message's entry and the history ends with `um`, so the prompt's last turn is `um`. */
  lemma PromptAfterAck(s: ServerState, s2: ServerState, um: Message, v: Vector, uid: UserId,
                       p: MessagePayload, svc: Services, calls: seq<Call>)
    requires s2.memory == s.memory && s2.messages == s.messages + [um] && um.chatID == p.chatID
    requires var q := MemoryQuery(v, MemoryLimit, uid);
             var ue := MemoryFor(um, v, p.chatID, uid, p.content);
             var matches := svc.query(s2.memory + [ue], q);
             && |calls| > 5 && matches.Some?
             && calls[3] == QueryMemory(q)
             && calls[4] == FindRecent(p.chatID, HistoryLimit)
             && calls[5] == GenerateResponse(Prompt(matches.value, RecentHistory(s2.messages, p.chatID)))
    ensures var q := MemoryQuery(v, MemoryLimit, uid);
            var ue := MemoryFor(um, v, p.chatID, uid, p.content);
            var matches := svc.query(s.memory + [ue], q);
            && matches.Some?
            && calls[3] == QueryMemory(q)
            && calls[4] == FindRecent(p.chatID, HistoryLimit)
            && calls[5] == GenerateResponse(Prompt(matches.value, RecentHistory(s.messages + [um], p.chatID)))
            && calls[5].turns[|calls[5].turns| - 1] == ToTurn(um)
  {
    RecentHistoryEndsWithNewest(s.messages, um);
    var ue := MemoryFor(um, v, p.chatID, uid, p.content);
    var q := MemoryQuery(v, MemoryLimit, uid);
    PromptEndsWith(svc.query(s.memory + [ue], q).value, RecentHistory(s.messages + [um], p.chatID));
  }

  /** Once the turn reaches the model, the memory query, the history read and the
      generation request follow the indexing call, in that order. */
  lemma RecallPrompt(s: ServerState, um: Message, v: Vector, uid: UserId, p: MessagePayload,
                     svc: Services, calls: seq<Call>)
    ensures var r := Recall(s, um, v, uid, p, svc, calls);
            var q := MemoryQuery(v, MemoryLimit, uid);
            var ue := MemoryFor(um, v, p.chatID, uid, p.content);
            var matches := svc.query(s.memory + [ue], q);
            |r.calls| > |calls| + 3 ==>
              && matches.Some?
              && r.calls[|calls| + 1] == QueryMemory(q)
              && r.calls[|calls| + 2] == FindRecent(p.chatID, HistoryLimit)
              && r.calls[|calls| + 3] == GenerateResponse(Prompt(matches.value, RecentHistory(s.messages, p.chatID)))
  {
    var ue := MemoryFor(um, v, p.chatID, uid, p.content);
    if svc.indexes(ue) {
      ConsultPrompt(Index(s, ue), v, uid, p, svc, calls + [CreateMemory(ue)]);
    }
  }

  /** The memory query and the history read come first; once the turn reaches the model,
      the generation request follows them with the prompt built from both. */
  lemma ConsultPrompt(s: ServerState, v: Vector, uid: UserId, p: MessagePayload,
                      svc: Services, calls: seq<Call>)
    ensures var r := Consult(s, v, uid, p, svc, calls);
            var q := MemoryQuery(v, MemoryLimit, uid);
            var matches := svc.query(s.memory, q);
            && |r.calls| >= |calls| + 2
            && r.calls[..|calls|] == calls
            && r.calls[|calls|] == QueryMemory(q)
            && r.calls[|calls| + 1] == FindRecent(p.chatID, HistoryLimit)
            && (|r.calls| > |calls| + 2 ==>
                  && matches.Some?
                  && r.calls[|calls| + 2] == GenerateResponse(Prompt(matches.value, RecentHistory(s.messages, p.chatID))))
  {
    var r := Consult(s, v, uid, p, svc, calls);
    var q := MemoryQuery(v, MemoryLimit, uid);
    var matches := svc.query(s.memory, q);
    if svc.readable(p.chatID) && matches.Some? {
      var prompt := Prompt(matches.value, RecentHistory(s.messages, p.chatID));
      var c := calls + [QueryMemory(q), FindRecent(p.chatID, HistoryLimit), GenerateResponse(prompt)];
      assert r == Answer(s, uid, p, prompt, svc, c);
      CallsKept(c, r.calls);
      assert r.calls[..|calls|] == c[..|calls|];
    } else {
      assert r.calls == calls + [QueryMemory(q), FindRecent(p.chatID, HistoryLimit)];
    }
  }

  /** Calls already issued keep their positions. */
  lemma CallsKept(before: seq<Call>, after: seq<Call>)
    requires |before| <= |after| && after[..|before|] == before
    ensures forall i | 0 <= i < |before| :: after[i] == before[i]
  {
    forall i | 0 <= i < |before| ensures after[i] == before[i] {
      assert after[..|before|][i] == after[i];
    }
  }

  lemma PromptEndsWith(matches: seq<Match>, history: seq<Message>)
    requires history != []
    ensures var p := Prompt(matches, history);
            p[|p| - 1] == ToTurn(history[|history| - 1])
  {
  }

  lemma StoreKeepsValid(s: ServerState, d: Draft)
    requires Valid(s)
    ensures Valid(Store(s, d)) && Store(s, d).messages[|s.messages|] == Stamp(s, d)
  {
    var t := Store(s, d);
    forall k | 0 <= k < |t.memory|
      ensures t.memory[k].messageID < |t.messages| && Describes(t.memory[k], t.messages[t.memory[k].messageID])
    {
      assert t.messages[t.memory[k].messageID] == s.messages[s.memory[k].messageID];
    }
  }

  lemma IndexKeepsValid(s: ServerState, e: MemoryEntry)
    requires Valid(s)
    requires e.messageID < |s.messages| && Describes(e, s.messages[e.messageID])
    ensures Valid(Index(s, e))
  {
  }

  /** Lines 59-67 and 129-137 keep the store invariant: each memory entry is created with
      the id of the message just stored and metadata repeating its chat, owner and text. */
  lemma AiMessageKeepsValid(s: ServerState, user: Option<User>, p: MessagePayload, svc: Services)
    requires Valid(s)
    ensures Valid(AiMessageTurn(s, user, p, svc).after)
  {
    var s0 := Emit(s, AiResponseStart);
    if user.Some? {
      var uid := user.value.id;
      var ud := UserDraft(uid, p);
      if svc.accepts(ud) {
        StoreKeepsValid(s0, ud);
        var um := Stamp(s0, ud);
        var uv := svc.embed(p.content);
        if uv.Some? {
          var s2 := Emit(Store(s0, ud), UserMessageAck(um, p.tempID));
          assert AiMessageTurn(s, user, p, svc) ==
                 Recall(s2, um, uv.value, uid, p, svc, [CreateMessage(ud), GenerateVector(p.content)]);
          RecallKeepsValid(s2, um, uv.value, uid, p, svc, [CreateMessage(ud), GenerateVector(p.content)]);
        }
      }
    }
  }

  /** Indexing the stored user message and reading keep the invariant, and so does the reply. */
  lemma RecallKeepsValid(s: ServerState, um: Message, v: Vector, uid: UserId, p: MessagePayload,
                         svc: Services, calls: seq<Call>)
    requires Valid(s)
    requires um.id < |s.messages| && s.messages[um.id] == um
    requires um.chatID == p.chatID && um.userID == uid && um.content == Text(p.content)
    ensures Valid(Recall(s, um, v, uid, p, svc, calls).after)
  {
    var ue := MemoryFor(um, v, p.chatID, uid, p.content);
    if svc.indexes(ue) {
      IndexKeepsValid(s, ue);
      ConsultKeepsValid(Index(s, ue), v, uid, p, svc, calls + [CreateMemory(ue)]);
    }
  }

  /** Reading changes nothing, and the reply keeps the invariant. */
  lemma ConsultKeepsValid(s: ServerState, v: Vector, uid: UserId, p: MessagePayload,
                          svc: Services, calls: seq<Call>)
    requires Valid(s)
    ensures Valid(Consult(s, v, uid, p, svc, calls).after)
  {
    var q := MemoryQuery(v, MemoryLimit, uid);
    var matches := svc.query(s.memory, q);
    if svc.readable(p.chatID) && matches.Some? {
      var prompt := Prompt(matches.value, RecentHistory(s.messages, p.chatID));
      var c := calls + [QueryMemory(q), FindRecent(p.chatID, HistoryLimit), GenerateResponse(prompt)];
      assert Consult(s, v, uid, p, svc, calls) == Answer(s, uid, p, prompt, svc, c);
      AnswerKeepsValid(s, uid, p, prompt, svc, c);
    }
  }

  /** Storing the reply, emitting it and indexing it keep the invariant. */
  lemma AnswerKeepsValid(s: ServerState, uid: UserId, p: MessagePayload, prompt: seq<PromptTurn>,
                         svc: Services, calls: seq<Call>)
    requires Valid(s)
    ensures Valid(Answer(s, uid, p, prompt, svc, calls).after)
  {
    var reply := svc.generate(prompt);
    if reply.Some? {
      var rd := ReplyDraft(uid, p.chatID, reply.value);
      if svc.accepts(rd) {
        StoreKeepsValid(s, rd);
        var rm := Stamp(s, rd);
        var rv := svc.embed(reply.value);
        if rv.Some? {
          var s1 := Emit(Store(s, rd), AiResponse(rm));
          var re := MemoryFor(rm, rv.value, p.chatID, uid, reply.value);
          if svc.indexes(re) {
            IndexKeepsValid(s1, re);
          }
        }
      }
    }
  }

  /** Lines 59-67 and 114-137: each `createMemory` of an `ai-message` turn is issued for the
      message just created, with that message's vector and `{chatID, userID, text}`; the index
      grows by the user message's entry and then the reply's, in that order. A reply that is
      emitted or indexed is the generated text, stored as a "model" message with `file: false`
      under the id after the user message's. */
  lemma AiMessageRecordsEntries(s: ServerState, user: Option<User>, p: MessagePayload, svc: Services)
    ensures var r := AiMessageTurn(s, user, p, svc);
            var k := |s.memory|;
            var m := |s.messages|;
            && k <= |r.after.memory| <= k + 2
            && r.after.memory[..k] == s.memory
            && (|r.after.memory| > k ==>
                  && user.Some? && svc.embed(p.content).Some? && |r.calls| > 2
                  && var ue := MemoryEntry(m, svc.embed(p.content).value, Metadata(p.chatID, user.value.id, p.content));
                     r.after.memory[k] == ue && r.calls[2] == CreateMemory(ue))
            && (|r.after.events| == |s.events| + 3 || |r.after.memory| == k + 2 ==>
                  && user.Some? && |r.calls| == 9 && r.calls[5].GenerateResponse?
                  && svc.generate(r.calls[5].turns).Some?
                  && var reply := svc.generate(r.calls[5].turns).value;
                     && svc.embed(reply).Some?
                     && |r.after.messages| > m + 1
                     && r.after.messages[m + 1] ==
                          Message(m + 1, user.value.id, p.chatID, ModelRole, Text(reply), false, s.clock + 1)
                     && var re := MemoryEntry(m + 1, svc.embed(reply).value, Metadata(p.chatID, user.value.id, reply));
                        && r.calls[8] == CreateMemory(re)
                        && (|r.after.memory| == k + 2 ==> r.after.memory[k + 1] == re))
  {
    var r := AiMessageTurn(s, user, p, svc);
    var s0 := Emit(s, AiResponseStart);
    if user.Some? && svc.accepts(UserDraft(user.value.id, p)) && svc.embed(p.content).Some? {
      var ud := UserDraft(user.value.id, p);
      var um := Stamp(s0, ud);
      var s2 := Emit(Store(s0, ud), UserMessageAck(um, p.tempID));
      var calls := [CreateMessage(ud), GenerateVector(p.content)];
      assert r == Recall(s2, um, svc.embed(p.content).value, user.value.id, p, svc, calls);
      RecallRecordsEntries(s2, um, svc.embed(p.content).value, user.value.id, p, svc, calls);
      EntriesAfterAck(s, s2, r, um, user.value.id, p, svc);
    } else {
      assert r.after.memory == s.memory && |r.after.events| == |s.events| + 1;
    }
  }

  /** The records of a turn that acknowledged the user message `um`, from what the recall
      stage records after `s2`. */
  lemma EntriesAfterAck(s: ServerState, s2: ServerState, r: Turn, um: Message, uid: UserId,
                        p: MessagePayload, svc: Services)
    requires s2.memory == s.memory && s2.messages == s.messages + [um] && s2.clock == s.clock + 1
    requires |s2.events| == |s.events| + 2 && um.id == |s.messages|
    requires svc.embed(p.content).Some?
    requires var n := 2;
             var ue := MemoryEntry(um.id, svc.embed(p.content).value, Metadata(p.chatID, uid, p.content));
             && |r.calls| > n && r.calls[n] == CreateMemory(ue)
             && |s2.memory| <= |r.after.memory| <= |s2.memory| + 2
             && r.after.memory[..|s2.memory|] == s2.memory
             && (|r.after.memory| > |s2.memory| ==> r.after.memory[|s2.memory|] == ue)
             && (|r.after.events| > |s2.events| || |r.after.memory| > |s2.memory| + 1 ==>
                   && |r.calls| == n + 7 && r.calls[n + 3].GenerateResponse?
                   && svc.generate(r.calls[n + 3].turns).Some?
                   && var reply := svc.generate(r.calls[n + 3].turns).value;
                      && svc.embed(reply).Some?
                      && |r.after.messages| > |s2.messages|
                      && r.after.messages[|s2.messages|] == Stamp(s2, ReplyDraft(uid, p.chatID, reply))
                      && r.calls[n + 6] == CreateMemory(MemoryEntry(|s2.messages|, svc.embed(reply).value, Metadata(p.chatID, uid, reply))))
             && (|r.after.memory| > |s2.memory| + 1 ==> r.calls[n + 6] == CreateMemory(r.after.memory[|s2.memory| + 1]))
    ensures var k := |s.memory|;
            var m := |s.messages|;
            && k <= |r.after.memory| <= k + 2
            && r.after.memory[..k] == s.memory
            && (|r.after.memory| > k ==>
                  && |r.calls| > 2
                  && var ue := MemoryEntry(m, svc.embed(p.content).value, Metadata(p.chatID, uid, p.content));
                     r.after.memory[k] == ue && r.calls[2] == CreateMemory(ue))
            && (|r.after.events| == |s.events| + 3 || |r.after.memory| == k + 2 ==>
                  && |r.calls| == 9 && r.calls[5].GenerateResponse?
                  && svc.generate(r.calls[5].turns).Some?
                  && var reply := svc.generate(r.calls[5].turns).value;
                     && svc.embed(reply).Some?
                     && |r.after.messages| > m + 1
                     && r.after.messages[m + 1] == Message(m + 1, uid, p.chatID, ModelRole, Text(reply), false, s.clock + 1)
                     && var re := MemoryEntry(m + 1, svc.embed(reply).value, Metadata(p.chatID, uid, reply));
                        && r.calls[8] == CreateMemory(re)
                        && (|r.after.memory| == k + 2 ==> r.after.memory[k + 1] == re))
  {
  }

  /** Lines 59-112 and the reply: the recall stage issues `createMemory` for the user
      message first, and records the reply as `Answer` does. */
  lemma RecallRecordsEntries(s: ServerState, um: Message, v: Vector, uid: UserId, p: MessagePayload,
                             svc: Services, calls: seq<Call>)
    ensures var r := Recall(s, um, v, uid, p, svc, calls);
            var n := |calls|;
            var ue := MemoryFor(um, v, p.chatID, uid, p.content);
            && |r.calls| > n && r.calls[n] == CreateMemory(ue)
            && |s.memory| <= |r.after.memory| <= |s.memory| + 2
            && r.after.memory[..|s.memory|] == s.memory
            && (|r.after.memory| > |s.memory| ==> r.after.memory[|s.memory|] == ue)
            && (|r.after.events| > |s.events| || |r.after.memory| > |s.memory| + 1 ==>
                  && |r.calls| == n + 7 && r.calls[n + 3].GenerateResponse?
                  && svc.generate(r.calls[n + 3].turns).Some?
                  && var reply := svc.generate(r.calls[n + 3].turns).value;
                     && svc.embed(reply).Some?
                     && |r.after.messages| > |s.messages|
                     && r.after.messages[|s.messages|] == Stamp(s, ReplyDraft(uid, p.chatID, reply))
                     && r.calls[n + 6] == CreateMemory(MemoryEntry(|s.messages|, svc.embed(reply).value, Metadata(p.chatID, uid, reply))))
            && (|r.after.memory| > |s.memory| + 1 ==> r.calls[n + 6] == CreateMemory(r.after.memory[|s.memory| + 1]))
  {
    var r := Recall(s, um, v, uid, p, svc, calls);
    var ue := MemoryFor(um, v, p.chatID, uid, p.content);
    var c1 := calls + [CreateMemory(ue)];
    if !svc.indexes(ue) {
      assert r == Turn(s, c1, Some(IndexUserMessage));
    } else {
      var s1 := Index(s, ue);
      assert r == Consult(s1, v, uid, p, svc, c1);
      ConsultRecordsReply(s1, v, uid, p, svc, c1);
      assert r.calls[|calls|] == r.calls[..|c1|][|calls|];
      EntriesAfterIndex(s, s1, ue, r, |calls|, uid, p, svc);
    }
  }

  /** Lines 69-137: consulting keeps the calls already issued, and records the reply as
      `Answer` does, after the memory query, the history read and the generation request. */
  lemma ConsultRecordsReply(s: ServerState, v: Vector, uid: UserId, p: MessagePayload,
                            svc: Services, calls: seq<Call>)
    ensures var r := Consult(s, v, uid, p, svc, calls);
            var n := |calls|;
            && n <= |r.calls| && r.calls[..n] == calls
            && |s.memory| <= |r.after.memory| <= |s.memory| + 1
            && r.after.memory[..|s.memory|] == s.memory
            && (|r.after.events| > |s.events| || |r.after.memory| > |s.memory| ==>
                  && |r.calls| == n + 6 && r.calls[n + 2].GenerateResponse?
                  && svc.generate(r.calls[n + 2].turns).Some?
                  && var reply := svc.generate(r.calls[n + 2].turns).value;
                     && svc.embed(reply).Some?
                     && |r.after.messages| > |s.messages|
                     && r.after.messages[|s.messages|] == Stamp(s, ReplyDraft(uid, p.chatID, reply))
                     && r.calls[n + 5] == CreateMemory(MemoryEntry(|s.messages|, svc.embed(reply).value, Metadata(p.chatID, uid, reply))))
            && (|r.after.memory| > |s.memory| ==> r.calls[n + 5] == CreateMemory(r.after.memory[|s.memory|]))
  {
    var r := Consult(s, v, uid, p, svc, calls);
    var q := MemoryQuery(v, MemoryLimit, uid);
    var matches := svc.query(s.memory, q);
    if svc.readable(p.chatID) && matches.Some? {
      var prompt := Prompt(matches.value, RecentHistory(s.messages, p.chatID));
      var c := calls + [QueryMemory(q), FindRecent(p.chatID, HistoryLimit), GenerateResponse(prompt)];
      assert r == Answer(s, uid, p, prompt, svc, c);
      AnswerRecordsReply(s, uid, p, prompt, svc, c);
      CallsKept(c, r.calls);
      assert r.calls[..|calls|] == c[..|calls|];
    } else {
      assert r.after == s && r.calls == calls + [QueryMemory(q), FindRecent(p.chatID, HistoryLimit)];
    }
  }

  /** The records of a recall stage that indexed the user message's entry `ue` as call `n`,
      from what consulting records after `s1`. */
  lemma EntriesAfterIndex(s: ServerState, s1: ServerState, ue: MemoryEntry, r: Turn, n: nat,
                          uid: UserId, p: MessagePayload, svc: Services)
    requires s1.memory == s.memory + [ue] && s1.messages == s.messages && s1.events == s.events && s1.clock == s.clock
    requires |r.calls| > n && r.calls[n] == CreateMemory(ue)
    requires && |s1.memory| <= |r.after.memory| <= |s1.memory| + 1
             && r.after.memory[..|s1.memory|] == s1.memory
             && (|r.after.events| > |s1.events| || |r.after.memory| > |s1.memory| ==>
                   && |r.calls| == n + 7 && r.calls[n + 3].GenerateResponse?
                   && svc.generate(r.calls[n + 3].turns).Some?
                   && var reply := svc.generate(r.calls[n + 3].turns).value;
                      && svc.embed(reply).Some?
                      && |r.after.messages| > |s1.messages|
                      && r.after.messages[|s1.messages|] == Stamp(s1, ReplyDraft(uid, p.chatID, reply))
                      && r.calls[n + 6] == CreateMemory(MemoryEntry(|s1.messages|, svc.embed(reply).value, Metadata(p.chatID, uid, reply))))
             && (|r.after.memory| > |s1.memory| ==> r.calls[n + 6] == CreateMemory(r.after.memory[|s1.memory|]))
    ensures && |s.memory| <= |r.after.memory| <= |s.memory| + 2
            && r.after.memory[..|s.memory|] == s.memory
            && (|r.after.memory| > |s.memory| ==> r.after.memory[|s.memory|] == ue)
            && (|r.after.events| > |s.events| || |r.after.memory| > |s.memory| + 1 ==>
                  && |r.calls| == n + 7 && r.calls[n + 3].GenerateResponse?
                  && svc.generate(r.calls[n + 3].turns).Some?
                  && var reply := svc.generate(r.calls[n + 3].turns).value;
                     && svc.embed(reply).Some?
                     && |r.after.messages| > |s.messages|
                     && r.after.messages[|s.messages|] == Stamp(s, ReplyDraft(uid, p.chatID, reply))
                     && r.calls[n + 6] == CreateMemory(MemoryEntry(|s.messages|, svc.embed(reply).value, Metadata(p.chatID, uid, reply))))
            && (|r.after.memory| > |s.memory| + 1 ==> r.calls[n + 6] == CreateMemory(r.after.memory[|s.memory| + 1]))
  {
    MemoryAfterIndex(s.memory, ue, r.after.memory);
  }

  /** An index that extends `before + [e]` holds `before` and then `e`. */
  lemma MemoryAfterIndex(before: seq<MemoryEntry>, e: MemoryEntry, after: seq<MemoryEntry>)
    requires |before| + 1 <= |after| && after[..|before| + 1] == before + [e]
    ensures after[..|before|] == before && after[|before|] == e
  {
    assert after[..|before|] == after[..|before| + 1][..|before|];
    assert after[|before|] == after[..|before| + 1][|before|];
  }

  /** Lines 114-137: a reply that is emitted or indexed is the generated text stored under the
      next id, and the entry created for it points at that id with the reply's vector and
      `{chatID, userID, text: reply}`. */
  lemma AnswerRecordsReply(s: ServerState, uid: UserId, p: MessagePayload, prompt: seq<PromptTurn>,
                           svc: Services, calls: seq<Call>)
    ensures var r := Answer(s, uid, p, prompt, svc, calls);
            var n := |calls|;
            && |s.memory| <= |r.after.memory| <= |s.memory| + 1
            && r.after.memory[..|s.memory|] == s.memory
            && (|r.after.events| > |s.events| || |r.after.memory| > |s.memory| ==>
                  && svc.generate(prompt).Some?
                  && var reply := svc.generate(prompt).value;
                     && svc.embed(reply).Some?
                     && |r.after.messages| > |s.messages|
                     && r.after.messages[|s.messages|] == Stamp(s, ReplyDraft(uid, p.chatID, reply))
                     && |r.calls| == n + 3
                     && r.calls[n + 2] == CreateMemory(MemoryEntry(|s.messages|, svc.embed(reply).value, Metadata(p.chatID, uid, reply))))
            && (|r.after.memory| > |s.memory| ==> r.calls[n + 2] == CreateMemory(r.after.memory[|s.memory|]))
  {
    var reply := svc.generate(prompt);
    if reply.Some? {
      var rd := ReplyDraft(uid, p.chatID, reply.value);
      var rv := svc.embed(reply.value);
      if svc.accepts(rd) && rv.Some? {
        var rm := Stamp(s, rd);
        var s1 := Emit(Store(s, rd), AiResponse(rm));
        assert s1.messages[|s.messages|] == rm;
        assert Index(s1, MemoryFor(rm, rv.value, p.chatID, uid, reply.value)).memory[..|s.memory|] == s.memory;
      }
    }
  }

  /** Lines 140-176: an `ai-image` turn starts with `ai-image-start`; it ends with exactly one
      `ai-error` carrying "Failed to generate image" and no `ai-image-response` when any step
      throws, and otherwise with `ai-image-response` carrying the stored reply flagged
      `image: true`, stored as a "model" message with `file: true` and the generated text and
      image URL as content. */
  lemma AiImageEvents(s: ServerState, user: Option<User>, p: ImagePayload, svc: Services)
    ensures var r := AiImageTurn(s, user, p, svc);
            var e := r.after.events;
            var n := |s.events|;
            && n + 2 <= |e| <= n + 3 && e[..n] == s.events
            && e[n] == AiImageStart
            && r.after.memory == s.memory
            && (r.stoppedAt.Some? <==> e[|e| - 1] == AiError(ImageFailure))
            && (r.stoppedAt.Some? ==>
                  (forall i | n <= i < |e| - 1 :: !e[i].AiError?) &&
                  (forall i | n <= i < |e| :: !e[i].AiImageResponse?))
            && (r.stoppedAt.None? ==>
                  && user.Some? && svc.generateImage(p.prompt).Some?
                  && |r.after.messages| == |s.messages| + 2
                  && (forall i | n <= i < |e| :: !e[i].AiError?)
                  && var m := r.after.messages[|s.messages| + 1];
                     && e[|e| - 1] == AiImageResponse(m, true)
                     && m.file && m.role == ModelRole && m.chatID == p.chatID
                     && m.userID == user.value.id
                     && m.content == Picture(svc.generateImage(p.prompt).value.0,
                                             svc.generateImage(p.prompt).value.1))
  {
  }

  /** The image turn stores at most two messages and no memory entry, so it keeps the
      store invariant. */
  lemma AiImageKeepsValid(s: ServerState, user: Option<User>, p: ImagePayload, svc: Services)
    requires Valid(s)
    ensures Valid(AiImageTurn(s, user, p, svc).after)
  {
    var s0 := Emit(s, AiImageStart);
    if user.Some? {
      var ud := Draft(user.value.id, p.chatID, Text(p.prompt), false, UserRole);
      if svc.accepts(ud) {
        StoreKeepsValid(s0, ud);
        var s1 := Emit(Store(s0, ud), UserMessageAck(Stamp(s0, ud), p.tempID));
        var image := svc.generateImage(p.prompt);
        if image.Some? {
          var rd := Draft(user.value.id, p.chatID, Picture(image.value.0, image.value.1), true, ModelRole);
          if svc.accepts(rd) {
            StoreKeepsValid(s1, rd);
          }
        }
      }
    }
  }

  // ---------------------------------------------------------------------------
  // The server's state, updated in place

  /** The message store, the memory index and the socket's event log, as the handlers
      change them one awaited step at a time. */
  class Backend {
    var messages: seq<Message>
    var memory: seq<MemoryEntry>
    var events: seq<Event>
    var clock: nat

    function State(): ServerState
      reads this
    {
      ServerState(messages, memory, events, clock)
    }

    constructor ()
      ensures State() == ServerState([], [], [], 0) && Valid(State())
    {
      messages, memory, events, clock := [], [], [], 0;
    }

    /** `messageModel.create`: the stored record gets the next id and the current time. */
    method Create(d: Draft) returns (m: Message)
      modifies this
      ensures m == Stamp(old(State()), d) && State() == Store(old(State()), d)
    {
      m := Message(|messages|, d.userID, d.chatID, d.role, d.content, d.file, clock);
      messages := messages + [m];
      clock := clock + 1;
    }

    /** `socket.emit`. */
    method Send(e: Event)
      modifies this
      ensures State() == Emit(old(State()), e)
    {
      events := events + [e];
    }

    /** `createMemory`. */
    method Remember(e: MemoryEntry)
      modifies this
      ensures State() == Index(old(State()), e)
    {
      memory := memory + [e];
    }

    /** The `ai-message` handler, lines 40-138, step by step; it keeps the store invariant. */
    method OnAiMessage(user: Option<User>, p: MessagePayload, svc: Services)
      returns (calls: seq<Call>, stoppedAt: Option<Step>)
      requires Valid(State())
      modifies this
      ensures var t := AiMessageTurn(old(State()), user, p, svc);
              State() == t.after && calls == t.calls && stoppedAt == t.stoppedAt
      ensures Valid(State())
    {
      AiMessageKeepsValid(State(), user, p, svc);
      Send(AiResponseStart);
      if user.None? {
        calls, stoppedAt := [], Some(ReadUser);
        return;
      }
      var uid := user.value.id;
      var ud := UserDraft(uid, p);
      calls := [CreateMessage(ud), GenerateVector(p.content)];
      if !svc.accepts(ud) {
        stoppedAt := Some(StoreUserMessage);
        return;
      }
      var um := Create(ud);
      var uv := svc.embed(p.content);
      if uv.None? {
        stoppedAt := Some(EmbedUserMessage);
        return;
      }
      Send(UserMessageAck(um, p.tempID));
      var ue := MemoryFor(um, uv.value, p.chatID, uid, p.content);
      calls := calls + [CreateMemory(ue)];
      if !svc.indexes(ue) {
        stoppedAt := Some(IndexUserMessage);
        return;
      }
      Remember(ue);
      var q := MemoryQuery(uv.value, MemoryLimit, uid);
      calls := calls + [QueryMemory(q), FindRecent(p.chatID, HistoryLimit)];
      if !svc.readable(p.chatID) {
        stoppedAt := Some(FetchHistory);
        return;
      }
      var matches := svc.query(memory, q);
      if matches.None? {
        stoppedAt := Some(QueryMatches);
        return;
      }
      var prompt := Prompt(matches.value, RecentHistory(messages, p.chatID));
      calls := calls + [GenerateResponse(prompt)];
      var reply := svc.generate(prompt);
      if reply.None? {
        stoppedAt := Some(Generate);
        return;
      }
      var rd := ReplyDraft(uid, p.chatID, reply.value);
      calls := calls + [CreateMessage(rd), GenerateVector(reply.value)];
      if !svc.accepts(rd) {
        stoppedAt := Some(StoreReply);
        return;
      }
      var rm := Create(rd);
      var rv := svc.embed(reply.value);
      if rv.None? {
        stoppedAt := Some(EmbedReply);
        return;
      }
      Send(AiResponse(rm));
      var re := MemoryFor(rm, rv.value, p.chatID, uid, reply.value);
      calls := calls + [CreateMemory(re)];
      if !svc.indexes(re) {
        stoppedAt := Some(IndexReply);
        return;
      }
      Remember(re);
      stoppedAt := None;
    }

    /** The `ai-image` handler, lines 140-176, step by step; every failure is caught and
        reported with one `ai-error`. */
    method OnAiImage(user: Option<User>, p: ImagePayload, svc: Services)
      returns (calls: seq<Call>, stoppedAt: Option<Step>)
      requires Valid(State())
      modifies this
      ensures var t := AiImageTurn(old(State()), user, p, svc);
              State() == t.after && calls == t.calls && stoppedAt == t.stoppedAt
      ensures Valid(State())
    {
      AiImageKeepsValid(State(), user, p, svc);
      Send(AiImageStart);
      calls := [];
      if user.None? {
        stoppedAt := Some(ReadUser);
      } else {
        var ud := Draft(user.value.id, p.chatID, Text(p.prompt), false, UserRole);
        calls := [CreateMessage(ud)];
        if !svc.accepts(ud) {
          stoppedAt := Some(StoreUserMessage);
        } else {
          var um := Create(ud);
          Send(UserMessageAck(um, p.tempID));
          calls := calls + [GenerateImage(p.prompt)];
          var image := svc.generateImage(p.prompt);
          if image.None? {
            stoppedAt := Some(CreateImage);
          } else {
            var rd := Draft(user.value.id, p.chatID, Picture(image.value.0, image.value.1), true, ModelRole);
            calls := calls + [CreateMessage(rd)];
            if !svc.accepts(rd) {
              stoppedAt := Some(StoreImage);
            } else {
              var rm := Create(rd);
              Send(AiImageResponse(rm, true));
              stoppedAt := None;
              return;
            }
          }
        }
      }
      Send(AiError(ImageFailure));
    }
  }
}
