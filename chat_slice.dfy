/** The client's chat slice: the chat list, the per-chat message cache and two busy flags.
    Its reducers are not part of this model; their effects are stated here as the plain
    list and map operations their names and call sites describe. */
module ChatSlice {
  import opened Common

  datatype Chat = Chat(id: string, title: string)

  /** A message as the client renders it. `id` is the server's `_id`, or the temporary id of
      a message not yet confirmed; `clientKey` keeps the temporary id after confirmation. */
  datatype ClientMessage = ClientMessage(
    id: string, clientKey: Option<string>, chatID: string, role: Role, content: string,
    file: bool, fileType: Option<string>, fileUrl: Option<string>)

  /** `state.chat.messages`: the cached messages of each chat. */
  type MessageMap = map<string, seq<ClientMessage>>

  datatype ChatState = ChatState(chats: seq<Chat>, messages: MessageMap, loading: bool, creating: bool)

  datatype ChatAction =
    | LoadChats(chats: seq<Chat>)
    | LoadMessages(chatID: string, loaded: seq<ClientMessage>)
    | SetLoading(loading: bool)
    | AppendChat(chat: Chat)
    | SetCreating(creating: bool)
    | RemoveChat(chatID: string)
    | RemoveMessages(chatID: string)

  /** The cached messages of chat `c`; none when the chat was never loaded. */
  function Messages(m: MessageMap, c: string): seq<ClientMessage> {
    if c in m then m[c] else []
  }

  /** `appendMessage({chatID: c, message})`: the message goes at the end of its chat. */
  function Append(m: MessageMap, c: string, message: ClientMessage): (r: MessageMap)
    ensures r.Keys == m.Keys + {c}
    ensures Messages(r, c) == Messages(m, c) + [message]
    ensures forall k | k in m && k != c :: r[k] == m[k]
  {
    m[c := Messages(m, c) + [message]]
  }

  /** Every message of `ms` whose id is `tempID` replaced by `confirmed`. */
  function ReplaceIn(ms: seq<ClientMessage>, tempID: string, confirmed: ClientMessage): (r: seq<ClientMessage>)
    ensures |r| == |ms|
    ensures forall i | 0 <= i < |ms| :: r[i] == (if ms[i].id == tempID then confirmed else ms[i])
  {
    seq(|ms|, i requires 0 <= i < |ms| => if ms[i].id == tempID then confirmed else ms[i])
  }

  /** `replaceMessage({chatID: c, tempID, confirmedMessage})`: an undefined `tempID` or an
      uncached chat changes nothing. */
  function Replace(m: MessageMap, c: string, tempID: Option<string>, confirmed: ClientMessage): (r: MessageMap)
    ensures r.Keys == m.Keys
    ensures forall k | k in m && k != c :: r[k] == m[k]
    ensures tempID.None? ==> r == m
  {
    if tempID.None? || c !in m then m else m[c := ReplaceIn(m[c], tempID.value, confirmed)]
  }

  /** What one action does to the slice. */
  function Reduce(s: ChatState, a: ChatAction): ChatState {
    match a
    case LoadChats(chats) => s.(chats := chats)
    case LoadMessages(c, loaded) => s.(messages := s.messages[c := loaded])
    case SetLoading(b) => s.(loading := b)
    case AppendChat(chat) => s.(chats := s.chats + [chat])
    case SetCreating(b) => s.(creating := b)
    case RemoveChat(c) => s.(chats := Without(s.chats, c))
    case RemoveMessages(c) => s.(messages := s.messages - {c})
  }

  /** The chat list without chat `c`. */
  function Without(chats: seq<Chat>, c: string): (r: seq<Chat>)
    ensures forall x :: x in r <==> x in chats && x.id != c
  {
    if chats == [] then []
    else if chats[0].id == c then Without(chats[1..], c)
    else [chats[0]] + Without(chats[1..], c)
  }

  /** The slice after dispatching `log` in order. */
  function Run(s: ChatState, log: seq<ChatAction>): ChatState
    decreases |log|
  {
    if log == [] then s else Run(Reduce(s, log[0]), log[1..])
  }

  lemma {:induction false} RunAppend(s: ChatState, a: seq<ChatAction>, b: seq<ChatAction>)
    ensures Run(s, a + b) == Run(Run(s, a), b)
    decreases |a|
  {
    if a == [] {
      assert a + b == b;
    } else {
      assert (a + b)[1..] == a[1..] + b;
      RunAppend(Reduce(s, a[0]), a[1..], b);
    }
  }

  /** The optimistic round trip of a sent message: appending the temporary message and then
      replacing it by the confirmed one is the same as appending the confirmed one, provided
      no cached message of the chat already used the temporary id. */
  lemma ReconcileOptimistic(m: MessageMap, c: string, temp: ClientMessage, confirmed: ClientMessage)
    requires forall x | x in Messages(m, c) :: x.id != temp.id
    ensures Replace(Append(m, c, temp), c, Some(temp.id), confirmed) == Append(m, c, confirmed)
  {
    var before := Messages(m, c);
    var r := ReplaceIn(before + [temp], temp.id, confirmed);
    assert r == before + [confirmed] by {
      forall i | 0 <= i < |before|
        ensures r[i] == before[i]
      {
        assert before[i] in before;
        assert (before + [temp])[i] == before[i];
      }
    }
  }
}
