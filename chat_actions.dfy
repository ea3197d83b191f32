/** The chat thunks. Each is a fixed sequence of dispatches to the chat slice around one
    request, whose outcome is an abstract `Response`. */
module ChatActions {
  import opened Common
  import opened ChatSlice

  /** `createChat` (lines 12-27): `setCreating(true)` first and `setCreating(false)` in
      `finally`; the new chat is appended and returned only when the post succeeds. */
  method CreateChat(response: Response<Chat>) returns (dispatched: seq<ChatAction>, created: Option<Chat>)
    ensures |dispatched| >= 2
    ensures dispatched[0] == SetCreating(true) && dispatched[|dispatched| - 1] == SetCreating(false)
    ensures response.Ok? ==> dispatched == [SetCreating(true), AppendChat(response.data), SetCreating(false)]
                             && created == Some(response.data)
    ensures response.Failed? ==> dispatched == [SetCreating(true), SetCreating(false)] && created.None?
    ensures forall s ::
              && !Run(s, dispatched).creating
              && Run(s, dispatched).chats == s.chats + (if response.Ok? then [response.data] else [])
              && Run(s, dispatched).messages == s.messages
  {
    dispatched := [SetCreating(true)];
    created := None;
    if response.Ok? {
      dispatched := dispatched + [AppendChat(response.data)];
      created := Some(response.data);
    }
    dispatched := dispatched + [SetCreating(false)];
    forall s ensures && !Run(s, dispatched).creating
                     && Run(s, dispatched).chats == s.chats + (if response.Ok? then [response.data] else [])
                     && Run(s, dispatched).messages == s.messages
    {
      if response.Ok? {
        assert dispatched == [SetCreating(true), AppendChat(response.data)] + [SetCreating(false)];
        RunAppend(s, [SetCreating(true), AppendChat(response.data)], [SetCreating(false)]);
        RunAppend(s, [SetCreating(true)], [AppendChat(response.data)]);
      } else {
        assert dispatched == [SetCreating(true)] + [SetCreating(false)];
        RunAppend(s, [SetCreating(true)], [SetCreating(false)]);
      }
    }
  }

  /** `getChats` (lines 29-41): the chat list is replaced only on success, and the loading
      flag ends lowered on both paths. */
  method GetChats(response: Response<seq<Chat>>) returns (dispatched: seq<ChatAction>)
    ensures |dispatched| >= 2
    ensures dispatched[0] == SetLoading(true) && dispatched[|dispatched| - 1] == SetLoading(false)
    ensures response.Ok? ==> dispatched == [SetLoading(true), LoadChats(response.data), SetLoading(false)]
    ensures response.Failed? ==> dispatched == [SetLoading(true), SetLoading(false)]
    ensures forall s ::
              && !Run(s, dispatched).loading
              && Run(s, dispatched).chats == (if response.Ok? then response.data else s.chats)
  {
    dispatched := [SetLoading(true)];
    if response.Ok? {
      dispatched := dispatched + [LoadChats(response.data)];
    }
    dispatched := dispatched + [SetLoading(false)];
    forall s ensures && !Run(s, dispatched).loading
                     && Run(s, dispatched).chats == (if response.Ok? then response.data else s.chats)
    {
      if response.Ok? {
        assert dispatched == [SetLoading(true), LoadChats(response.data)] + [SetLoading(false)];
        RunAppend(s, [SetLoading(true), LoadChats(response.data)], [SetLoading(false)]);
        RunAppend(s, [SetLoading(true)], [LoadChats(response.data)]);
      } else {
        assert dispatched == [SetLoading(true)] + [SetLoading(false)];
        RunAppend(s, [SetLoading(true)], [SetLoading(false)]);
      }
    }
  }

  /** `getMessages(chatID)` (lines 43-59). `cache` is `getState().chat.messages`; a cached
      array is truthy even when empty, so any cached entry ends the thunk before the request. */
  method GetMessages(cache: MessageMap, chatID: string, response: Response<seq<ClientMessage>>)
    returns (requested: bool, dispatched: seq<ChatAction>)
    ensures requested <==> chatID !in cache
    ensures !requested ==> dispatched == []
    ensures requested ==> dispatched == (if response.Ok? then [LoadMessages(chatID, response.data)] else [])
    ensures forall s: ChatState | s.messages == cache ::
              && (chatID in Run(s, dispatched).messages <==> chatID in cache || response.Ok?)
              && (forall k | k != chatID :: k in Run(s, dispatched).messages <==> k in cache)
  {
    dispatched := [];
    requested := chatID !in cache;
    if !requested {
      return;
    }
    if response.Ok? {
      dispatched := dispatched + [LoadMessages(chatID, response.data)];
    }
  }

  /** `deleteChat(chatID)` (lines 61-73): nothing happens for a falsy id; the chat and its
      cached messages are removed, in that order, only after the delete succeeds. */
  method DeleteChat(chatID: Option<string>, response: Response<()>)
    returns (requested: bool, dispatched: seq<ChatAction>)
    ensures requested <==> Truthy(chatID)
    ensures dispatched == (if requested && response.Ok? then [RemoveChat(chatID.value), RemoveMessages(chatID.value)] else [])
    ensures forall s :: requested && response.Ok? ==>
              && chatID.value !in Run(s, dispatched).messages
              && (forall x | x in Run(s, dispatched).chats :: x.id != chatID.value)
  {
    dispatched := [];
    requested := Truthy(chatID);
    if !requested {
      return;
    }
    if response.Ok? {
      var c := chatID.value;
      dispatched := dispatched + [RemoveChat(c), RemoveMessages(c)];
      forall s ensures && c !in Run(s, dispatched).messages
                       && (forall x | x in Run(s, dispatched).chats :: x.id != c)
      {
        assert dispatched == [RemoveChat(c)] + [RemoveMessages(c)];
        RunAppend(s, [RemoveChat(c)], [RemoveMessages(c)]);
      }
    }
  }
}
