/** The home page: it owns the open chat, the loading flags, the sidebar and the attachment
    being sent, sends the two socket requests, and folds the server's socket events into the
    chat slice's message cache. */
module Home {
  import opened Common
  import opened ChatSlice
  import ChatArea
  import AiInput
  import ChatMemory
  import SocketServer

  /** The text of the message shown for an `ai-error` (lines 84-85). */
  const ErrorContent: string :=
    "I apologize, but I encountered an error while processing your request. Please try again."

  /** The `chatID` the socket handlers see: they are registered once, by the mount effect
      (lines 33-97), and so read the initial value of line 19. */
  const MountChatID: Option<string> := None

  /** The width from which the sidebar stays open (lines 137 and 148). */
  const WideScreen: int := 1024

  /** The requests the page emits on the socket. */
  datatype Outbound =
    | AiMessage(chatID: string, content: string, file: bool, fileData: Option<seq<bv8>>,
                fileType: Option<string>, tempID: string)
    | AiImage(chatID: string, prompt: string)

  /** Lines 100-111: the optimistic message shown until the server confirms it. */
  function TempMessage(tempID: string, chatID: string, selectedFile: Option<AiInput.SelectedFile>,
                       fileUrl: Option<string>, content: string): (m: ClientMessage)
    ensures m.id == tempID && m.clientKey == Some(tempID)
    ensures m.chatID == chatID && m.role == UserRole && m.content == content && m.fileUrl == fileUrl
    ensures m.file <==> selectedFile.Some?
    ensures m.fileType == (if selectedFile.Some? then Some(selectedFile.value.fileType) else None)
  {
    ClientMessage(tempID, Some(tempID), chatID, UserRole, content, selectedFile.Some?,
                  if selectedFile.Some? then Some(selectedFile.value.fileType) else None, fileUrl)
  }

  /** Lines 81-88: the message shown for an `ai-error` in chat `c`; `nonce` stands for
      `nanoid()`. */
  function ErrorMessage(c: string, nonce: string): ClientMessage {
    ClientMessage("error-" + nonce, None, c, ErrorRole, ErrorContent, false, None, None)
  }

  /** Lines 81-92: the cache after an `ai-error` handled with `chatID` in view; the error
      message is appended only for a non-null chat. */
  function ErrorAppended(m: MessageMap, chatID: Option<string>, nonce: string): (r: MessageMap)
    ensures !Truthy(chatID) ==> r == m
    ensures Truthy(chatID) ==> r == Append(m, chatID.value, ErrorMessage(chatID.value, nonce))
  {
    if Truthy(chatID) then Append(m, chatID.value, ErrorMessage(chatID.value, nonce)) else m
  }

  /** A sent message and its confirmation: the page appends the temporary message, the
      server answers `user-message` with the stored message of the same chat and the same
      `tempID`, and the cache ends as if the confirmed message, keyed by the temporary id,
      had been appended directly. */
  lemma SendThenConfirm(m: MessageMap, chatID: string, nonce: string,
                        selectedFile: Option<AiInput.SelectedFile>, fileUrl: Option<string>,
                        content: string, stored: ClientMessage)
    requires forall x | x in Messages(m, chatID) :: x.id != "temp-" + nonce
    requires stored.chatID == chatID
    ensures var tempID := "temp-" + nonce;
            var sent := Append(m, chatID, TempMessage(tempID, chatID, selectedFile, fileUrl, content));
            Replace(sent, stored.chatID, Some(tempID), stored.(clientKey := Some(tempID))) ==
              Append(m, chatID, stored.(clientKey := Some(tempID)))
  {
    var tempID := "temp-" + nonce;
    ReconcileOptimistic(m, chatID, TempMessage(tempID, chatID, selectedFile, fileUrl, content),
                        stored.(clientKey := Some(tempID)));
  }

  /** With a chat open, an `ai-error` handled as written leaves the cache unchanged, while
      the handler reading the open chat would have shown the error. */
  lemma AiErrorDroppedInOpenChat(m: MessageMap, c: string, nonce: string)
    requires c != ""
    ensures ErrorAppended(m, MountChatID, nonce) == m
    ensures ErrorAppended(m, Some(c), nonce) != m
  {
    var r := ErrorAppended(m, Some(c), nonce);
    assert |Messages(r, c)| == |Messages(m, c)| + 1;
  }

  /** Lines 42-50 and 66-74: the record a reply event carries, as the page appends it; `id`
      is its `_id` as a string. The record has no `fileUrl` and no `fileType`, and the
      `image` flag of `ai-image-response` is not kept. An image reply's content is the
      `{text, imageUrl}` object, which the chat area never reads as text (it draws a file
      message from `fileUrl`); only its text is kept here. */
  function Received(m: ChatMemory.Message, id: string): (c: ClientMessage)
    ensures c.chatID == m.chatID && c.role == m.role && c.file == m.file
    ensures c.fileUrl.None? && c.clientKey.None?
  {
    ClientMessage(id, None, m.chatID, m.role, m.content.text, m.file, None, None)
  }

  /** The copy button (ChatArea.jsx, lines 272-281) on what the page appends itself: the
      temporary message of a send is a role-"user" message and has no copy button, and the
      error message has one, which copies its apology. */
  lemma CopyOfPageMessages(tempID: string, c: string, f: Option<AiInput.SelectedFile>,
                           u: Option<string>, content: string, nonce: string)
    ensures !ChatArea.HasCopyButton(TempMessage(tempID, c, f, u, content))
    ensures ChatArea.HasCopyButton(ErrorMessage(c, nonce))
    ensures ChatArea.CopyText(ErrorMessage(c, nonce)) == Some(ErrorContent)
  {
  }

  /** The copy button on the replies the server sends. The reply of a completed
      `ai-message` turn has the button, and it copies the generated text. The reply of a
      completed `ai-image` turn has the button too, but it is stored with `file: true` and
      no `fileUrl`, so the button hands `undefined` to the clipboard. */
  lemma CopyOfServerReplies(s: SocketServer.ServerState, user: Option<SocketServer.User>,
                            p: SocketServer.MessagePayload, ip: SocketServer.ImagePayload,
                            svc: SocketServer.Services, id: string)
    ensures var r := SocketServer.AiMessageTurn(s, user, p, svc);
            var n := |s.events|;
            |r.after.events| == n + 3 ==>
              && r.after.events[n + 2].AiResponse?
              && r.calls[5].GenerateResponse?
              && svc.generate(r.calls[5].turns).Some?
              && var c := Received(r.after.events[n + 2].message, id);
                 ChatArea.HasCopyButton(c) && ChatArea.CopyText(c) == Some(svc.generate(r.calls[5].turns).value)
    ensures var r := SocketServer.AiImageTurn(s, user, ip, svc);
            var e := r.after.events;
            r.stoppedAt.None? ==>
              && e[|e| - 1].AiImageResponse?
              && var c := Received(e[|e| - 1].message, id);
                 ChatArea.HasCopyButton(c) && ChatArea.CopyText(c).None?
  {
    SocketServer.AiMessageEvents(s, user, p, svc);
    SocketServer.AiMessageRecordsEntries(s, user, p, svc);
    SocketServer.AiImageEvents(s, user, ip, svc);
  }

  /** Line 20: the page never sets `isTyping`, so the chat area always gets `false`. */
  const IsTyping: bool := false

  /** Line 26 and line 180: the list handed to the chat area is the cache entry of the open
      chat. A `null` chat is looked up under the property name "null". */
  function Displayed(m: MessageMap, chatID: Option<string>): seq<ClientMessage> {
    Messages(m, if chatID.Some? then chatID.value else "null")
  }

  /** With the page's `isTyping`, the chat area shows its empty state exactly when the open
      chat has no cached message, and a message appended to the open chat hides it. */
  lemma EmptyStateOfPage(m: MessageMap, c: string, message: ClientMessage)
    ensures ChatArea.ShowEmptyState(Displayed(m, Some(c)), IsTyping) <==> Messages(m, c) == []
    ensures !ChatArea.ShowEmptyState(Displayed(Append(m, c, message), Some(c)), IsTyping)
  {
  }

  /** Every field of the page, for stating what a handler leaves unchanged. */
  datatype PageState = PageState(chatID: Option<string>, messages: MessageMap,
                                 loadingMessage: bool, loadingImage: bool, sidebarOpen: bool,
                                 selectedFile: Option<AiInput.SelectedFile>,
                                 fileUrl: Option<string>, outbox: seq<Outbound>)

  /** The page's state; `messages` is the chat slice's cache, which the page changes only
      through `appendMessage` and `replaceMessage`. */
  class Page {
    var chatID: Option<string>
    var messages: MessageMap
    var loadingMessage: bool
    var loadingImage: bool
    var sidebarOpen: bool
    var selectedFile: Option<AiInput.SelectedFile>
    var fileUrl: Option<string>
    var outbox: seq<Outbound>

    function State(): PageState
      reads this
    {
      PageState(chatID, messages, loadingMessage, loadingImage, sidebarOpen, selectedFile, fileUrl, outbox)
    }

    /** Lines 14-24. */
    constructor (messages: MessageMap)
      ensures State() == PageState(None, messages, false, false, true, None, None, [])
    {
      chatID := None;
      this.messages := messages;
      loadingMessage, loadingImage, sidebarOpen := false, false, true;
      selectedFile, fileUrl := None, None;
      outbox := [];
    }

    /** `handleSendMessage` (lines 99-124); `nonce` stands for `nanoid()`. The chat area
        calls it only while its input area is shown. The open chat then has a message, so
        the empty state is gone. */
    method HandleSendMessage(content: string, nonce: string)
      requires ChatArea.ShowInputArea(chatID)
      modifies this
      ensures var tempID := "temp-" + nonce;
              var c := old(chatID).value;
              var f := old(selectedFile);
              State() == old(State()).(
                messages := Append(old(messages), c, TempMessage(tempID, c, f, old(fileUrl), content)),
                outbox := old(outbox) + [AiMessage(c, content, f.Some?,
                                                   if f.Some? then Some(f.value.buffer) else None,
                                                   if f.Some? then Some(f.value.fileType) else None,
                                                   tempID)],
                selectedFile := None)
      ensures !ChatArea.ShowEmptyState(Displayed(messages, chatID), IsTyping)
    {
      var tempID := "temp-" + nonce;
      var c := chatID.value;
      messages := Append(messages, c, TempMessage(tempID, c, selectedFile, fileUrl, content));
      var f := selectedFile;
      outbox := outbox + [AiMessage(c, content, f.Some?,
                                    if f.Some? then Some(f.value.buffer) else None,
                                    if f.Some? then Some(f.value.fileType) else None,
                                    tempID)];
      selectedFile := None;
    }

    /** `handleImageGeneration` (lines 126-133): the request carries no `tempID`, and the
        cache is not touched. */
    method HandleImageGeneration(content: string)
      requires ChatArea.ShowInputArea(chatID)
      modifies this
      ensures State() == old(State()).(outbox := old(outbox) + [AiImage(old(chatID).value, content)])
    {
      outbox := outbox + [AiImage(chatID.value, content)];
    }

    /** `ai-response-start` (lines 38-40). */
    method OnAiResponseStart()
      modifies this
      ensures State() == old(State()).(loadingMessage := true)
    {
      loadingMessage := true;
    }

    /** `ai-response` (lines 42-50): the reply goes under its own chat, which need not be
        the one open. */
    method OnAiResponse(reply: ClientMessage)
      modifies this
      ensures State() == old(State()).(loadingMessage := false,
                                       messages := Append(old(messages), reply.chatID, reply))
    {
      loadingMessage := false;
      messages := Append(messages, reply.chatID, reply);
    }

    /** `user-message` (lines 52-60): the temporary message is replaced by the stored one,
        which keeps the temporary id as its `clientKey`. */
    method OnUserMessage(stored: ClientMessage, tempID: Option<string>)
      modifies this
      ensures State() == old(State()).(
                messages := Replace(old(messages), stored.chatID, tempID, stored.(clientKey := tempID)))
    {
      messages := Replace(messages, stored.chatID, tempID, stored.(clientKey := tempID));
    }

    /** `ai-image-start` (lines 62-64). */
    method OnAiImageStart()
      modifies this
      ensures State() == old(State()).(loadingImage := true)
    {
      loadingImage := true;
    }

    /** `ai-image-response` (lines 66-74). */
    method OnAiImageResponse(reply: ClientMessage)
      modifies this
      ensures State() == old(State()).(loadingImage := false,
                                       messages := Append(old(messages), reply.chatID, reply))
    {
      loadingImage := false;
      messages := Append(messages, reply.chatID, reply);
    }

    /** `ai-error` as written (lines 76-93): both flags drop, and the error message is
        appended only if the mount-time `chatID` is set, which it never is, so the cache
        is unchanged. */
    method OnAiError(nonce: string)
      modifies this
      ensures State() == old(State()).(loadingMessage := false, loadingImage := false,
                                       messages := ErrorAppended(old(messages), MountChatID, nonce))
      ensures messages == old(messages)
    {
      loadingMessage := false;
      loadingImage := false;
      messages := ErrorAppended(messages, MountChatID, nonce);
    }

    /** `ai-error` reading the chat open when the event arrives. */
    method OnAiErrorInOpenChat(nonce: string)
      modifies this
      ensures State() == old(State()).(loadingMessage := false, loadingImage := false,
                                       messages := ErrorAppended(old(messages), old(chatID), nonce))
      ensures Truthy(old(chatID)) ==>
                |Messages(messages, old(chatID).value)| == |Messages(old(messages), old(chatID).value)| + 1
    {
      loadingMessage := false;
      loadingImage := false;
      messages := ErrorAppended(messages, chatID, nonce);
    }

    /** `handleResize` (lines 147-153). */
    method HandleResize(width: int)
      modifies this
      ensures State() == old(State()).(sidebarOpen := width >= WideScreen)
    {
      if width >= WideScreen {
        sidebarOpen := true;
      } else {
        sidebarOpen := false;
      }
    }

    /** `toggleSidebar` (lines 142-144). */
    method ToggleSidebar()
      modifies this
      ensures State() == old(State()).(sidebarOpen := !old(sidebarOpen))
    {
      sidebarOpen := !sidebarOpen;
    }

    /** `handlechatselect` (lines 135-140): a narrow window closes the sidebar, a wide one
        leaves it as it was. */
    method HandleChatSelect(id: string, width: int)
      modifies this
      ensures State() == old(State()).(chatID := Some(id),
                                       sidebarOpen := if width < WideScreen then false else old(sidebarOpen))
    {
      chatID := Some(id);
      if width < WideScreen {
        sidebarOpen := false;
      }
    }
  }
}
