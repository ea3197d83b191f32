# Nebula chat: a verified model of the conversational core

Nebula is a chat application. A browser client talks to a Node backend over HTTP, for
accounts and chats, and over a socket, for conversational turns. This project models the
backend socket server and the client-side state handling in Dafny, and proves what each
piece promises.

**The socket server** (`socket_server.dfy`, `chat_memory.dfy`):
- The handshake middleware decides whether a connection gets a user. It is modelled as
  written and in a corrected form.
- The `ai-message` turn stores the user message and acknowledges it. It then indexes the
  message in the vector memory and reads the five best memory matches and the chat's twenty
  newest messages. From these it assembles the prompt, generates a reply, stores and
  emits the reply, and indexes it.
- The `ai-image` turn stores the prompt and generates an image, then stores and emits the
  picture. Any failure is reported with `ai-error`.

Both turns are pure functions (`AiMessageTurn`, `AiImageTurn`) over the server state: the
message store, the memory index, the event log and the store's clock. They return the new
state, the collaborator calls issued in order, and the step that threw, if any. The
`ai-message` turn is written in four stages, one per part of the handler: the user message
(`AiMessageTurn`), its memory entry (`Recall`), the reads and the prompt (`Consult`), and
the reply (`Answer`). Each stage has lemmas of its own, which the turn's lemmas combine. The
`Backend` class performs the same turns one awaited step at a time on its fields and is
proved equal to those functions. It also keeps the store invariant `Valid`:
- ids are creation indices;
- timestamps strictly increase;
- every memory entry describes the message it points at.

The embedding, memory-query, generation and image services, and the store's writes and
reads, are fields of a `Services` value. Each of them may fail. Each `Promise.all` pair is
modelled as two calls in sequence.

**The client**:
- `user_slice.dfy`: the user reducers, as a class whose methods assign its fields.
- `user_actions.dfy` and `chat_actions.dfy`: the thunks. Each returns the list of actions
  it dispatches and is proved against a pure replay of that list (`Run`) on any store state.
  The HTTP request is an abstract `Response`: its data, or a failure.
- `chat_slice.dfy`: the chat slice's reducers are not part of this model. Their effects are
  stated as the append, replace and remove operations on a map from chat id to messages
  that their call sites describe.
- `ai_input.dfy`, `ai_input_2.dfy` and `auto_resize.dfy`: the two input boxes. They cover
  the attachment checks (file count, type prefix, 10 MiB bound), the send guard and the
  integer height clamp.
- `chat_area.dfy`: send routing, reaction toggles, the copy target, and the empty-state and
  input-area conditions (`ShowEmptyState`, line 138, and `ShowInputArea`, line 443, of
  `ChatArea.jsx`). `home.dfy` states what these show for the page's own state.
- `new_chat_dialog.dfy`: title validation.
- `home.dfy`: the page's optimistic messages and socket handlers.

Three facts of the code shape what the turns promise:
- The user message is stored before the history is read (`socket.server.js:44-50` and
  `socket.server.js:77-85`). The short-term history of a turn is therefore never empty: it
  always ends with that message (`ChatMemory.RecentHistoryEndsWithNewest`,
  `SocketServer.AiMessagePrompt`).
- The socket server never reads the payload's `file`, `fileData` or `fileType`. It stores the
  user message with `file: false` (`socket.server.js:44-50`), and the prompt carries text
  only (`SocketServer.AiMessageStoresUserMessage`, `ChatMemory.PromptLayout`).
- The `ai-message` handler (`socket.server.js:40-138`) has no try/catch. A failing step ends
  the turn: nothing more is stored, indexed or emitted, there is no `error`-role message and
  no `ai-error` (`SocketServer.AiMessageEvents`, `SocketServer.AiMessageRecordsEntries`).

## Model

| member | source | states |
|---|---|---|
| Text.Trim | frontend/src/store/actions/userAction.js:6-9 | `trim` never lengthens a string, and the result neither starts nor ends with ECMAScript white space |
| Text.TrimStart | frontend/src/store/actions/userAction.js:6-9 | the leading part removed is all white space, and what is left does not start with white space |
| Text.TrimEnd | frontend/src/store/actions/userAction.js:6-9 | the trailing part removed is all white space, and what is left does not end with white space |
| Text.TrimSlice | frontend/src/store/actions/userAction.js:6-9 | `trim` keeps one contiguous piece of its input and removes only white space around it |
| Text.TrimEmptyIffBlank | frontend/src/store/actions/userAction.js:10-11 | a trimmed string is empty exactly when the original is all white space |
| Text.TrimIdempotent | frontend/src/components/ui/new-chat-dialog.jsx:22-24 | trimming a trimmed title changes nothing |
| Text.Join | backend/src/sockets/socket.server.js:102 | specified by `Text.SplitJoin`: splitting the joined text at the separator gives the parts back |
| Text.SplitJoin | backend/src/sockets/socket.server.js:102 | joining newline-free texts with "\n" and splitting at "\n" gives the texts back |
| ChatMemory.ChatHistory | backend/src/sockets/socket.server.js:78-81 | the chat's messages are exactly the stored messages with that chatID, no more than the store holds |
| ChatMemory.ReverseTakeReverse | backend/src/sockets/socket.server.js:82-85 | reversing, keeping the first n and reversing back leaves the last min(n, length) elements in their original order |
| ChatMemory.NewestFirstIsSorted | backend/src/sockets/socket.server.js:82 | the reversed chronological history is ordered by `createdAt` descending, as the sort asks |
| ChatMemory.ChatHistoryChronological | backend/src/sockets/socket.server.js:78-82 | a chat's messages keep the store's strictly increasing timestamps |
| ChatMemory.RecentHistory | backend/src/sockets/socket.server.js:77-85 | specified by `RecentHistoryIsLatest`, `RecentHistoryBounded`, `RecentHistoryNewestOldestFirst` and `RecentHistoryEndsWithNewest` below |
| ChatMemory.RecentHistoryIsLatest | backend/src/sockets/socket.server.js:77-85 | the history is the last min(20, n) messages of the chat, in store order |
| ChatMemory.RecentHistoryBounded | backend/src/sockets/socket.server.js:77-85 | the history holds at most 20 messages, all stored and all of the chat |
| ChatMemory.RecentHistoryNewestOldestFirst | backend/src/sockets/socket.server.js:77-85 | the history is oldest first, and every message left out is older than every message kept |
| ChatMemory.RecentHistoryEndsWithNewest | backend/src/sockets/socket.server.js:77-85 | a message just stored in the chat is the last entry of its history |
| ChatMemory.ShortTermMemory | backend/src/sockets/socket.server.js:88-93 | specified by `PromptLayout`: one `{role, parts:[{text: content}]}` turn per history message, in order |
| ChatMemory.LongTermText | backend/src/sockets/socket.server.js:95-107 | specified by `PromptLayout` and `LongTermTextRecoversMatches`: the framed, newline-joined texts of the matches, from which the texts can be recovered |
| ChatMemory.Prompt | backend/src/sockets/socket.server.js:109-112 | specified by `PromptLayout` and `SocketServer.PromptEndsWith`: the long-term turn first, then the short-term turns, the last of which is the newest message's |
| ChatMemory.PromptLayout | backend/src/sockets/socket.server.js:88-112 | the prompt is one role-"user" turn with the framed, newline-joined match texts, then one `{role, parts:[{text: content}]}` turn per history message, in order |
| ChatMemory.LongTermTextRecoversMatches | backend/src/sockets/socket.server.js:95-107 | with newline-free texts, removing the frame and splitting at "\n" recovers the match texts in match order |
| SocketServer.Handshake | backend/src/sockets/socket.server.js:22-37 | without a token, `next` is called twice with the two authentication errors and no user is set; a verified token with a successful lookup sets `socket.user` and calls `next()` alone; a user is set exactly when `next()` passes |
| SocketServer.HandshakeStrict | backend/src/sockets/socket.server.js:22-37 | the same decision with exactly one `next` call on every path |
| SocketServer.NoTokenHandshake | backend/src/sockets/socket.server.js:25-36 | a connection without a token gets two `next` calls, the first rejecting for the missing token |
| SocketServer.AiMessageTurn | backend/src/sockets/socket.server.js:40-138 | specified by `AiMessageEvents`, `AiMessageStoresUserMessage`, `AiMessagePrompt`, `AiMessageRecordsEntries` and `AiMessageKeepsValid` below, and performed step by step by `Backend.OnAiMessage` |
| SocketServer.Recall | backend/src/sockets/socket.server.js:59-67 | specified by `RecallAddsReply`, `RecallPrompt`, `RecallRecordsEntries` and `RecallKeepsValid` below |
| SocketServer.Consult | backend/src/sockets/socket.server.js:69-112 | specified by `ConsultAddsReply`, `ConsultPrompt`, `ConsultRecordsReply` and `ConsultKeepsValid` below |
| SocketServer.Answer | backend/src/sockets/socket.server.js:109-137 | the reply steps only add calls after those already issued; they store at most one message, emit at most one event, which is `ai-response` with that message, and a completed turn always emits it |
| SocketServer.RecallAddsReply | backend/src/sockets/socket.server.js:59-137 | indexing and the reads store and emit nothing, so from the acknowledgement on the turn adds at most the reply and its `ai-response` |
| SocketServer.ConsultAddsReply | backend/src/sockets/socket.server.js:69-137 | the reads store and emit nothing, so consulting adds at most the reply and its `ai-response` |
| SocketServer.EventsAfterAck | backend/src/sockets/socket.server.js:41-127 | a turn that acknowledged the user message emits start, acknowledgement and at most the reply, in that order, and no `ai-error` |
| SocketServer.AiMessageEvents | backend/src/sockets/socket.server.js:40-138 | the turn appends `ai-response-start`, then `user-message` for the stored user message with the inbound tempID, then `ai-response` for the stored reply; a complete turn emits all three, and no turn emits `ai-error` |
| SocketServer.AiMessageStoresUserMessage | backend/src/sockets/socket.server.js:43-57 | the stored user message has the socket user's id, the payload's chat and content, role "user", `file: false` and the next id; with no user nothing is stored |
| SocketServer.AiMessagePrompt | backend/src/sockets/socket.server.js:69-112 | the memory query asks for 5 matches of the message's embedding for the socket user, the history read asks for 20 messages of the chat, and the prompt is built from those matches and that history, ending with the user message |
| SocketServer.RecallPrompt | backend/src/sockets/socket.server.js:69-112 | after indexing, the query, the history read and the generation request follow in that order, built from the index after the entry was added |
| SocketServer.ConsultPrompt | backend/src/sockets/socket.server.js:69-112 | the memory query for 5 matches of the user's vector and the read of 20 messages of the chat come right after the calls already issued; a generation request follows them only when both reads succeeded, with the prompt built from their results |
| SocketServer.PromptAfterAck | backend/src/sockets/socket.server.js:69-112 | the query and the history read see the index and the store that already hold the user message, so the prompt ends with that message |
| SocketServer.PromptEndsWith | backend/src/sockets/socket.server.js:109-112 | the last prompt turn is the last history message's turn |
| SocketServer.StoreKeepsValid | backend/src/sockets/socket.server.js:43-50 | storing a message keeps ids equal to positions, timestamps increasing, and memory entries pointing at what they describe |
| SocketServer.IndexKeepsValid | backend/src/sockets/socket.server.js:59-67 | adding a memory entry that describes a stored message keeps the invariant |
| SocketServer.AiMessageKeepsValid | backend/src/sockets/socket.server.js:59-137 | every `ai-message` turn keeps the store invariant; which entries it creates is stated by `AiMessageRecordsEntries` |
| SocketServer.RecallKeepsValid | backend/src/sockets/socket.server.js:59-67 | indexing the user message's entry, and the rest of the turn, keep the store invariant |
| SocketServer.ConsultKeepsValid | backend/src/sockets/socket.server.js:69-137 | the reads and the reply keep the store invariant |
| SocketServer.AnswerKeepsValid | backend/src/sockets/socket.server.js:114-137 | storing, emitting and indexing the reply keep the invariant |
| SocketServer.AiMessageRecordsEntries | backend/src/sockets/socket.server.js:59-137 | the index grows by at most two entries and keeps what it held. The first new entry is the user message's: its id (the next message id), its vector and `{chatID, userID, text: content}`; `createMemory` is the third call and carries exactly it. When `ai-response` is emitted, or a second entry is added, the reply is stored under the following id as a "model" message with `file: false` and the generated text. The ninth and last call is `createMemory` with the reply's id, its vector and `{chatID, userID, text: reply}`, and that is the second entry |
| SocketServer.EntriesAfterAck | backend/src/sockets/socket.server.js:41-67 | the entries of a turn that acknowledged the user message, at the positions they have in the whole turn |
| SocketServer.RecallRecordsEntries | backend/src/sockets/socket.server.js:59-137 | the recall stage first issues `createMemory` for the user message's entry and adds it first; a reply that is emitted or indexed is the stored generated text, and its `createMemory` is the stage's seventh call |
| SocketServer.EntriesAfterIndex | backend/src/sockets/socket.server.js:59-67 | what consulting records, restated relative to the index before the user message's entry |
| SocketServer.ConsultRecordsReply | backend/src/sockets/socket.server.js:69-137 | consulting keeps the calls already issued and adds at most one entry; a reply that is emitted or indexed is the generated text stored under the next id, and its `createMemory` is the sixth call |
| SocketServer.AnswerRecordsReply | backend/src/sockets/socket.server.js:114-137 | a reply that is emitted or indexed is the generated text stored under the next id, and the entry created for it points at that id with the reply's vector and `{chatID, userID, text: reply}` |
| SocketServer.AiImageTurn | backend/src/sockets/socket.server.js:140-176 | specified by `AiImageEvents` and `AiImageKeepsValid` below, and performed step by step by `Backend.OnAiImage` |
| SocketServer.AiImageEvents | backend/src/sockets/socket.server.js:140-176 | a failed image turn ends with exactly one `ai-error` "Failed to generate image" and no `ai-image-response`; a successful one stores the reply as a "model" message with `file: true` and the generated text and URL, and emits it with `image: true`; no memory entry is added |
| SocketServer.AiImageKeepsValid | backend/src/sockets/socket.server.js:140-176 | the image turn keeps the store invariant |
| SocketServer.Backend.constructor | backend/src/sockets/socket.server.js:40-176 | the server starts with an empty store, index and event log, which satisfies the store invariant |
| SocketServer.Backend.Create | backend/src/sockets/socket.server.js:44-50 | `messageModel.create` stores the record with the next id and the current time |
| SocketServer.Backend.Send | backend/src/sockets/socket.server.js:41 | an emit appends to the event log |
| SocketServer.Backend.Remember | backend/src/sockets/socket.server.js:59-67 | `createMemory` appends to the index |
| SocketServer.Backend.OnAiMessage | backend/src/sockets/socket.server.js:40-138 | the step-by-step handler leaves exactly the state, calls and stopping step of `AiMessageTurn` and keeps `Valid` |
| SocketServer.Backend.OnAiImage | backend/src/sockets/socket.server.js:140-176 | the step-by-step handler leaves exactly the state, calls and stopping step of `AiImageTurn` and keeps `Valid` |
| UserSlice.Reduce | frontend/src/store/features/userSlice.js:12-22 | specified by `SettlesAfter` and by `UserStore.Dispatch`, which performs it in place |
| UserSlice.RunAppend | frontend/src/store/features/userSlice.js:11-23 | dispatching two lists of actions one after the other is dispatching their concatenation |
| UserSlice.SettlesAfter | frontend/src/store/features/userSlice.js:12-22 | after `loadUser`, `logoutUser` or `setUserLoading(false)` the slice is not loading; `loadUser` stores its payload, `logoutUser` clears the user, and `setUserLoading` keeps it |
| UserSlice.UserStore.constructor | frontend/src/store/features/userSlice.js:3-6 | the initial state is no user, loading |
| UserSlice.UserStore.LoadUser | frontend/src/store/features/userSlice.js:12-15 | the user becomes the payload and loading false |
| UserSlice.UserStore.LogoutUser | frontend/src/store/features/userSlice.js:16-19 | the user becomes null and loading false |
| UserSlice.UserStore.SetUserLoading | frontend/src/store/features/userSlice.js:20-22 | only `loading` changes |
| UserSlice.UserStore.Dispatch | frontend/src/store/features/userSlice.js:11-23 | dispatching an action does what the reducer function says |
| UserActions.RegisterRequest | frontend/src/store/actions/userAction.js:5-18 | no request exactly when one of the four fields is blank; otherwise the trimmed values, with the names nested under `fullName` |
| UserActions.LoginRequest | frontend/src/store/actions/userAction.js:29-38 | no request exactly when the email or the password is blank; otherwise the trimmed pair |
| UserActions.TrimmedWhenNotBlank | frontend/src/store/actions/userAction.js:6-11 | a field that passes the check reaches the server non-empty and without surrounding white space |
| UserActions.RegisterRequestTrimmed | frontend/src/store/actions/userAction.js:6-18 | every field sign-up posts is non-empty and trimmed |
| UserActions.RegisterUser | frontend/src/store/actions/userAction.js:5-27 | a blank field gives `undefined` and no dispatch; success dispatches `loadUser(data.user)` and gives `{success: true}`, leaving that user loaded; failure gives `{success: false}` with no dispatch |
| UserActions.LoginUser | frontend/src/store/actions/userAction.js:29-48 | the same for sign-in, checking only email and password |
| UserActions.GetUser | frontend/src/store/actions/userAction.js:50-61 | `setUserLoading(true)` first and `setUserLoading(false)` last on both paths, with `loadUser` between them only on success; the slice ends not loading, with the fetched user or the previous one |
| UserActions.LogOutUser | frontend/src/store/actions/userAction.js:63-71 | `logoutUser` is dispatched only when the request succeeds, and then the slice ends with no user, not loading |
| ChatSlice.Reduce | frontend/src/store/actions/chatActions.js:12-73 | specified through the thunks below: each thunk's final slice is stated for any starting slice |
| ChatSlice.RunAppend | frontend/src/store/actions/chatActions.js:12-73 | dispatching two lists of actions one after the other is dispatching their concatenation |
| ChatSlice.Append | frontend/src/pages/Home.jsx:44-49 | appending adds the message at the end of its chat's list and leaves every other chat's list as it was |
| ChatSlice.ReplaceIn | frontend/src/pages/Home.jsx:52-60 | each message with the temporary id is replaced by the confirmed one, and the rest stay in place |
| ChatSlice.Replace | frontend/src/pages/Home.jsx:52-60 | replacement touches only the named chat, and an undefined tempID changes nothing |
| ChatSlice.Without | frontend/src/store/actions/chatActions.js:66 | removing a chat keeps exactly the chats with another id |
| ChatSlice.ReconcileOptimistic | frontend/src/pages/Home.jsx:52-60 | appending a temporary message and then replacing it equals appending the confirmed message |
| ChatActions.CreateChat | frontend/src/store/actions/chatActions.js:12-27 | `setCreating(true)` first and `setCreating(false)` last on both outcomes; `appendChat` and the returned chat only on success; the slice ends not creating, with the chat appended only on success |
| ChatActions.GetChats | frontend/src/store/actions/chatActions.js:29-41 | `setLoading(true)` first and `setLoading(false)` last whatever the outcome; the list is replaced only on success |
| ChatActions.GetMessages | frontend/src/store/actions/chatActions.js:43-59 | a cached chat gets no request and no dispatch; otherwise `loadMessages` for exactly that chat on success; no other chat's cache entry appears or disappears |
| ChatActions.DeleteChat | frontend/src/store/actions/chatActions.js:61-73 | a falsy id gets no request and no dispatch; `removeChat` then `removeMessages` for that id only after success, leaving neither the chat nor its messages |
| AutoResize.FitHeight | frontend/src/components/ui/ai-input.jsx:31-34 | the height is at least the minimum and at most the maximum, equals the scroll height between them, and sticks to the bound it crosses |
| AutoResize.AdjustedHeight | frontend/src/components/ui/ai-input.jsx:18-37 | a reset leaves the minimum; any adjustment stays within the bounds |
| AiInput.CheckFiles | frontend/src/components/ui/ai-input.jsx:111-143 | a selection is accepted exactly when it is one file whose type starts with "image/" and whose size is at most 10 MiB; more than one file and no file are told apart |
| AiInput.SendDisabled | frontend/src/components/ui/ai-input.jsx:338 | the send button is disabled exactly when the text is blank and there is no preview |
| AiInput.TenMebibyteBoundary | frontend/src/components/ui/ai-input.jsx:135 | an image of exactly 10 MiB passes, one byte more is too large |
| AiInput.Input.constructor | frontend/src/components/ui/ai-input.jsx:40-45 | the box mounts at the minimum height with no attachment |
| AiInput.Input.ClearFileState | frontend/src/components/ui/ai-input.jsx:93-100 | input, preview, selected file and file URL are all cleared |
| AiInput.Input.HandleClosePreview | frontend/src/components/ui/ai-input.jsx:102-109 | only the preview and the file input are cleared; the selected file and its URL stay |
| AiInput.Input.HandleFileChange | frontend/src/components/ui/ai-input.jsx:111-162 | a rejected selection clears all file state; no file clears only the preview; an accepted file sets preview and file URL to the same object URL |
| AiInput.Input.ReaderLoaded | frontend/src/components/ui/ai-input.jsx:149-158 | once read, the selected file is `{fileName, fileType, buffer}` |
| AiInput.Input.HandleSubmit | frontend/src/components/ui/ai-input.jsx:164-178 | a submission goes through exactly when the send button is enabled; then file state is cleared, `onSend` is called, the text becomes "" and the height resets; otherwise nothing changes |
| AiInput.Input.AdjustHeight | frontend/src/components/ui/ai-input.jsx:18-37 | the height stays within 48 and 164, and a reset sets exactly 48 |
| AiInput.Input.ToggleImageGen | frontend/src/components/ui/ai-input.jsx:271-273 | the image toggle negates `imageGen` |
| AiInput2.Input.constructor | frontend/src/components/ui/ai-input-2.jsx:35-40 | the box mounts at 24 pixels with no preview |
| AiInput2.Input.HandleClosePreview | frontend/src/components/ui/ai-input-2.jsx:64-71 | the preview and the file input are cleared |
| AiInput2.Input.HandleFileChange | frontend/src/components/ui/ai-input-2.jsx:74-82 | any first file becomes the preview with no check; no file clears it |
| AiInput2.Input.HandleSubmit | frontend/src/components/ui/ai-input-2.jsx:85-97 | `onSend` is called exactly when the text is non-blank or a preview exists and `onSend` is given; a present preview is cleared and the height resets whether or not it was sent; the text stays |
| AiInput2.Input.AdjustHeight | frontend/src/components/ui/ai-input-2.jsx:12-33 | the height stays within 24 and 200, and a reset sets exactly 24 |
| ChatArea.Toggle | frontend/src/components/layout/ChatArea.jsx:305-313 | a click turns the button's reaction on exactly when it was off, turns it to null when it was on, and leaves every other message's entry as it was (thumbs-down, lines 329-337, is the same with "down") |
| ChatArea.ToggleTwice | frontend/src/components/layout/ChatArea.jsx:305-337 | two clicks on one button restore what it showed, and a click on one button turns the other off |
| ChatArea.SendRoute | frontend/src/components/layout/ChatArea.jsx:98-106 | blank input is ignored; other input goes untrimmed to image generation exactly when `imageGen` is set, else to the message handler |
| ChatArea.AttachmentOnlySubmitDropped | frontend/src/components/layout/ChatArea.jsx:99 | with an attachment and no text, the send button is enabled but the route ignores the submission |
| ChatArea.SendRouteWithAttachment | frontend/src/components/layout/ChatArea.jsx:98-106 | blank text is ignored only when nothing is attached |
| ChatArea.SubmitReachesRoute | frontend/src/components/ui/ai-input.jsx:338 | with the corrected route, a submission is handed on exactly when the send button is enabled |
| ChatArea.HasCopyButton | frontend/src/components/layout/ChatArea.jsx:156-302 | specified by `Home.CopyOfPageMessages` and `Home.CopyOfServerReplies`: every message but a role-"user" one gets the action buttons |
| ChatArea.CopyText | frontend/src/components/layout/ChatArea.jsx:272-281 | `undefined` reaches the clipboard exactly for a file message without a `fileUrl`; otherwise a file message copies its URL and any other message its text |
| ChatArea.ShowEmptyState | frontend/src/components/layout/ChatArea.jsx:138 | specified by `Home.EmptyStateOfPage` and `Home.Page.HandleSendMessage` |
| ChatArea.ShowInputArea | frontend/src/components/layout/ChatArea.jsx:443 | required by `Home.Page.HandleSendMessage` and `Home.Page.HandleImageGeneration`: the input that calls them exists only for an open chat |
| ChatArea.Panel.constructor | frontend/src/components/layout/ChatArea.jsx:89-92 | the input is empty and no reaction is set |
| ChatArea.Panel.HandleSendMessage | frontend/src/components/layout/ChatArea.jsx:98-106 | the input is routed as `SendRoute` says and cleared once it has been handed on |
| ChatArea.Panel.HandleKeyPress | frontend/src/components/layout/ChatArea.jsx:108-113 | Enter without Shift sends; any other key does nothing |
| ChatArea.Panel.ThumbsUp | frontend/src/components/layout/ChatArea.jsx:305-313 | the reactions become the thumbs-up toggle of the previous ones |
| ChatArea.Panel.ThumbsDown | frontend/src/components/layout/ChatArea.jsx:329-337 | the reactions become the thumbs-down toggle of the previous ones |
| NewChatDialog.SubmittedTitle | frontend/src/components/ui/new-chat-dialog.jsx:20-24 | a blank title submits nothing; any other is passed on trimmed, non-empty and without surrounding white space |
| NewChatDialog.CreateDisabled | frontend/src/components/ui/new-chat-dialog.jsx:79 | the create button is disabled exactly for a blank title or while creating, and an enabled button always submits a title |
| NewChatDialog.Dialog.constructor | frontend/src/components/ui/new-chat-dialog.jsx:17-18 | the dialog starts closed with an empty title |
| NewChatDialog.Dialog.HandleSubmit | frontend/src/components/ui/new-chat-dialog.jsx:20-27 | a blank title changes nothing; otherwise the trimmed title is created, the title reset and the dialog closed |
| NewChatDialog.Dialog.HandleCancel | frontend/src/components/ui/new-chat-dialog.jsx:29-32 | cancel resets the title and closes the dialog without creating anything |
| Home.TempMessage | frontend/src/pages/Home.jsx:100-111 | the temporary message has `_id` and `clientKey` both equal to the temp id, role "user", the open chat, and `file` true exactly when a file is selected |
| Home.ErrorAppended | frontend/src/pages/Home.jsx:81-92 | the error message is appended only for a non-null chat |
| Home.SendThenConfirm | frontend/src/pages/Home.jsx:52-60 | sending and then receiving `user-message` with the same tempID leaves the confirmed message in the temporary message's place, keyed by the temp id |
| Home.AiErrorDroppedInOpenChat | frontend/src/pages/Home.jsx:76-93 | the handler as registered never shows the error, while reading the open chat would |
| Home.CopyOfPageMessages | frontend/src/components/layout/ChatArea.jsx:156-281 | the temporary message of a send is a role-"user" message, drawn with no copy button; the error message has the button, and it copies the apology |
| Home.Received | frontend/src/pages/Home.jsx:42-74 | the record a reply event carries is appended with its chat, role and `file` flag, and with no `fileUrl` |
| Home.CopyOfServerReplies | frontend/src/components/layout/ChatArea.jsx:272-281 | the reply of a completed `ai-message` turn has the copy button, which copies exactly the generated text; the reply of a completed `ai-image` turn has the button too, but it is a file message with no `fileUrl`, so `undefined` reaches the clipboard |
| Home.Displayed | frontend/src/pages/Home.jsx:26 | specified by `Home.EmptyStateOfPage`: the open chat's cached messages, none for an uncached chat |
| Home.EmptyStateOfPage | frontend/src/pages/Home.jsx:20 | since the page never sets `isTyping`, the empty state is shown exactly when the open chat has no cached message, and appending to the open chat hides it |
| Home.Page.constructor | frontend/src/pages/Home.jsx:14-24 | no chat open, both loading flags off, the sidebar open, nothing attached, and the outbox empty |
| Home.Page.HandleSendMessage | frontend/src/pages/Home.jsx:99-124 | the temporary message is appended, then `ai-message` is emitted with the same tempID and the attachment's buffer and type, and the selected file is cleared; every other field keeps its value, and the empty state is gone |
| Home.Page.HandleImageGeneration | frontend/src/pages/Home.jsx:126-133 | `ai-image` carries only the chat and the prompt, with no tempID; every other field of the page keeps its value |
| Home.Page.OnAiResponseStart | frontend/src/pages/Home.jsx:38-40 | `loadingMessage` becomes true; every other field of the page keeps its value |
| Home.Page.OnAiResponse | frontend/src/pages/Home.jsx:42-50 | `loadingMessage` becomes false and the reply is appended under its own chat; every other field of the page keeps its value |
| Home.Page.OnUserMessage | frontend/src/pages/Home.jsx:52-60 | the entry with the tempID is replaced by the server's message with `clientKey` set to the tempID; every other field of the page keeps its value |
| Home.Page.OnAiImageStart | frontend/src/pages/Home.jsx:62-64 | `loadingImage` becomes true; every other field of the page keeps its value |
| Home.Page.OnAiImageResponse | frontend/src/pages/Home.jsx:66-74 | `loadingImage` becomes false and the image reply is appended under its own chat; every other field of the page keeps its value |
| Home.Page.OnAiError | frontend/src/pages/Home.jsx:76-93 | both loading flags drop and, since the mount-time chatID is null, the cache is left unchanged; every other field of the page keeps its value |
| Home.Page.OnAiErrorInOpenChat | frontend/src/pages/Home.jsx:76-93 | both loading flags drop and the error message is appended to the open chat; every other field of the page keeps its value |
| Home.Page.HandleResize | frontend/src/pages/Home.jsx:147-153 | the sidebar is open exactly when the width is at least 1024; every other field of the page keeps its value |
| Home.Page.ToggleSidebar | frontend/src/pages/Home.jsx:142-144 | the sidebar flag is negated; every other field of the page keeps its value |
| Home.Page.HandleChatSelect | frontend/src/pages/Home.jsx:135-140 | the chosen chat opens, and the sidebar closes on a window narrower than 1024 and otherwise stays as it was; every other field of the page keeps its value |

## Left out

- Cookie parsing and JWT signature checking: `verify` is an abstract partial function giving the `id` claim. `findOne` is an abstract lookup that may find nothing or throw.
- Embedding vectors and similarity scoring are floating point. Memory matches are an opaque ordered list given by the abstract `query` service, so the user filter and the limit of 5 are stated on the query sent, not on its answer.
- The store's `createdAt` is a strictly increasing counter. Equal timestamps, under which `.sort({createdAt: -1}).limit(20)` may pick among ties, are not modelled.
- Concurrent turns on one connection, and the parallelism of each `Promise.all`, are not modelled: each pair is two steps in sequence. Both calls of a pair are logged even when the first fails.
- A rejected `ai-message` turn becomes an unhandled promise rejection in the server process. The model records only the step that threw.
- The chat slice's own reducers are not part of this model. Their effects are stated as list and map operations: append at the end, replace by id, remove a key, set a flag.
- `socket.emit` delivery, object URLs and their revocation, `FileReader` internals, the clipboard, timers, toasts, alerts, animations, scrolling and Markdown rendering are not modelled.
- `Home.handleNewChat` (`Home.jsx:160-165`) reads a `title` that is not declared in that scope. It is not modelled.
- `getUserDetails` and the socket connection set up at mount (`Home.jsx:28-36`, `Home.jsx:94-96`) are I/O.
- Home.Page.HandleSendMessage and Home.Page.HandleImageGeneration: both require an open chat, because the chat area renders the input that calls them only when `chatID` is set (`ChatArea.jsx:443`).
- The `Enter` path of the first input box (`ai-input.jsx:231-236`) forwards to the chat area's key handler, modelled as `ChatArea.Panel.HandleKeyPress`, and then clears the file state as `AiInput.Input.ClearFileState` does. The composition is not a separate member.
- The new-chat trigger button's `disabled={isCreating}` (`new-chat-dialog.jsx:39`) is a direct prop with nothing to state.
- The thunks' `userDetails.email.trim()` throws when a field is missing. Fields are modelled as strings that are always present.
- Logging is not modelled: `console.error` in the image turn's catch block (`socket.server.js:173`), and `console.log` in the thunks' catch blocks (`chatActions.js:21`, `chatActions.js:35`, `chatActions.js:55`, `chatActions.js:69`, `userAction.js:22`, `userAction.js:43`, `userAction.js:57`, `userAction.js:69`) and elsewhere (`chatActions.js:16`, `Home.jsx:127`, `ai-input.jsx:168`). None of it changes state.
- Sidebar, routing, the sign-up and sign-in pages, and the HTTP and service wrappers are outside the core.

## Findings

| source | as written | input that shows it | evidently intended | confidence | as-written member | corrected member |
|---|---|---|---|---|---|---|
| backend/src/sockets/socket.server.js:25-27 | `next(new Error("...No Token Provided"))` has no `return`, so the middleware goes on to verify the absent token and calls `next` a second time with "Invalid Token" | a handshake without a `token` cookie | stop after the first rejection, so `next` is called once | not executed | SocketServer.NoTokenHandshake | SocketServer.HandshakeStrict |
| frontend/src/pages/Home.jsx:76-93 | the `ai-error` handler is registered once at mount and reads the `chatID` of that render, which is null (line 19), so the error message is never appended | any `ai-error`, for example a failed image turn, while a chat is open | append the error message to the chat that is open | not executed | Home.AiErrorDroppedInOpenChat | Home.Page.OnAiErrorInOpenChat |
| frontend/src/components/layout/ChatArea.jsx:99 | the input box enables its send button for an attachment with blank text (`ai-input.jsx:338`) and clears the attachment on submit, but the chat area drops blank text, so nothing is sent | attach an image, leave the text empty, press send | an attachment-only message is sent | not executed | ChatArea.AttachmentOnlySubmitDropped | ChatArea.SendRouteWithAttachment |
