/** The chat area: where a typed message is routed, the per-message thumbs reactions, what
    the copy button copies, and when the empty state and the input area are shown. */
module ChatArea {
  import opened Common
  import opened Text
  import opened ChatSlice
  import AiInput

  datatype Reaction = Up | Down

  /** `reactions`: message `_id` to "up", "down" or null. A message never clicked has no
      entry, which reads as `undefined`. */
  type Reactions = map<string, Option<Reaction>>

  /** Whether the icon for `r` is drawn solid for message `id`. */
  predicate Shown(reactions: Reactions, id: string, r: Reaction) {
    id in reactions && reactions[id] == Some(r)
  }

  /** The `setReactions` updater of the thumbs-up (lines 305-313, `r == Up`) and thumbs-down
      (lines 329-337, `r == Down`) buttons: an active reaction is cleared, anything else is
      replaced by `r`; every other message keeps its entry. */
  function Toggle(prev: Reactions, id: string, r: Reaction): (next: Reactions)
    ensures next.Keys == prev.Keys + {id}
    ensures forall k | k in prev && k != id :: next[k] == prev[k]
    ensures Shown(next, id, r) <==> !Shown(prev, id, r)
    ensures next[id].None? <==> Shown(prev, id, r)
  {
    if Shown(prev, id, r) then prev[id := None] else prev[id := Some(r)]
  }

  /** A second click on the same button restores what the button showed, and a click on
      one button always turns the other off. */
  lemma ToggleTwice(prev: Reactions, id: string, r: Reaction, other: Reaction)
    requires other != r
    ensures Shown(Toggle(Toggle(prev, id, r), id, r), id, r) == Shown(prev, id, r)
    ensures !Shown(Toggle(prev, id, r), id, other)
  {
  }

  /** Where `handleSendMessage` sends the typed text. */
  datatype Route = Ignore | ImageRequest(prompt: string) | MessageRequest(content: string)

  /** Lines 98-106: blank input is ignored; otherwise the text goes, untrimmed, to image
      generation when `imageGen` is set and to the message handler when it is not. */
  function SendRoute(input: string, imageGen: bool): (r: Route)
    ensures r.Ignore? <==> IsBlank(input)
    ensures r.ImageRequest? <==> !IsBlank(input) && imageGen
    ensures r.ImageRequest? ==> r.prompt == input
    ensures r.MessageRequest? ==> r.content == input
  {
    TrimEmptyIffBlank(input);
    if Trim(input) == "" then Ignore
    else if imageGen then ImageRequest(input)
    else MessageRequest(input)
  }

  /** An attachment with no text: the input box enables its send button and clears the
      attachment on submit, and the route then drops the blank text, so nothing is sent. */
  lemma AttachmentOnlySubmitDropped(url: string, imageGen: bool)
    requires url != ""
    ensures !AiInput.SendDisabled("", Some(url))
    ensures SendRoute("", imageGen).Ignore?
  {
    assert IsBlank("");
  }

  /** The route with the attachment taken into account: blank text goes through when a
      file is attached. */
  function SendRouteWithAttachment(input: string, imageGen: bool, attached: bool): (r: Route)
    ensures r.Ignore? <==> IsBlank(input) && !attached
    ensures r.ImageRequest? <==> !r.Ignore? && imageGen
    ensures !r.Ignore? ==> r == (if imageGen then ImageRequest(input) else MessageRequest(input))
  {
    TrimEmptyIffBlank(input);
    if Trim(input) == "" && !attached then Ignore
    else if imageGen then ImageRequest(input)
    else MessageRequest(input)
  }

  /** With that route, a submission is handed on exactly when the send button is enabled. */
  lemma SubmitReachesRoute(value: string, preview: Option<string>, imageGen: bool)
    ensures !AiInput.SendDisabled(value, preview) <==>
              !SendRouteWithAttachment(value, imageGen, Truthy(preview)).Ignore?
  {
  }

  /** Lines 272-281: what the copy button hands to `navigator.clipboard.writeText`. A file
      message hands over its `fileUrl` and any other message its `content`; `None` is a
      file message without a `fileUrl`, for which `undefined` is handed over. */
  function CopyText(m: ClientMessage): (t: Option<string>)
    ensures t.None? <==> m.file && m.fileUrl.None?
    ensures m.file ==> t == m.fileUrl
    ensures !m.file ==> t == Some(m.content)
  {
    if m.file then m.fileUrl else Some(m.content)
  }

  /** Lines 156-302: a role-"user" message is drawn as a bubble with no action buttons;
      every other message gets the action buttons, the copy button first. */
  predicate HasCopyButton(m: ClientMessage) {
    m.role != UserRole
  }

  /** Line 138: the empty state replaces the message list when there is nothing to list
      and no reply is being typed. */
  predicate ShowEmptyState(messages: seq<ClientMessage>, isTyping: bool) {
    |messages| == 0 && !isTyping
  }

  /** Line 443: the input area, and with it every way to send, exists only for a chat. */
  predicate ShowInputArea(chatID: Option<string>) {
    Truthy(chatID)
  }

  /** The chat area's own state. */
  class Panel {
    var inputMessage: string
    var reactions: Reactions

    constructor ()
      ensures inputMessage == "" && reactions == map[]
    {
      inputMessage, reactions := "", map[];
    }

    /** `handleSendMessage` (lines 98-106): the input is cleared once it has been handed on. */
    method HandleSendMessage(imageGen: bool) returns (route: Route)
      modifies this
      ensures route == SendRoute(old(inputMessage), imageGen)
      ensures inputMessage == (if route.Ignore? then old(inputMessage) else "")
      ensures reactions == old(reactions)
    {
      route := SendRoute(inputMessage, imageGen);
      if route.Ignore? {
        return;
      }
      inputMessage := "";
    }

    /** `handleKeyPress` (lines 108-113): Enter without Shift sends. */
    method HandleKeyPress(enter: bool, shift: bool, imageGen: bool) returns (route: Route)
      modifies this
      ensures enter && !shift ==>
                route == SendRoute(old(inputMessage), imageGen) &&
                inputMessage == (if route.Ignore? then old(inputMessage) else "")
      ensures !(enter && !shift) ==> route.Ignore? && inputMessage == old(inputMessage)
      ensures reactions == old(reactions)
    {
      route := Ignore;
      if enter && !shift {
        route := HandleSendMessage(imageGen);
      }
    }

    method ThumbsUp(id: string)
      modifies this
      ensures reactions == Toggle(old(reactions), id, Up) && inputMessage == old(inputMessage)
    {
      reactions := Toggle(reactions, id, Up);
    }

    method ThumbsDown(id: string)
      modifies this
      ensures reactions == Toggle(old(reactions), id, Down) && inputMessage == old(inputMessage)
    {
      reactions := Toggle(reactions, id, Down);
    }
  }
}
