/** The new-chat dialog: a title field, a create button and a cancel button. */
module NewChatDialog {
  import opened Common
  import opened Text

  /** Lines 20-24: the title handed to `onCreateChat`, or none for a blank title. */
  function SubmittedTitle(title: string): (r: Option<string>)
    ensures r.None? <==> IsBlank(title)
    ensures r.Some? ==> r.value == Trim(title)
    ensures r.Some? ==> r.value != [] && !IsSpace(r.value[0]) && !IsSpace(r.value[|r.value| - 1])
  {
    TrimEmptyIffBlank(title);
    if Trim(title) == "" then None else Some(Trim(title))
  }

  /** Line 79: the create button is disabled for a blank title and while a chat is being
      created. */
  function CreateDisabled(title: string, isCreating: bool): (d: bool)
    ensures d <==> IsBlank(title) || isCreating
    ensures !d ==> SubmittedTitle(title).Some?
  {
    TrimEmptyIffBlank(title);
    Trim(title) == "" || isCreating
  }

  /** The dialog's own state. */
  class Dialog {
    var open: bool
    var title: string

    constructor ()
      ensures !open && title == ""
    {
      open, title := false, "";
    }

    /** `handleSubmit` (lines 20-27): `created` is the argument of `onCreateChat`, if it was
        called. */
    method HandleSubmit() returns (created: Option<string>)
      modifies this
      ensures created == SubmittedTitle(old(title))
      ensures created.None? ==> title == old(title) && open == old(open)
      ensures created.Some? ==> title == "" && !open
    {
      created := SubmittedTitle(title);
      if created.None? {
        return;
      }
      title := "";
      open := false;
    }

    /** `handleCancel` (lines 29-32): nothing is created. */
    method HandleCancel()
      modifies this
      ensures title == "" && !open
    {
      title := "";
      open := false;
    }
  }
}
