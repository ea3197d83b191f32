/** The second, simpler input box: a text area between 24 and 200 pixels and an attachment
    preview with no checks on the chosen file. */
module AiInput2 {
  import opened Common
  import opened AutoResize
  import AiInput

  const MinHeight: int := 24
  const MaxHeight: int := 200

  /** The component's preview, the files its file input holds, its height, and the `value`
      prop it reads. */
  class Input {
    var value: string
    var preview: Option<string>
    var fileInput: seq<AiInput.FileInfo>
    var height: int

    constructor (value: string)
      ensures this.value == value && preview.None? && fileInput == [] && height == MinHeight
    {
      this.value := value;
      preview, fileInput := None, [];
      height := MinHeight;
    }

    /** `handleClosePreview` (lines 64-71). */
    method HandleClosePreview()
      modifies this
      ensures preview.None? && fileInput == []
      ensures value == old(value) && height == old(height)
    {
      fileInput := [];
      preview := None;
    }

    /** `handleFileChange` (lines 74-82): any first file becomes the preview, whatever its
        type, size or count; an empty selection clears it. */
    method HandleFileChange(files: seq<AiInput.FileInfo>, objectUrl: string)
      modifies this
      ensures preview == (if files != [] then Some(objectUrl) else None)
      ensures fileInput == files
      ensures value == old(value) && height == old(height)
    {
      fileInput := files;
      if files != [] {
        preview := Some(objectUrl);
      } else {
        preview := None;
      }
    }

    /** `handleSubmit` (lines 85-97). `hasOnSend` is whether the `onSend` prop is given;
        `sent` is whether it was called. The text is left for the parent to clear. */
    method HandleSubmit(hasOnSend: bool) returns (sent: bool)
      modifies this
      ensures sent <==> !AiInput.SendDisabled(old(value), old(preview)) && hasOnSend
      ensures preview == (if Truthy(old(preview)) then None else old(preview))
      ensures fileInput == (if Truthy(old(preview)) then [] else old(fileInput))
      ensures height == MinHeight && value == old(value)
    {
      sent := !AiInput.SendDisabled(value, preview) && hasOnSend;
      if Truthy(preview) {
        preview := None;
        fileInput := [];
      }
      AdjustHeight(true, 0);
    }

    /** `adjustHeight(reset)` (lines 12-33) with this component's bounds. */
    method AdjustHeight(reset: bool, scrollHeight: int)
      modifies this
      ensures height == AdjustedHeight(reset, scrollHeight, MinHeight, MaxHeight)
      ensures MinHeight <= height <= MaxHeight && (reset ==> height == MinHeight)
      ensures value == old(value) && preview == old(preview) && fileInput == old(fileInput)
    {
      height := AdjustedHeight(reset, scrollHeight, MinHeight, MaxHeight);
    }
  }
}
