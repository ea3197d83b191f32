/** The chat input box: a text area that grows between 48 and 164 pixels, and a single image
    attachment that is validated when chosen and cleared when the message is sent. */
module AiInput {
  import opened Common
  import opened Text
  import opened AutoResize

  const MinHeight: int := 48
  const MaxHeight: int := 164

  /** The largest attachment accepted, 10 MiB. */
  const MaxFileSize: nat := 10 * 1024 * 1024

  /** A file chosen in the file picker, as far as the checks read it. */
  datatype FileInfo = FileInfo(name: string, fileType: string, size: nat)

  /** The attachment handed up once the file has been read: `{fileName, fileType, buffer}`. */
  datatype SelectedFile = SelectedFile(fileName: string, fileType: string, buffer: seq<bv8>)

  /** The verdict on a file selection. */
  datatype FileCheck = TooMany | NoFile | NotImage | TooLarge | Accepted(file: FileInfo)

  /** Lines 112-143: more than one file, then a missing file, then a type that does not start
      with "image/", then a size above 10 MiB. */
  function CheckFiles(files: seq<FileInfo>): (r: FileCheck)
    ensures r.Accepted? <==>
              |files| == 1 && StartsWith(files[0].fileType, "image/") && files[0].size <= MaxFileSize
    ensures r.Accepted? ==> r.file == files[0]
    ensures r == TooMany <==> |files| > 1
    ensures r == NoFile <==> files == []
    ensures r == TooLarge ==> files[0].size > MaxFileSize
  {
    if |files| > 1 then TooMany
    else if files == [] then NoFile
    else if !StartsWith(files[0].fileType, "image/") then NotImage
    else if files[0].size > MaxFileSize then TooLarge
    else Accepted(files[0])
  }

  /** Line 338: the send button is disabled exactly when the text is blank and nothing is
      attached. */
  function SendDisabled(value: string, preview: Option<string>): (d: bool)
    ensures d <==> IsBlank(value) && !Truthy(preview)
  {
    TrimEmptyIffBlank(value);
    Trim(value) == "" && !Truthy(preview)
  }

  /** The component's state together with the props it writes through: `value` (owned by
      the chat area), `selectedFile`, `fileUrl` and `imageGen` (owned by the page, which
      hands them down with their setters), and the files the file input element holds. */
  class Input {
    var value: string
    var preview: Option<string>
    var selectedFile: Option<SelectedFile>
    var fileUrl: Option<string>
    var fileInput: seq<FileInfo>
    var height: int
    var imageGen: bool

    /** Mounting sets the minimum height (lines 40-45). */
    constructor (value: string, imageGen: bool)
      ensures this.value == value && this.imageGen == imageGen
      ensures preview.None? && selectedFile.None? && fileUrl.None? && fileInput == []
      ensures height == MinHeight
    {
      this.value := value;
      this.imageGen := imageGen;
      preview, selectedFile, fileUrl, fileInput := None, None, None, [];
      height := MinHeight;
    }

    /** `clearFileState` (lines 93-100). */
    method ClearFileState()
      modifies this
      ensures fileInput == [] && preview.None? && selectedFile.None? && fileUrl.None?
      ensures value == old(value) && height == old(height) && imageGen == old(imageGen)
    {
      fileInput := [];
      preview := None;
      selectedFile := None;
      fileUrl := None;
    }

    /** `handleClosePreview` (lines 102-109): the attachment the page holds survives. */
    method HandleClosePreview()
      modifies this
      ensures fileInput == [] && preview.None?
      ensures selectedFile == old(selectedFile) && fileUrl == old(fileUrl)
      ensures value == old(value) && height == old(height) && imageGen == old(imageGen)
    {
      fileInput := [];
      preview := None;
    }

    /** `handleFileChange` (lines 111-162). `files` is what the picker now holds and
        `objectUrl` what `URL.createObjectURL` returns for an accepted file. */
    method HandleFileChange(files: seq<FileInfo>, objectUrl: string)
      modifies this
      ensures var r := CheckFiles(files);
              && (r.Accepted? ==>
                    preview == Some(objectUrl) && fileUrl == Some(objectUrl) &&
                    selectedFile == old(selectedFile) && fileInput == files)
              && (r.NoFile? ==>
                    preview.None? && fileUrl == old(fileUrl) && selectedFile == old(selectedFile) && fileInput == [])
              && (r.TooMany? || r.NotImage? || r.TooLarge? ==>
                    preview.None? && fileUrl.None? && selectedFile.None? && fileInput == [])
      ensures value == old(value) && height == old(height) && imageGen == old(imageGen)
    {
      fileInput := files;
      var r := CheckFiles(files);
      match r
      case Accepted(_) =>
        preview := Some(objectUrl);
        fileUrl := Some(objectUrl);
      case NoFile =>
        preview := None;
      case _ =>
        ClearFileState();
    }

    /** The reader's `onload` for an accepted file (lines 150-157). */
    method ReaderLoaded(file: FileInfo, buffer: seq<bv8>)
      modifies this
      ensures selectedFile == Some(SelectedFile(file.name, file.fileType, buffer))
      ensures preview == old(preview) && fileUrl == old(fileUrl) && fileInput == old(fileInput)
      ensures value == old(value) && height == old(height) && imageGen == old(imageGen)
    {
      selectedFile := Some(SelectedFile(file.name, file.fileType, buffer));
    }

    /** `handleSubmit` (lines 164-178): `sent` is whether `onSend` was called. A submission
        goes through exactly when the send button is enabled. */
    method HandleSubmit() returns (sent: bool)
      modifies this
      ensures sent <==> !SendDisabled(old(value), old(preview))
      ensures !sent ==>
                value == old(value) && preview == old(preview) && selectedFile == old(selectedFile) &&
                fileUrl == old(fileUrl) && fileInput == old(fileInput) && height == old(height)
      ensures sent ==>
                value == "" && height == MinHeight &&
                preview.None? && selectedFile.None? && fileUrl.None? && fileInput == []
      ensures imageGen == old(imageGen)
    {
      if SendDisabled(value, preview) {
        return false;
      }
      ClearFileState();
      sent := true;
      value := "";
      AdjustHeight(true, 0);
    }

    /** `adjustHeight(reset)` (lines 18-37) with this component's bounds. */
    method AdjustHeight(reset: bool, scrollHeight: int)
      modifies this
      ensures height == AdjustedHeight(reset, scrollHeight, MinHeight, MaxHeight)
      ensures MinHeight <= height <= MaxHeight && (reset ==> height == MinHeight)
      ensures value == old(value) && preview == old(preview) && selectedFile == old(selectedFile)
      ensures fileUrl == old(fileUrl) && fileInput == old(fileInput) && imageGen == old(imageGen)
    {
      height := AdjustedHeight(reset, scrollHeight, MinHeight, MaxHeight);
    }

    /** The image-generation toggle (lines 271-273): `setImageGen(!imageGen)` writes the
        page's flag through the prop's setter; the field stands for that flag as the input
        box sees it. */
    method ToggleImageGen()
      modifies this
      ensures imageGen == !old(imageGen)
      ensures value == old(value) && preview == old(preview) && selectedFile == old(selectedFile)
      ensures fileUrl == old(fileUrl) && fileInput == old(fileInput) && height == old(height)
    {
      imageGen := !imageGen;
    }
  }

  /** A file of exactly 10 MiB passes; one byte more does not. */
  lemma TenMebibyteBoundary(name: string, t: string)
    requires StartsWith(t, "image/")
    ensures CheckFiles([FileInfo(name, t, 10 * 1024 * 1024)]).Accepted?
    ensures CheckFiles([FileInfo(name, t, 10 * 1024 * 1024 + 1)]) == TooLarge
  {
  }
}
