/**
 * The create-post dialog (src/components/common/CreatePostModal.tsx): the
 * check on the chosen file, the form sent when posting, and the reset on
 * opening and on going back. Reading the file for its preview is left to
 * the browser; the preview is whatever that read produced.
 */
module CreatePostModal {
  import opened Options
  import Text
  import opened Domain

  datatype Step = SelectStep | PreviewStep
  datatype MediaType = Image | Video

  datatype ModalState = ModalState(
    step: Step,
    selectedFile: Option<File>,
    preview: Option<string>,
    caption: string,
    mediaType: Option<MediaType>)

  const MaxFileBytes := 50 * 1024 * 1024

  /** The state after opening the dialog or going back: nothing chosen, no caption. */
  const Cleared := ModalState(SelectStep, None, None, "", None)

  /** Resets the step, the file, the preview, the caption and the media type, whatever they were. */
  function OnOpen(s: ModalState): (r: ModalState)
    ensures r.step == SelectStep && r.selectedFile.None? && r.preview.None? && r.caption == "" && r.mediaType.None?
  {
    Cleared
  }

  /** `handleBack`: the same reset as opening the dialog. */
  function Back(s: ModalState): (r: ModalState)
    ensures r == OnOpen(s)
  {
    ModalState(SelectStep, None, None, "", None)
  }

  /** The outcome of choosing a file. */
  datatype FileCheck = NotMedia | TooLarge | Accepted(mediaType: MediaType)

  /** Images and videos only, checked before the 50 MiB size limit. */
  function CheckFile(file: File): (r: FileCheck)
    ensures r.NotMedia? <==> !Text.StartsWith(file.mimeType, "image/") && !Text.StartsWith(file.mimeType, "video/")
    ensures r.TooLarge? <==> (Text.StartsWith(file.mimeType, "image/") || Text.StartsWith(file.mimeType, "video/"))
                              && file.size > MaxFileBytes
    ensures r.Accepted? ==> (r.mediaType == Image <==> Text.StartsWith(file.mimeType, "image/"))
  {
    var isImage := Text.StartsWith(file.mimeType, "image/");
    var isVideo := Text.StartsWith(file.mimeType, "video/");
    if !isImage && !isVideo then NotMedia
    else if file.size > MaxFileBytes then TooLarge
    else Accepted(if isImage then Image else Video)
  }

  /** `handleFileChange`: a rejected or missing file leaves the dialog as it was; an accepted one is selected. */
  function FileChange(s: ModalState, file: Option<File>): (r: ModalState)
    ensures file.None? ==> r == s
    ensures file.Some? && !CheckFile(file.value).Accepted? ==> r == s
    ensures file.Some? && CheckFile(file.value).Accepted? ==>
      r == s.(selectedFile := file, mediaType := Some(CheckFile(file.value).mediaType))
  {
    if file.None? then s
    else
      match CheckFile(file.value)
      case Accepted(mediaType) => s.(selectedFile := file, mediaType := Some(mediaType))
      case _ => s
  }

  /** A selected file always has a media type that matches its MIME type. */
  lemma SelectedFileHasMatchingType(s: ModalState, file: File)
    requires CheckFile(file).Accepted?
    ensures var r := FileChange(s, Some(file));
      r.selectedFile == Some(file) && r.mediaType.Some?
      && (r.mediaType.value == Video <==> Text.StartsWith(file.mimeType, "video/") && !Text.StartsWith(file.mimeType, "image/"))
  {
  }

  /**
   * `handlePost`: nothing without a selected file; otherwise a form with the
   * file, followed by the trimmed caption when that is not empty.
   */
  function PostForm(s: ModalState): (r: Option<seq<FormEntry>>)
    ensures s.selectedFile.None? <==> r.None?
    ensures r.Some? ==> 1 <= |r.value| <= 2 && r.value[0] == FormEntry("file", FileField(s.selectedFile.value))
    ensures r.Some? ==> (|r.value| == 2 <==> Text.Trim(s.caption) != "")
    ensures r.Some? && |r.value| == 2 ==> r.value[1] == FormEntry("caption", TextField(Text.Trim(s.caption)))
  {
    if s.selectedFile.None? then None
    else
      var caption := Text.Trim(s.caption);
      Some([FormEntry("file", FileField(s.selectedFile.value))]
           + (if caption != "" then [FormEntry("caption", TextField(caption))] else []))
  }

  /** A caption of white space only is not sent. */
  lemma BlankCaptionNotSent(s: ModalState)
    requires s.selectedFile.Some? && Text.AllSpace(s.caption)
    ensures PostForm(s) == Some([FormEntry("file", FileField(s.selectedFile.value))])
  {
    assert Text.Trim(s.caption) == [];
    var first: seq<FormEntry> := [FormEntry("file", FileField(s.selectedFile.value))];
    assert first + [] == first;
  }
}
