/**
 * The new-status dialog: a text tab (text on a chosen colour) and a media
 * tab (a photo or video with an optional caption), posted through the
 * status provider after the file, if one was chosen, is uploaded.
 *
 * The chosen file is its MIME type. The upload and the create call are
 * their outcomes, parameters of `Submit`; a failed one is only logged, so
 * the dialog stays open. The local preview (`FileReader`) and the
 * `loading` flag between the two calls are left out.
 */
module CreateStatus {
  import opened Common
  import opened Text
  import opened StatusModel

  datatype Tab = TextTab | MediaTab

  /** The body `createStatus` posts. */
  datatype StatusRequest = StatusRequest(typeName: string, content: string, mediaUrl: string, backgroundColor: string)

  const BgColors: seq<string> := [
    "#00a884", "#0284c7", "#7c3aed", "#dc2626",
    "#ea580c", "#ca8a04", "#16a34a", "#0891b2",
    "#6d28d9", "#be185d", "#334155", "#1e293b"]
  /** The background sent with a photo or video status. */
  const MediaBackground: string := "#000000"
  /** The text box's `maxLength`. */
  const MaxTextLength: nat := 500

  /** A chosen file's status type: a video when its MIME type says so, an image otherwise. */
  function MediaTypeOf(mime: string): (r: StatusType)
    ensures r == VideoStatus <==> StartsWith(mime, "video")
    ensures r != TextStatus
  {
    if StartsWith(mime, "video") then VideoStatus else ImageStatus
  }

  /** The first colour is the server's default background. */
  lemma FirstColourIsDefault()
    ensures BgColors[0] == DefaultBackground && |BgColors| == 12
  {
  }

  class CreateStatusForm {
    var tab: Tab
    var content: string
    var bgColor: string
    /** The chosen file's MIME type. */
    var mediaFile: Option<string>
    var mediaType: StatusType
    /** How many files were uploaded to `/upload/status`. */
    var uploads: nat
    /** Every `createStatus` body, oldest first. */
    var created: seq<StatusRequest>
    var closeCalls: nat

    ghost predicate Valid()
      reads this
    {
      bgColor in BgColors && mediaType != TextStatus
    }

    /** Whether the post button is enabled (outside a submission): text to post, or a file on the media tab. */
    function CanSubmit(): (r: bool)
      reads this
      ensures tab == TextTab ==> (r <==> Trim(content) != "")
      ensures tab == MediaTab ==> (r <==> mediaFile.Some?)
    {
      if tab == TextTab then Trim(content) != "" else mediaFile.Some?
    }

    constructor ()
      ensures Valid() && tab == TextTab && content == "" && bgColor == DefaultBackground
      ensures mediaFile.None? && mediaType == ImageStatus && uploads == 0 && created == [] && closeCalls == 0
    {
      tab, content, bgColor, mediaFile, mediaType := TextTab, "", "#00a884", None, ImageStatus;
      uploads, created, closeCalls := 0, [], 0;
    }

    method TabChosen(t: Tab)
      requires Valid()
      modifies this
      ensures Valid() && tab == t && content == old(content) && bgColor == old(bgColor)
      ensures mediaFile == old(mediaFile) && mediaType == old(mediaType)
      ensures uploads == old(uploads) && created == old(created) && closeCalls == old(closeCalls)
    {
      tab := t;
    }

    /** Typing in the text box (at most 500 characters) or in the caption box (no limit). */
    method ContentChanged(raw: string)
      requires Valid()
      modifies this
      ensures Valid() && content == (if tab == TextTab && |raw| > MaxTextLength then raw[..MaxTextLength] else raw)
      ensures tab == old(tab) && bgColor == old(bgColor) && mediaFile == old(mediaFile) && mediaType == old(mediaType)
      ensures uploads == old(uploads) && created == old(created) && closeCalls == old(closeCalls)
    {
      content := if tab == TextTab && |raw| > MaxTextLength then raw[..MaxTextLength] else raw;
    }

    method ColourPicked(c: string)
      requires Valid() && c in BgColors
      modifies this
      ensures Valid() && bgColor == c && tab == old(tab) && content == old(content)
      ensures mediaFile == old(mediaFile) && mediaType == old(mediaType)
      ensures uploads == old(uploads) && created == old(created) && closeCalls == old(closeCalls)
    {
      bgColor := c;
    }

    /** `handleMediaSelect`: no file changes nothing; a file is kept with its type. */
    method MediaSelected(file: Option<string>)
      requires Valid()
      modifies this
      ensures Valid() && tab == old(tab) && content == old(content) && bgColor == old(bgColor)
      ensures file.None? ==> mediaFile == old(mediaFile) && mediaType == old(mediaType)
      ensures file.Some? ==> mediaFile == file && mediaType == MediaTypeOf(file.value)
      ensures uploads == old(uploads) && created == old(created) && closeCalls == old(closeCalls)
    {
      if file.Some? {
        mediaFile, mediaType := file, MediaTypeOf(file.value);
      }
    }

    /**
     * `handleSubmit`: nothing when the post button would be disabled.
     * Otherwise a chosen file is uploaded first (on either tab), and a
     * failed upload ends there; then the status goes out with the trimmed
     * content: type text with the chosen colour from the text tab, the
     * file's type on black from the media tab. The dialog closes once it is
     * created. Every type sent is one the status schema accepts.
     */
    method Submit(uploadedUrl: Option<string>, createOk: bool)
      requires Valid()
      modifies this
      ensures Valid() && tab == old(tab) && content == old(content) && bgColor == old(bgColor)
      ensures mediaFile == old(mediaFile) && mediaType == old(mediaType)
      ensures !old(CanSubmit()) ==> uploads == old(uploads) && created == old(created) && closeCalls == old(closeCalls)
      ensures old(CanSubmit()) ==> uploads == old(uploads) + (if mediaFile.Some? then 1 else 0)
      ensures old(CanSubmit()) && mediaFile.Some? && uploadedUrl.None? ==>
        created == old(created) && closeCalls == old(closeCalls)
      ensures old(CanSubmit()) && (mediaFile.None? || uploadedUrl.Some?) ==>
        created == old(created) + [StatusRequest(
          if tab == TextTab then "text" else StatusTypeName(mediaType),
          Trim(content),
          if mediaFile.Some? then uploadedUrl.value else "",
          if tab == TextTab then bgColor else MediaBackground)]
        && closeCalls == old(closeCalls) + (if createOk then 1 else 0)
        && ParseStatusType(created[|created| - 1].typeName).Some?
    {
      if tab == TextTab && Trim(content) == "" {
        return;
      }
      if tab == MediaTab && mediaFile.None? {
        return;
      }
      var mediaUrl := "";
      if mediaFile.Some? {
        uploads := uploads + 1;
        if uploadedUrl.None? {
          return;
        }
        mediaUrl := uploadedUrl.value;
      }
      var typeName := if tab == TextTab then "text" else StatusTypeName(mediaType);
      StatusTypeRoundTrip(if tab == TextTab then TextStatus else mediaType);
      created := created + [StatusRequest(typeName, Trim(content), mediaUrl, if tab == TextTab then bgColor else MediaBackground)];
      if createOk {
        closeCalls := closeCalls + 1;
      }
    }
  }
}
