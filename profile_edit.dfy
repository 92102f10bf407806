/**
 * The profile panel opened from the sidebar: the same three fields as the
 * first-run form, one line for every notice, and the panel closing one
 * second after a successful save.
 *
 * The upload and the save are parameters; the close timeout is counted as
 * armed.
 */
module ProfileEdit {
  import opened Common
  import opened UserModel
  import opened ProfileSetup

  const Updated: string := "Profile updated! \U{2705}"
  const SaveFailedShort: string := "Failed to save"
  /** How long after a successful save the panel closes. */
  const CloseDelay: Millis := 1000

  /** The phone line: the user's number, else "N/A". */
  function PhoneLabel(user: Option<User>): (r: string)
    ensures user.Some? && user.value.phone.Some? && user.value.phone.value != "" ==> r == user.value.phone.value
    ensures !(user.Some? && user.value.phone.Some? && user.value.phone.value != "") ==> r == "N/A"
    ensures r != "" && (r == "N/A" || (user.Some? && user.value.phone == Some(r)))
  {
    if user.Some? && user.value.phone.Some? && user.value.phone.value != "" then user.value.phone.value else "N/A"
  }

  /** The name the stand-in avatar draws initials from when there is no photo. */
  function FallbackName(name: string): (r: string)
    ensures r != ""
    ensures name != "" ==> r == name
    ensures name == "" ==> r == "U"
  {
    if name != "" then name else "U"
  }

  class ProfilePanel {
    var name: string
    var about: string
    var avatar: string
    var preview: string
    /** The one notice line: errors and the success text alike. */
    var message: string
    var uploads: nat
    var updates: seq<ProfileUpdate>
    var closeTimers: nat

    /** Unlike the first-run form, the about text starts empty when the user has none. */
    constructor (user: Option<User>)
      ensures name == (if user.Some? then user.value.name else "")
      ensures about == (if user.Some? then user.value.about else "")
      ensures avatar == (if user.Some? then user.value.avatar else "")
      ensures preview == "" && message == "" && uploads == 0 && updates == [] && closeTimers == 0
    {
      name := if user.Some? then user.value.name else "";
      about := if user.Some? then user.value.about else "";
      avatar := if user.Some? then user.value.avatar else "";
      preview, message, uploads, updates, closeTimers := "", "", 0, [], 0;
    }

    method NameChanged(raw: string)
      modifies this
      ensures name == Capped(raw, NameMaxLength) && about == old(about) && avatar == old(avatar)
      ensures preview == old(preview) && message == old(message) && uploads == old(uploads)
      ensures updates == old(updates) && closeTimers == old(closeTimers)
    {
      name := Capped(raw, NameMaxLength);
    }

    method AboutChanged(raw: string)
      modifies this
      ensures about == Capped(raw, AboutMaxLength) && name == old(name) && avatar == old(avatar)
      ensures preview == old(preview) && message == old(message) && uploads == old(uploads)
      ensures updates == old(updates) && closeTimers == old(closeTimers)
    {
      about := Capped(raw, AboutMaxLength);
    }

    /** A chosen photo: previewed, uploaded, and kept only when the upload succeeds. */
    method AvatarChosen(dataUrl: string, uploaded: Option<string>)
      modifies this
      ensures preview == dataUrl && uploads == old(uploads) + 1 && name == old(name) && about == old(about)
      ensures uploaded.Some? ==> avatar == uploaded.value && message == old(message)
      ensures uploaded.None? ==> avatar == old(avatar) && message == UploadFailed
      ensures updates == old(updates) && closeTimers == old(closeTimers)
    {
      preview := dataUrl;
      uploads := uploads + 1;
      if uploaded.Some? {
        avatar := uploaded.value;
      } else {
        message := UploadFailed;
      }
    }

    /**
     * `handleSave`: the first-run form's name check; then the save, whose
     * success is announced and arms the close, and whose failure shows a
     * fixed text whatever the server said.
     */
    method Save(ok: bool)
      modifies this
      ensures name == old(name) && about == old(about) && avatar == old(avatar) && preview == old(preview)
      ensures uploads == old(uploads)
      ensures !NameAccepted(name) ==>
        message == NameTooShort && updates == old(updates) && closeTimers == old(closeTimers)
      ensures NameAccepted(name) ==> updates == old(updates) + [ProfileUpdate(name, about, avatar)]
      ensures NameAccepted(name) && ok ==> message == Updated && closeTimers == old(closeTimers) + 1
      ensures NameAccepted(name) && !ok ==> message == SaveFailedShort && closeTimers == old(closeTimers)
    {
      if !NameAccepted(name) {
        message := NameTooShort;
        return;
      }
      updates := updates + [ProfileUpdate(name, about, avatar)];
      if ok {
        message := Updated;
        closeTimers := closeTimers + 1;
      } else {
        message := SaveFailedShort;
      }
    }
  }
}
