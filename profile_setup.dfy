/**
 * The first-run profile form: name, about text and photo, saved through
 * `PUT /auth/profile`. Once the saved profile is complete the route
 * guards move the user on to the home screen.
 *
 * The photo's local preview is its data URL, given with the upload's
 * outcome; the upload and the save are parameters. The `maxLength` of
 * each box is modelled as truncation of what is typed.
 */
module ProfileSetup {
  import opened Common
  import opened Text
  import opened UserModel
  import AuthRoutes

  /** The body `updateProfile` sends. */
  datatype ProfileUpdate = ProfileUpdate(name: string, about: string, avatar: string)

  const NameTooShort: string := "Name must be at least 2 characters"
  const UploadFailed: string := "Failed to upload photo"
  const SaveFailed: string := "Failed to save profile"
  const ServerOrigin: string := "http://localhost:5000"

  /** Text typed into a box with a `maxLength`. */
  function Capped(raw: string, max: nat): (r: string)
    ensures |r| <= max && |r| <= |raw| && r == raw[..|r|]
    ensures |raw| <= max ==> r == raw
    ensures |raw| > max ==> |r| == max
  {
    if |raw| <= max then raw else raw[..max]
  }

  /** The form's check as written: at least two characters, counted before any trimming. */
  predicate NameAccepted(name: string) {
    name != "" && |name| >= AuthRoutes.MinNameLength
  }

  /** The check as evidently intended: two characters that survive the server's trim. */
  predicate NameAcceptedTrimmed(name: string) {
    |Trim(name)| >= AuthRoutes.MinNameLength
  }

  /**
   * As written, a name such as " a" passes the form's check, yet the
   * server trims it to one character and the profile stays incomplete:
   * the save succeeds and the setup page stays.
   */
  lemma PaddedNameLeavesProfileIncomplete(u: User)
    requires !u.isProfileComplete
    ensures NameAccepted(" a")
    ensures !AuthRoutes.ApplyProfile(u, Some(" a"), None, None).isProfileComplete
  {
    assert Trim(" a") == "a" by {
      assert TrimStart(" a") == "a";
      assert TrimEnd("a") == "a";
    }
  }

  /** With the trimmed check, every accepted name completes the profile. */
  lemma TrimmedNameCompletesProfile(u: User, name: string, about: Option<string>, avatar: Option<string>)
    requires NameAcceptedTrimmed(name)
    ensures NameAccepted(name)
    ensures AuthRoutes.ApplyProfile(u, Some(name), about, avatar).isProfileComplete
    ensures AuthRoutes.ApplyProfile(u, Some(name), about, avatar).name == Trim(name)
  {
    TrimIsInnerSlice(name);
  }

  /** The photo shown: the local preview, else the saved photo from the server, else none. */
  function DisplayAvatar(preview: string, avatar: string): (r: string)
    ensures preview != "" ==> r == preview
    ensures preview == "" && avatar != "" ==> r == ServerOrigin + avatar
    ensures r == "" <==> preview == "" && avatar == ""
  {
    if preview != "" then preview else if avatar != "" then ServerOrigin + avatar else ""
  }

  /** The about box's counter: characters left of the 140. */
  function Remaining(about: string): (r: int)
    ensures r == AboutMaxLength as int - |about|
    ensures |about| <= AboutMaxLength ==> 0 <= r <= AboutMaxLength
  {
    AboutMaxLength as int - |about|
  }

  class ProfileSetupForm {
    var name: string
    var about: string
    var avatar: string
    var preview: string
    var error: string
    /** How many photos were sent to `/upload/avatars`. */
    var uploads: nat
    /** Every `updateProfile` body, oldest first. */
    var updates: seq<ProfileUpdate>

    /** The form starts from the signed-in user; the about text falls back to the stock one. */
    constructor (user: Option<User>)
      ensures name == (if user.Some? then user.value.name else "")
      ensures about == (if user.Some? && user.value.about != "" then user.value.about else DefaultAbout)
      ensures avatar == (if user.Some? then user.value.avatar else "")
      ensures preview == "" && error == "" && uploads == 0 && updates == []
    {
      name := if user.Some? then user.value.name else "";
      about := if user.Some? && user.value.about != "" then user.value.about else DefaultAbout;
      avatar := if user.Some? then user.value.avatar else "";
      preview, error, uploads, updates := "", "", 0, [];
    }

    method NameChanged(raw: string)
      modifies this
      ensures name == Capped(raw, NameMaxLength) && about == old(about) && avatar == old(avatar)
      ensures preview == old(preview) && error == old(error) && uploads == old(uploads) && updates == old(updates)
    {
      name := Capped(raw, NameMaxLength);
    }

    method AboutChanged(raw: string)
      modifies this
      ensures about == Capped(raw, AboutMaxLength) && name == old(name) && avatar == old(avatar)
      ensures preview == old(preview) && error == old(error) && uploads == old(uploads) && updates == old(updates)
    {
      about := Capped(raw, AboutMaxLength);
    }

    /** `handleAvatarChange`: the preview shows the file, which is uploaded; only a success replaces the photo. */
    method AvatarChosen(dataUrl: string, uploaded: Option<string>)
      modifies this
      ensures preview == dataUrl && uploads == old(uploads) + 1 && name == old(name) && about == old(about)
      ensures uploaded.Some? ==> avatar == uploaded.value && error == old(error)
      ensures uploaded.None? ==> avatar == old(avatar) && error == UploadFailed
      ensures updates == old(updates)
    {
      preview := dataUrl;
      uploads := uploads + 1;
      if uploaded.Some? {
        avatar := uploaded.value;
      } else {
        error := UploadFailed;
      }
    }

    /** `handleSubmit`: a short name is refused with no request; otherwise the three fields are saved. */
    method Submit(reply: ApiReply)
      modifies this
      ensures name == old(name) && about == old(about) && avatar == old(avatar) && preview == old(preview)
      ensures uploads == old(uploads)
      ensures !NameAccepted(name) ==> error == NameTooShort && updates == old(updates)
      ensures NameAccepted(name) ==>
        updates == old(updates) + [ProfileUpdate(name, about, avatar)]
        && error == (if reply.Resolved? then "" else ErrorText(reply, SaveFailed))
    {
      if !NameAccepted(name) {
        error := NameTooShort;
        return;
      }
      error := "";
      updates := updates + [ProfileUpdate(name, about, avatar)];
      if reply.Refused? {
        error := ErrorText(reply, SaveFailed);
      }
    }
  }
}
