/**
 * The call overlay: shown while a call is being placed or is under way,
 * with the remote person's name, the call's status line and the controls.
 * The video elements and their streams are left out; what is modelled is
 * what the overlay shows for a given call state.
 */
module ActiveCall {
  import opened Common
  import CallContext
  import Avatar
  import VoiceToText

  /** What the overlay shows. */
  datatype Overlay = Overlay(
    videoLayout: bool,
    avatar: Option<Avatar.AvatarView>,
    name: string,
    status: string,
    muteActive: bool,
    cameraButton: Option<bool>)

  const CallingText: string := "Calling..."
  const UnknownName: string := "Unknown"
  /** The pixel size of the voice-call avatar. */
  const AvatarSize: nat := 100

  /** `remoteUser?.name || 'Unknown'`. */
  function RemoteName(remote: Option<CallContext.UserInfo>): (r: string)
    ensures r != ""
    ensures remote.Some? && remote.value.name != "" ==> r == remote.value.name
    ensures !(remote.Some? && remote.value.name != "") ==> r == UnknownName
  {
    if remote.Some? && remote.value.name != "" then remote.value.name else UnknownName
  }

  /**
   * The overlay for a call state: nothing unless the call is being placed
   * or is active; 'Calling...' while placing, else the running time as
   * `mm:ss`; the camera button (showing whether the camera is off) only on
   * a video call, and the avatar only on a voice call.
   */
  function Render(state: CallContext.CallState, callType: Option<string>, remote: Option<CallContext.UserInfo>,
                  timer: nat, isMuted: bool, isCameraOff: bool): (r: Option<Overlay>)
    ensures r.Some? <==> state == CallContext.Active || state == CallContext.Calling
    ensures r.Some? && state == CallContext.Calling ==> r.value.status == CallingText
    ensures r.Some? && state == CallContext.Active ==> r.value.status == VoiceToText.FormatTimer(timer)
    ensures r.Some? ==> (r.value.cameraButton.Some? <==> callType == Some("video"))
    ensures r.Some? && r.value.cameraButton.Some? ==> r.value.cameraButton.value == isCameraOff
    ensures r.Some? ==> (r.value.avatar.Some? <==> callType == Some("voice"))
    ensures r.Some? ==> r.value.name == RemoteName(remote) && r.value.muteActive == isMuted
    ensures r.Some? ==> r.value.videoLayout == (callType == Some("video"))
  {
    if state != CallContext.Active && state != CallContext.Calling then None
    else
      var name := RemoteName(remote);
      var photo := if remote.Some? then Some(remote.value.avatar) else None;
      Some(Overlay(
        callType == Some("video"),
        if callType == Some("voice") then Some(Avatar.Render(Some(name), photo, false, Avatar.Pixels(AvatarSize))) else None,
        name,
        if state == CallContext.Calling then CallingText else VoiceToText.FormatTimer(timer),
        isMuted,
        if callType == Some("video") then Some(isCameraOff) else None))
  }

  /** Once active, the status line reads back as the seconds the call has lasted. */
  lemma ActiveStatusShowsDuration(callType: Option<string>, remote: Option<CallContext.UserInfo>,
                                  timer: nat, isMuted: bool, isCameraOff: bool)
    ensures VoiceToText.ReadsAs(Render(CallContext.Active, callType, remote, timer, isMuted, isCameraOff).value.status, timer)
  {
    VoiceToText.TimerReadsBack(timer);
  }
}
