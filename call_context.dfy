/**
 * The browser side of a voice or video call (`CallProvider`): the state
 * the call screens render, the refs holding the peer connection, the
 * local stream and the timer interval, and every socket event it emits.
 *
 * WebRTC and the media devices are outside the model: whether the browser
 * grants the media and completes its half of the offer/answer exchange is
 * the boolean `mediaOk`, a peer connection is the target its ICE handler
 * emits to, and a stream is the `enabled` flags of its first audio and
 * first video track. Each handler runs to completion; interleaving the
 * `await`s of one handler with other events is not modelled.
 */
module CallContext {
  import opened Common

  datatype CallState = Idle | Calling | Incoming | Active

  /** The `{ _id, name, avatar }` of a user as the call screens hold it. */
  datatype UserInfo = UserInfo(id: ObjectId, name: string, avatar: string)

  /** The first audio and the first video track of a local stream, by their `enabled` flag; `None` when there is none. */
  datatype Stream = Stream(audio: Option<bool>, video: Option<bool>)

  /**
   * A live `RTCPeerConnection`, by the user its `onicecandidate` handler
   * emits to; `None` when that handler would read `_id` of `null`.
   */
  datatype Peer = Peer(iceTo: Option<ObjectId>)

  /**
   * The machinery behind `callTimer`: `ref` is `timerInterval.current`,
   * `running` the handles of every interval not yet cleared, `next` the
   * handle the next `setInterval` returns, `seconds` the `callTimer` state.
   */
  datatype Timer = Timer(ref: Option<nat>, running: set<nat>, next: nat, seconds: nat)

  /** Everything `CallProvider` emits on the socket. */
  datatype Outgoing =
    | CallUserOut(to: ObjectId, from: ObjectId, signal: Payload, callType: string, callerInfo: UserInfo)
    | CallAcceptedOut(to: ObjectId, signal: Payload, callId: Option<ObjectId>)
    | CallRejectedOut(to: ObjectId, callId: Option<ObjectId>)
    | CallEndedOut(to: ObjectId, callId: Option<ObjectId>)
    | IceCandidateOut(to: ObjectId, candidate: Payload)

  /** The provider's state and refs at one moment. */
  datatype Call = Call(state: CallState, callType: Option<string>, remoteUser: Option<UserInfo>,
                       callId: Option<ObjectId>, isMuted: bool, isCameraOff: bool,
                       peer: Option<Peer>, stream: Option<Stream>, timer: Timer,
                       incomingSignal: Option<Payload>)

  const VideoType: string := "video"

  /** Interval handles are fresh, and the ref, when set, names a running interval. */
  predicate TimerOk(t: Timer) {
    (t.ref.Some? ==> t.ref.value in t.running) && forall h :: h in t.running ==> h < t.next
  }

  /** Nothing runs but the referenced interval, so `stopTimer` stops every interval. */
  predicate Sound(t: Timer) {
    t.running == (if t.ref.Some? then {t.ref.value} else {})
  }

  /** How far `callTimer` advances each second: one step per running interval. */
  function PerSecond(t: Timer): nat {
    |t.running|
  }

  /** `startTimer`: reset the count to 0 and start an interval, storing its handle over any earlier one. */
  function Start(t: Timer): (r: Timer)
    ensures r.seconds == 0 && r.ref.Some? && r.ref.value in r.running && t.running <= r.running
    ensures TimerOk(t) ==> TimerOk(r) && r.ref.value !in t.running && |r.running| == |t.running| + 1
  {
    Timer(Some(t.next), t.running + {t.next}, t.next + 1, 0)
  }

  /** `stopTimer`: clear the referenced interval, if any, and forget it. */
  function Stop(t: Timer): (r: Timer)
    ensures r.ref.None? && r.running <= t.running && r.seconds == t.seconds && r.next == t.next
    ensures TimerOk(t) ==> TimerOk(r) && (t.ref.Some? ==> |r.running| == |t.running| - 1)
    ensures t.ref.None? ==> r == t
  {
    if t.ref.Some? then Timer(None, t.running - {t.ref.value}, t.next, t.seconds) else t
  }

  /** One callback of a running interval: `setCallTimer((prev) => prev + 1)`. */
  function Tick(t: Timer): (r: Timer)
    ensures r.seconds == t.seconds + 1 && r.ref == t.ref && r.running == t.running && r.next == t.next
  {
    t.(seconds := t.seconds + 1)
  }

  /** `startTimer` as evidently intended: clear a running interval before starting the next. */
  function StartClearing(t: Timer): (r: Timer)
    ensures r.seconds == 0 && r.ref.Some? && r.ref.value in r.running
    ensures Sound(t) ==> Sound(r)
  {
    Start(Stop(t))
  }

  /** Starting while no interval runs is harmless, even as written. */
  lemma StartWhenStoppedIsSound(t: Timer)
    requires Sound(t) && t.ref.None?
    ensures Sound(Start(t)) && PerSecond(Start(t)) == 1
  {
  }

  /**
   * Starting while an interval runs orphans it: after the next
   * `stopTimer` nothing is referenced, yet the earlier interval still
   * counts, once per second.
   */
  lemma StartOverRunningLeaks(t: Timer)
    requires TimerOk(t) && t.ref.Some?
    ensures var r := Stop(Start(t));
      r.ref.None? && t.ref.value in r.running && PerSecond(r) == PerSecond(t) && !Sound(r)
  {
  }

  /**
   * With the clearing start the timer stays sound through every
   * operation: it advances by exactly one per second while started and
   * not at all once stopped.
   */
  lemma ClearingKeepsTimerSound(t: Timer)
    requires Sound(t)
    ensures Sound(StartClearing(t)) && PerSecond(StartClearing(t)) == 1
    ensures Sound(Stop(t)) && PerSecond(Stop(t)) == 0
    ensures Sound(Tick(t)) && PerSecond(Tick(t)) == PerSecond(t)
  {
  }

  /** The stream `getUserMedia({ audio: true, video })` grants: enabled tracks, a video one only if asked for. */
  function MediaFor(video: bool): (r: Stream)
    ensures r.audio == Some(true)
    ensures r.video.Some? <==> video
    ensures r.video.Some? ==> r.video.value
  {
    Stream(Some(true), if video then Some(true) else None)
  }

  /** `cleanup`: back to idle with every call field reset, the peer and stream released and the timer stopped. */
  function Cleaned(c: Call): (r: Call)
    ensures r.state == Idle && r.callType.None? && r.remoteUser.None? && r.callId.None?
    ensures !r.isMuted && !r.isCameraOff && r.peer.None? && r.stream.None?
    ensures r.timer.ref.None? && r.timer.seconds == 0 && r.timer.running <= c.timer.running
    ensures r.incomingSignal == c.incomingSignal
    ensures Sound(c.timer) ==> r.timer.running == {}
  {
    c.(state := Idle, callType := None, remoteUser := None, callId := None,
       isMuted := false, isCameraOff := false, peer := None, stream := None,
       timer := Stop(c.timer).(seconds := 0))
  }

  /** A second `cleanup` changes nothing. */
  lemma CleanedIdempotent(c: Call)
    ensures Cleaned(Cleaned(c)) == Cleaned(c)
  {
  }

  /** Flipping the first audio track, if there is one; the mute flag is then the negation of its new `enabled`. */
  function ToggledMute(c: Call): (r: Call)
    ensures c.stream.Some? && c.stream.value.audio.Some? ==>
      (r.stream.Some? && r.stream.value.audio == Some(!c.stream.value.audio.value)
       && r.stream.value.video == c.stream.value.video
       && r.isMuted == !r.stream.value.audio.value
       && r == c.(stream := r.stream, isMuted := r.isMuted))
    ensures !(c.stream.Some? && c.stream.value.audio.Some?) ==> r == c
  {
    if c.stream.Some? && c.stream.value.audio.Some? then
      var enabled := !c.stream.value.audio.value;
      c.(stream := Some(c.stream.value.(audio := Some(enabled))), isMuted := !enabled)
    else c
  }

  /** Flipping the first video track, if there is one; the camera-off flag is then the negation of its new `enabled`. */
  function ToggledCamera(c: Call): (r: Call)
    ensures c.stream.Some? && c.stream.value.video.Some? ==>
      (r.stream.Some? && r.stream.value.video == Some(!c.stream.value.video.value)
       && r.stream.value.audio == c.stream.value.audio
       && r.isCameraOff == !r.stream.value.video.value
       && r == c.(stream := r.stream, isCameraOff := r.isCameraOff))
    ensures !(c.stream.Some? && c.stream.value.video.Some?) ==> r == c
  {
    if c.stream.Some? && c.stream.value.video.Some? then
      var enabled := !c.stream.value.video.value;
      c.(stream := Some(c.stream.value.(video := Some(enabled))), isCameraOff := !enabled)
    else c
  }

  /** Muting twice restores the track, and the flag then agrees with the track whatever it was before. */
  lemma ToggleMuteTwice(c: Call)
    requires c.stream.Some? && c.stream.value.audio.Some?
    ensures ToggledMute(ToggledMute(c)).stream == c.stream
    ensures ToggledMute(ToggledMute(c)).isMuted == !c.stream.value.audio.value
  {
  }

  class CallProvider {
    /** Whether `useSocket()` gives a socket; the listeners are registered only then. */
    const hasSocket: bool
    /** `useAuth().user`. */
    const me: Option<UserInfo>

    var callState: CallState
    var callType: Option<string>
    var remoteUser: Option<UserInfo>
    var callId: Option<ObjectId>
    var isMuted: bool
    var isCameraOff: bool
    /** `peerRef.current`. */
    var peer: Option<Peer>
    /** `localStreamRef.current`. */
    var stream: Option<Stream>
    /** `timerInterval.current`, the intervals still running and `callTimer`. */
    var timer: Timer
    /** `incomingSignalRef.current`. */
    var incomingSignal: Option<Payload>
    /** Every `socket.emit`, oldest first. */
    var outbox: seq<Outgoing>
    /** The remote ICE candidates handed to the peer connection. */
    var candidates: seq<Payload>

    function View(): Call
      reads this
    {
      Call(callState, callType, remoteUser, callId, isMuted, isCameraOff, peer, stream, timer, incomingSignal)
    }

    ghost predicate Valid()
      reads this
    {
      TimerOk(timer)
    }

    constructor (hasSocket: bool, me: Option<UserInfo>)
      ensures Valid() && this.hasSocket == hasSocket && this.me == me
      ensures View() == Call(Idle, None, None, None, false, false, None, None, Timer(None, {}, 0, 0), None)
      ensures outbox == [] && candidates == []
    {
      this.hasSocket, this.me := hasSocket, me;
      callState, callType, remoteUser, callId := Idle, None, None, None;
      isMuted, isCameraOff, peer, stream := false, false, None, None;
      timer, incomingSignal, outbox, candidates := Timer(None, {}, 0, 0), None, [], [];
    }

    /** `cleanup`; emits nothing. */
    method Cleanup()
      requires Valid()
      modifies this
      ensures Valid() && View() == Cleaned(old(View()))
      ensures outbox == old(outbox) && candidates == old(candidates)
    {
      var c := Cleaned(View());
      assert TimerOk(c.timer);
      callState, callType, remoteUser, callId := c.state, c.callType, c.remoteUser, c.callId;
      isMuted, isCameraOff, peer, stream, timer := c.isMuted, c.isCameraOff, c.peer, c.stream, c.timer;
    }

    /**
     * `callUser`: with the media granted the call is `calling` the target
     * and `call-user` carries the offer, the type and this user's
     * `{ _id, name, avatar }`. A refused media request, or a missing socket
     * or user (whose `emit` or `_id` throws), ends in `cleanup`.
     */
    method CallUser(target: UserInfo, kind: string, offer: Payload, mediaOk: bool)
      requires Valid()
      modifies this
      ensures Valid() && candidates == old(candidates)
      ensures mediaOk && hasSocket && me.Some? ==>
        (View() == old(View()).(state := Calling, callType := Some(kind), remoteUser := Some(target),
                                peer := Some(Peer(Some(target.id))), stream := Some(MediaFor(kind == VideoType)))
         && outbox == old(outbox) + [CallUserOut(target.id, me.value.id, offer, kind, me.value)])
      ensures !(mediaOk && hasSocket && me.Some?) ==> View() == Cleaned(old(View())) && outbox == old(outbox)
    {
      if !mediaOk {
        Cleanup();
        return;
      }
      stream := Some(MediaFor(kind == VideoType));
      callState, callType, remoteUser := Calling, Some(kind), Some(target);
      peer := Some(Peer(Some(target.id)));
      if !hasSocket || me.None? {
        Cleanup();
        return;
      }
      outbox := outbox + [CallUserOut(target.id, me.value.id, offer, kind, me.value)];
    }

    /**
     * `acceptCall`: with the media granted and the stored offer answered,
     * `call-accepted` carries the answer and the stored call id to the
     * caller, and the call is `active` with the timer restarted from 0.
     * A refused media request, a missing offer, socket or caller ends in
     * `cleanup`.
     */
    method AcceptCall(answer: Payload, mediaOk: bool)
      requires Valid()
      modifies this
      ensures Valid() && candidates == old(candidates)
      ensures mediaOk && incomingSignal.Some? && hasSocket && old(remoteUser).Some? ==>
        (View() == old(View()).(state := Active, peer := Some(Peer(Some(old(remoteUser).value.id))),
                                stream := Some(MediaFor(old(callType) == Some(VideoType))), timer := Start(old(timer)))
         && outbox == old(outbox) + [CallAcceptedOut(old(remoteUser).value.id, answer, old(callId))])
      ensures !(mediaOk && incomingSignal.Some? && hasSocket && old(remoteUser).Some?) ==>
        View() == Cleaned(old(View())) && outbox == old(outbox)
    {
      if !mediaOk {
        Cleanup();
        return;
      }
      stream := Some(MediaFor(callType == Some(VideoType)));
      peer := Some(Peer(if remoteUser.Some? then Some(remoteUser.value.id) else None));
      if incomingSignal.None? || !hasSocket || remoteUser.None? {
        Cleanup();
        return;
      }
      outbox := outbox + [CallAcceptedOut(remoteUser.value.id, answer, callId)];
      callState := Active;
      timer := Start(timer);
    }

    /** `rejectCall`: `call-rejected` to the other side when there is a socket and a remote user, then `cleanup`. */
    method RejectCall()
      requires Valid()
      modifies this
      ensures Valid() && View() == Cleaned(old(View())) && candidates == old(candidates)
      ensures outbox == old(outbox) + (if hasSocket && old(remoteUser).Some?
                                       then [CallRejectedOut(old(remoteUser).value.id, old(callId))] else [])
    {
      if hasSocket && remoteUser.Some? {
        outbox := outbox + [CallRejectedOut(remoteUser.value.id, callId)];
      }
      Cleanup();
    }

    /** `endCall`: `call-ended` to the other side when there is a socket and a remote user, then `cleanup`. */
    method EndCall()
      requires Valid()
      modifies this
      ensures Valid() && View() == Cleaned(old(View())) && candidates == old(candidates)
      ensures outbox == old(outbox) + (if hasSocket && old(remoteUser).Some?
                                       then [CallEndedOut(old(remoteUser).value.id, old(callId))] else [])
    {
      if hasSocket && remoteUser.Some? {
        outbox := outbox + [CallEndedOut(remoteUser.value.id, callId)];
      }
      Cleanup();
    }

    /** `toggleMute`. */
    method ToggleMute()
      requires Valid()
      modifies this
      ensures Valid() && View() == ToggledMute(old(View()))
      ensures outbox == old(outbox) && candidates == old(candidates)
    {
      if stream.Some? && stream.value.audio.Some? {
        var enabled := !stream.value.audio.value;
        stream := Some(stream.value.(audio := Some(enabled)));
        isMuted := !enabled;
      }
    }

    /** `toggleCamera`. */
    method ToggleCamera()
      requires Valid()
      modifies this
      ensures Valid() && View() == ToggledCamera(old(View()))
      ensures outbox == old(outbox) && candidates == old(candidates)
    {
      if stream.Some? && stream.value.video.Some? {
        var enabled := !stream.value.video.value;
        stream := Some(stream.value.(video := Some(enabled)));
        isCameraOff := !enabled;
      }
    }

    /** The `incoming-call` listener: the call becomes `incoming` from the caller, whatever call was in progress. */
    method OnIncomingCall(signal: Option<Payload>, kind: Option<string>, callerInfo: Option<UserInfo>,
                          cid: Option<ObjectId>)
      requires Valid() && hasSocket
      modifies this
      ensures Valid() && outbox == old(outbox) && candidates == old(candidates)
      ensures View() == old(View()).(state := Incoming, callType := kind, remoteUser := callerInfo,
                                     callId := cid, incomingSignal := signal)
    {
      incomingSignal := signal;
      callState, callType, remoteUser, callId := Incoming, kind, callerInfo, cid;
    }

    /**
     * The `call-accepted` listener: only with a peer connection, and once
     * the answer is applied (`signalOk`), the call is `active` with the
     * timer restarted from 0.
     */
    method OnCallAccepted(signalOk: bool)
      requires Valid() && hasSocket
      modifies this
      ensures Valid() && outbox == old(outbox) && candidates == old(candidates)
      ensures View() == if old(peer).Some? && signalOk
                        then old(View()).(state := Active, timer := Start(old(timer)))
                        else old(View())
    {
      if peer.Some? && signalOk {
        callState := Active;
        timer := Start(timer);
      }
    }

    /** The `call-rejected`, `call-ended` and `call-unavailable` listeners: each runs `cleanup`. */
    method OnCallOver()
      requires Valid() && hasSocket
      modifies this
      ensures Valid() && View() == Cleaned(old(View()))
      ensures outbox == old(outbox) && candidates == old(candidates)
    {
      Cleanup();
    }

    /** The `ice-candidate` listener: a present candidate goes to the peer connection, if there is one. */
    method OnIceCandidate(candidate: Option<Payload>)
      requires Valid() && hasSocket
      modifies this
      ensures Valid() && View() == old(View()) && outbox == old(outbox)
      ensures candidates == old(candidates) + (if old(peer).Some? && candidate.Some? then [candidate.value] else [])
    {
      if peer.Some? && candidate.Some? {
        candidates := candidates + [candidate.value];
      }
    }

    /** The peer connection's `onicecandidate`: a present candidate goes to the other side when there is a socket. */
    method OnLocalCandidate(candidate: Option<Payload>)
      requires Valid() && peer.Some?
      modifies this
      ensures Valid() && View() == old(View()) && candidates == old(candidates)
      ensures outbox == old(outbox) + (if candidate.Some? && hasSocket && peer.value.iceTo.Some?
                                       then [IceCandidateOut(peer.value.iceTo.value, candidate.value)] else [])
    {
      if candidate.Some? && hasSocket && peer.value.iceTo.Some? {
        outbox := outbox + [IceCandidateOut(peer.value.iceTo.value, candidate.value)];
      }
    }

    /** One callback of the running interval `h`. */
    method OnInterval(h: nat)
      requires Valid() && h in timer.running
      modifies this
      ensures Valid() && View() == old(View()).(timer := Tick(old(timer)))
      ensures outbox == old(outbox) && candidates == old(candidates)
    {
      timer := Tick(timer);
    }
  }

  /**
   * Answering a second call while one is active restarts the timer over
   * the running interval: after hanging up the call is idle and nothing
   * references an interval, yet the first one still advances `callTimer`.
   */
  method AnswerDuringCallLeaksTimer(me: UserInfo, first: UserInfo, second: UserInfo, offer: Payload, answer: Payload)
    returns (p: CallProvider)
    ensures p.callState == Idle && p.timer.ref.None? && p.timer.seconds == 1
  {
    p := new CallProvider(true, Some(me));
    p.OnIncomingCall(Some(offer), Some("voice"), Some(first), Some(1));
    p.AcceptCall(answer, true);
    p.OnIncomingCall(Some(offer), Some("voice"), Some(second), Some(2));
    p.AcceptCall(answer, true);
    p.EndCall();
    assert 0 in p.timer.running;
    p.OnInterval(0);
  }
}
