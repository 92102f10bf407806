/**
 * The voice-note recorder shown in place of the message box: it records
 * from the microphone, counts seconds, and on send uploads the recording
 * for transcription and hands the text back to the chat window.
 *
 * The microphone, the `MediaRecorder` and the transcription request are
 * parameters or recorded state: whether the microphone was granted, the
 * size of each data chunk, and the transcription's outcome. Stopping a
 * recorder fires its stop handler only when it was recording, as the
 * MediaRecorder interface specifies; the stop handler's work is done in
 * the same step as the stop.
 */
module VoiceToText {
  import opened Common
  import opened Text

  datatype RecorderState = Recording | Inactive

  /** `formatTimer`: zero-padded whole minutes, a colon, zero-padded seconds. */
  function FormatTimer(seconds: nat): (r: string)
    ensures |r| >= 5 && r[|r| - 3] == ':'
  {
    TwoDigitsAtMost(seconds % 60);
    PadStart2(NatToString(seconds / 60)) + ":" + PadStart2(NatToString(seconds % 60))
  }

  /** A number below 100 has at most two digits. */
  lemma {:induction false} TwoDigitsAtMost(n: nat)
    requires n < 100
    ensures |NatToString(n)| <= 2
  {
    if n >= 10 {
      assert NatToString(n) == NatToString(n / 10) + [DigitChar(n % 10)];
    }
  }

  /**
   * `t` reads as `seconds` in the `mm:ss` form: digits, a colon, two
   * digits below 60, and the minutes before the colon times 60 plus the
   * seconds after it give `seconds`.
   */
  predicate ReadsAs(t: string, seconds: nat) {
    |t| >= 5 && t[|t| - 3] == ':'
    && AllDigits(t[..|t| - 3]) && AllDigits(t[|t| - 2..])
    && ParseNat(t[|t| - 2..]) < 60
    && ParseNat(t[..|t| - 3]) * 60 + ParseNat(t[|t| - 2..]) == seconds
  }

  /**
   * The timer text reads back as the seconds it shows, and the minutes
   * field is the whole minutes padded to two digits but never cut.
   */
  lemma TimerReadsBack(seconds: nat)
    ensures ReadsAs(FormatTimer(seconds), seconds)
    ensures |FormatTimer(seconds)| - 3 == (if |NatToString(seconds / 60)| < 2 then 2 else |NatToString(seconds / 60)|)
  {
    var m := NatToString(seconds / 60);
    var s := NatToString(seconds % 60);
    TwoDigitsAtMost(seconds % 60);
    PadStart2Value(m);
    PadStart2Value(s);
    ParseNatToString(seconds / 60);
    ParseNatToString(seconds % 60);
    var r := FormatTimer(seconds);
    assert r == PadStart2(m) + ":" + PadStart2(s);
    assert r[..|r| - 3] == PadStart2(m);
    assert r[|r| - 2..] == PadStart2(s);
  }

  /** Different second counts never show the same text. */
  lemma TimerInjective(a: nat, b: nat)
    requires FormatTimer(a) == FormatTimer(b)
    ensures a == b
  {
    TimerReadsBack(a);
    TimerReadsBack(b);
  }

  class VoiceRecorder {
    /** Whether a recorder was created (`mediaRecorderRef.current`). */
    var hasRecorder: bool
    var recorderState: RecorderState
    /** The sizes of the collected chunks. */
    var chunks: seq<nat>
    var timer: nat
    /** Whether the one-second interval runs. */
    var ticking: bool
    /** Every recording sent for transcription, as its chunks. */
    var uploads: seq<seq<nat>>
    /** Every text handed to `onTranscription`. */
    var transcriptions: seq<string>
    var cancelCalls: nat

    ghost predicate Valid()
      reads this
    {
      (!hasRecorder ==> recorderState == Inactive && !ticking)
      && (forall i :: 0 <= i < |chunks| ==> chunks[i] > 0)
    }

    /**
     * Mounting starts recording: with the microphone granted a recorder
     * starts, with no chunks, and the timer runs from 0; without it the
     * recorder is never created and `onCancel` is called.
     */
    constructor (micGranted: bool)
      ensures Valid() && timer == 0 && chunks == [] && uploads == [] && transcriptions == []
      ensures micGranted ==> hasRecorder && recorderState == Recording && ticking && cancelCalls == 0
      ensures !micGranted ==> !hasRecorder && recorderState == Inactive && !ticking && cancelCalls == 1
    {
      timer, chunks, uploads, transcriptions := 0, [], [], [];
      if micGranted {
        hasRecorder, recorderState, ticking, cancelCalls := true, Recording, true, 0;
      } else {
        hasRecorder, recorderState, ticking, cancelCalls := false, Inactive, false, 1;
      }
    }

    /** `ondataavailable`: only a chunk with data is kept. */
    method DataAvailable(size: nat)
      requires Valid() && hasRecorder
      modifies this
      ensures Valid() && chunks == old(chunks) + (if size > 0 then [size] else [])
      ensures hasRecorder == old(hasRecorder) && recorderState == old(recorderState) && timer == old(timer)
      ensures ticking == old(ticking) && uploads == old(uploads) && transcriptions == old(transcriptions)
      ensures cancelCalls == old(cancelCalls)
    {
      if size > 0 {
        chunks := chunks + [size];
      }
    }

    /** One firing of the interval. */
    method Tick()
      requires Valid() && ticking
      modifies this
      ensures Valid() && timer == old(timer) + 1 && ticking
      ensures hasRecorder == old(hasRecorder) && recorderState == old(recorderState) && chunks == old(chunks)
      ensures uploads == old(uploads) && transcriptions == old(transcriptions) && cancelCalls == old(cancelCalls)
    {
      timer := timer + 1;
    }

    /**
     * `handleSend`: nothing without a recorder. Otherwise the recorder
     * stops; if it was recording, its stop handler stops the timer, sends
     * the chunks and hands back the transcribed text, or `''` when there
     * is none or the request failed.
     */
    method Send(transcribed: Option<string>)
      requires Valid()
      modifies this
      ensures Valid() && hasRecorder == old(hasRecorder) && chunks == old(chunks) && timer == old(timer)
      ensures cancelCalls == old(cancelCalls) && recorderState == Inactive
      ensures !(old(hasRecorder) && old(recorderState) == Recording) ==>
        ticking == old(ticking) && uploads == old(uploads) && transcriptions == old(transcriptions)
      ensures old(hasRecorder) && old(recorderState) == Recording ==>
        !ticking && uploads == old(uploads) + [chunks]
        && transcriptions == old(transcriptions) + [transcribed.GetOr("")]
    {
      if !hasRecorder {
        return;
      }
      if recorderState == Recording {
        recorderState := Inactive;
        ticking := false;
        uploads := uploads + [chunks];
        transcriptions := transcriptions + [transcribed.GetOr("")];
      }
    }

    /** `handleCancel`: the timer stops, a running recorder stops without sending, and `onCancel` is always called. */
    method Cancel()
      requires Valid()
      modifies this
      ensures Valid() && !ticking && recorderState == Inactive && cancelCalls == old(cancelCalls) + 1
      ensures hasRecorder == old(hasRecorder) && chunks == old(chunks) && timer == old(timer)
      ensures uploads == old(uploads) && transcriptions == old(transcriptions)
    {
      ticking := false;
      recorderState := Inactive;
      cancelCalls := cancelCalls + 1;
    }

    /** Unmounting: as cancelling, but without calling `onCancel`. */
    method Unmount()
      requires Valid()
      modifies this
      ensures Valid() && !ticking && recorderState == Inactive && cancelCalls == old(cancelCalls)
      ensures hasRecorder == old(hasRecorder) && chunks == old(chunks) && timer == old(timer)
      ensures uploads == old(uploads) && transcriptions == old(transcriptions)
    {
      ticking := false;
      recorderState := Inactive;
    }
  }

  /** A recording that is sent, sent again and then cancelled is transcribed once and cancels once. */
  method SendTwiceThenCancel(sizes: seq<nat>, text: Option<string>) returns (v: VoiceRecorder)
    ensures |v.uploads| == 1 && forall i :: 0 <= i < |v.uploads[0]| ==> v.uploads[0][i] > 0
    ensures v.transcriptions == [text.GetOr("")] && v.cancelCalls == 1
  {
    v := new VoiceRecorder(true);
    var i := 0;
    while i < |sizes|
      invariant 0 <= i <= |sizes|
      invariant v.Valid() && v.hasRecorder && v.recorderState == Recording
      invariant v.uploads == [] && v.transcriptions == [] && v.cancelCalls == 0
      modifies v
    {
      v.DataAvailable(sizes[i]);
      i := i + 1;
    }
    v.Send(text);
    v.Send(None);
    v.Cancel();
  }
}
