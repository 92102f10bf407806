/**
 * The sign-in page: a phone step that requests a one-time code, then six
 * one-digit boxes that submit the code by themselves once full, or at
 * once when six digits are pasted, with a 30-second resend cooldown.
 *
 * The auth calls are their replies, parameters of the handlers; the calls
 * made are recorded in `requests`. Keyboard focus moves and the loading
 * spinner are left out.
 */
module LoginPage {
  import opened Common
  import opened Text

  datatype Step = PhoneStep | OtpStep

  datatype Request = SendOtpReq(phone: string) | VerifyOtpReq(phone: string, code: string) | ResendOtpReq(phone: string)

  const Slots: nat := 6
  const CooldownSeconds: nat := 30
  const MinPhoneLength: nat := 10
  /** The phone box's `maxLength`. */
  const PhoneMaxLength: nat := 15
  const EmptyOtp: seq<string> := ["", "", "", "", "", ""]

  const InvalidPhone: string := "Enter a valid phone number (at least 10 digits)"
  const SendFailed: string := "Failed to send OTP"
  const InvalidOtp: string := "Invalid OTP"
  const ResendFailed: string := "Failed to resend"

  /**
   * The phone box: at most its `maxLength` characters typed, of which
   * digits and '+' are kept. The result is the start of what the filter
   * keeps of the whole text; characters typed past the limit never arrive.
   */
  function PhoneInput(raw: string): (r: string)
    ensures |r| <= PhoneMaxLength
    ensures forall i :: 0 <= i < |r| ==> IsDigit(r[i]) || r[i] == '+'
    ensures |raw| <= PhoneMaxLength ==> r == DigitsAndPlusOf(raw)
    ensures |r| <= |DigitsAndPlusOf(raw)| && r == DigitsAndPlusOf(raw)[..|r|]
    ensures |raw| > PhoneMaxLength ==> DigitsAndPlusOf(raw) == r + DigitsAndPlusOf(raw[PhoneMaxLength..])
  {
    if |raw| <= PhoneMaxLength then DigitsAndPlusOf(raw)
    else
      assert raw == raw[..PhoneMaxLength] + raw[PhoneMaxLength..];
      DigitsAndPlusOfConcat(raw[..PhoneMaxLength], raw[PhoneMaxLength..]);
      DigitsAndPlusOf(raw[..PhoneMaxLength])
  }

  /** Re-running the box's filter on what it shows changes nothing. */
  lemma PhoneInputIdempotent(raw: string)
    ensures PhoneInput(PhoneInput(raw)) == PhoneInput(raw)
  {
    DigitsAndPlusOfKeepsClean(PhoneInput(raw));
  }

  /** What an OTP box accepts: nothing, or one digit (`/^\d$/`). */
  predicate SlotValue(v: string) {
    v == "" || (|v| == 1 && IsDigit(v[0]))
  }

  predicate Filled(otp: seq<string>) {
    forall k :: 0 <= k < |otp| ==> otp[k] != ""
  }

  /** Filled boxes join to a code of one digit per box. */
  lemma {:induction false} FilledCode(otp: seq<string>)
    requires forall k :: 0 <= k < |otp| ==> SlotValue(otp[k]) && otp[k] != ""
    ensures |Concat(otp)| == |otp| && AllDigits(Concat(otp))
  {
    if otp != [] {
      FilledCode(otp[1..]);
      assert Concat(otp) == otp[0] + Concat(otp[1..]);
    }
  }

  /** `code.split('')`: one box per character. */
  function Chars(s: string): (r: seq<string>)
    ensures |r| == |s| && forall k :: 0 <= k < |s| ==> r[k] == [s[k]]
  {
    seq(|s|, k requires 0 <= k < |s| => [s[k]])
  }

  /** Splitting a code into boxes and joining them gives the code back. */
  lemma {:induction false} ConcatChars(s: string)
    ensures Concat(Chars(s)) == s
  {
    if s != [] {
      assert Chars(s)[1..] == Chars(s[1..]);
      ConcatChars(s[1..]);
    }
  }

  /** The pasted text's digits, at most the first six. */
  function Pasted(text: string): (r: string)
    ensures AllDigits(r) && |r| <= Slots
    ensures |r| == Slots <==> |DigitsOf(text)| >= Slots
    ensures |r| <= |DigitsOf(text)| && r == DigitsOf(text)[..|r|]
  {
    var d := DigitsOf(text);
    if |d| <= Slots then d else d[..Slots]
  }

  /** The resend button: its countdown while cooling down. */
  function ResendLabel(cooldown: nat): (r: string)
    ensures cooldown == 0 ==> r == "Resend OTP"
    ensures cooldown > 0 ==> r == "Resend in " + NatToString(cooldown) + "s"
  {
    if cooldown > 0 then "Resend in " + NatToString(cooldown) + "s" else "Resend OTP"
  }

  /** The label tells the two states apart, and the countdown's digits read back as the seconds left. */
  lemma ResendLabelReadsBack(cooldown: nat)
    ensures ResendLabel(cooldown) == "Resend OTP" <==> cooldown == 0
    ensures cooldown > 0 ==>
      var r := ResendLabel(cooldown);
      StartsWith(r, "Resend in ") && r[|r| - 1] == 's'
      && AllDigits(r[10..|r| - 1]) && ParseNat(r[10..|r| - 1]) == cooldown
  {
    if cooldown > 0 {
      var r := ResendLabel(cooldown);
      var d := NatToString(cooldown);
      assert r[10..|r| - 1] == d;
      assert r[7] == 'i' != "Resend OTP"[7];
      ParseNatToString(cooldown);
    }
  }

  class LoginForm {
    var phone: string
    var otp: seq<string>
    var step: Step
    var error: string
    var cooldown: nat
    /** Every auth call made, oldest first. */
    var requests: seq<Request>

    ghost predicate Valid()
      reads this
    {
      |otp| == Slots && forall k :: 0 <= k < |otp| ==> SlotValue(otp[k])
    }

    constructor ()
      ensures Valid() && phone == "" && otp == EmptyOtp && step == PhoneStep && error == ""
      ensures cooldown == 0 && requests == []
    {
      phone, otp, step, error, cooldown, requests := "", EmptyOtp, PhoneStep, "", 0, [];
    }

    method PhoneChanged(raw: string)
      requires Valid()
      modifies this
      ensures Valid() && phone == PhoneInput(raw)
      ensures otp == old(otp) && step == old(step) && error == old(error)
      ensures cooldown == old(cooldown) && requests == old(requests)
    {
      phone := PhoneInput(raw);
    }

    /**
     * `handleSendOtp`: a phone shorter than ten characters is refused with
     * no request; otherwise the code is requested and, once sent, the OTP
     * step opens with the cooldown at 30.
     */
    method SendOtp(reply: ApiReply)
      requires Valid()
      modifies this
      ensures Valid() && phone == old(phone) && otp == old(otp)
      ensures |phone| < MinPhoneLength ==>
        error == InvalidPhone && step == old(step) && cooldown == old(cooldown) && requests == old(requests)
      ensures |phone| >= MinPhoneLength ==>
        requests == old(requests) + [SendOtpReq(phone)]
        && (reply.Resolved? ==> step == OtpStep && cooldown == CooldownSeconds && error == "")
        && (reply.Refused? ==> step == old(step) && cooldown == old(cooldown) && error == ErrorText(reply, SendFailed))
    {
      if |phone| < MinPhoneLength {
        error := InvalidPhone;
        return;
      }
      error := "";
      requests := requests + [SendOtpReq(phone)];
      if reply.Resolved? {
        step, cooldown := OtpStep, CooldownSeconds;
      } else {
        error := ErrorText(reply, SendFailed);
      }
    }

    /** `handleVerify`: the code is checked; a refusal shows its error and empties every box. */
    method Verify(code: string, reply: ApiReply)
      requires Valid()
      modifies this
      ensures Valid() && phone == old(phone) && step == old(step) && cooldown == old(cooldown)
      ensures requests == old(requests) + [VerifyOtpReq(phone, code)]
      ensures reply.Resolved? ==> otp == old(otp) && error == ""
      ensures reply.Refused? ==> otp == EmptyOtp && error == ErrorText(reply, InvalidOtp)
    {
      requests := requests + [VerifyOtpReq(phone, code)];
      error := "";
      if reply.Refused? {
        error := ErrorText(reply, InvalidOtp);
        otp := EmptyOtp;
      }
    }

    /**
     * `handleOtpChange`: anything but nothing or one digit is ignored;
     * otherwise only box `idx` changes, and a digit that fills the last
     * empty box submits the six digits.
     */
    method OtpChanged(idx: nat, value: string, reply: ApiReply)
      requires Valid() && idx < Slots
      modifies this
      ensures Valid() && phone == old(phone) && step == old(step) && cooldown == old(cooldown)
      ensures !SlotValue(value) ==> otp == old(otp) && error == old(error) && requests == old(requests)
      ensures SlotValue(value) && !(value != "" && Filled(old(otp)[idx := value])) ==>
        otp == old(otp)[idx := value] && error == old(error) && requests == old(requests)
      ensures SlotValue(value) && value != "" && Filled(old(otp)[idx := value]) ==>
        var code := Concat(old(otp)[idx := value]);
        |code| == Slots && AllDigits(code)
        && requests == old(requests) + [VerifyOtpReq(phone, code)]
        && (reply.Resolved? ==> otp == old(otp)[idx := value] && error == "")
        && (reply.Refused? ==> otp == EmptyOtp && error == ErrorText(reply, InvalidOtp))
    {
      if !SlotValue(value) {
        return;
      }
      otp := otp[idx := value];
      if Filled(otp) && value != "" {
        FilledCode(otp);
        Verify(Concat(otp), reply);
      }
    }

    /** `handleOtpPaste`: the first six digits of the text fill the boxes and are submitted; fewer do nothing. */
    method Paste(text: string, reply: ApiReply)
      requires Valid()
      modifies this
      ensures Valid() && phone == old(phone) && step == old(step) && cooldown == old(cooldown)
      ensures |Pasted(text)| < Slots ==> otp == old(otp) && error == old(error) && requests == old(requests)
      ensures |Pasted(text)| == Slots ==>
        requests == old(requests) + [VerifyOtpReq(phone, Pasted(text))]
        && (reply.Resolved? ==> otp == Chars(Pasted(text)) && Concat(otp) == Pasted(text) && error == "")
        && (reply.Refused? ==> otp == EmptyOtp && error == ErrorText(reply, InvalidOtp))
    {
      var code := Pasted(text);
      if |code| == Slots {
        otp := Chars(code);
        ConcatChars(code);
        Verify(code, reply);
      }
    }

    /** `handleResend`: ignored while cooling down; otherwise a new code is requested and the cooldown restarts. */
    method Resend(reply: ApiReply)
      requires Valid()
      modifies this
      ensures Valid() && phone == old(phone) && otp == old(otp) && step == old(step)
      ensures old(cooldown) > 0 ==> cooldown == old(cooldown) && error == old(error) && requests == old(requests)
      ensures old(cooldown) == 0 ==>
        requests == old(requests) + [ResendOtpReq(phone)]
        && (reply.Resolved? ==> cooldown == CooldownSeconds && error == "")
        && (reply.Refused? ==> cooldown == 0 && error == ErrorText(reply, ResendFailed))
    {
      if cooldown > 0 {
        return;
      }
      error := "";
      requests := requests + [ResendOtpReq(phone)];
      if reply.Resolved? {
        cooldown := CooldownSeconds;
      } else {
        error := ErrorText(reply, ResendFailed);
      }
    }

    /** The cooldown effect's timeout: one second less, scheduled only while above 0. */
    method CooldownTick()
      requires Valid() && cooldown > 0
      modifies this
      ensures Valid() && cooldown == old(cooldown) - 1
      ensures phone == old(phone) && otp == old(otp) && step == old(step) && error == old(error)
      ensures requests == old(requests)
    {
      cooldown := cooldown - 1;
    }

    /** "Change number": back to the phone step with empty boxes and no error. */
    method ChangeNumber()
      requires Valid()
      modifies this
      ensures Valid() && step == PhoneStep && otp == EmptyOtp && error == ""
      ensures phone == old(phone) && cooldown == old(cooldown) && requests == old(requests)
    {
      step, otp, error := PhoneStep, EmptyOtp, "";
    }
  }
}
