/**
 * The persisted one-time password: the hash of the code, an attempt counter
 * and an expiry. The SHA-256 digest is an uninterpreted deterministic
 * function `hash` supplied by the caller.
 */
module OtpModel {
  import opened Common

  datatype OtpRecord = OtpRecord(
    id: ObjectId,
    phone: string,
    otpHash: string,
    attempts: nat,
    expiresAt: Millis,
    createdAt: Millis)

  /** `Otp.hashOtp(code)`. */
  function HashOtp(hash: string -> string, code: string): string {
    hash(code)
  }

  /** `record.verifyOtp(code)`: the code's hash equals the stored one. */
  predicate VerifyOtp(r: OtpRecord, hash: string -> string, code: string) {
    r.otpHash == HashOtp(hash, code)
  }

  /**
   * `Otp.create(...)`: phone, hash and expiry are required (an empty string
   * fails `required`); attempts start at 0 and `createdAt` is the creation time.
   */
  function CreateOtp(id: ObjectId, phone: string, otpHash: string, expiresAt: Option<Millis>,
                     now: Millis): (r: Option<OtpRecord>)
    ensures r.Some? <==> phone != "" && otpHash != "" && expiresAt.Some?
    ensures r.Some? ==>
      (r.value.id == id && r.value.phone == phone && r.value.otpHash == otpHash
       && r.value.attempts == 0 && r.value.expiresAt == expiresAt.value && r.value.createdAt == now)
  {
    if phone == "" || otpHash == "" || expiresAt.None? then None
    else Some(OtpRecord(id, phone, otpHash, 0, expiresAt.value, now))
  }

  /**
   * A record created from `hashOtp(code)` accepts `code`; when the hash
   * separates `code` from `other`, it accepts `other` only if it is `code`.
   */
  lemma CreatedRecordVerifies(hash: string -> string, id: ObjectId, phone: string, code: string,
                              other: string, expiresAt: Millis, now: Millis)
    requires CreateOtp(id, phone, HashOtp(hash, code), Some(expiresAt), now).Some?
    ensures VerifyOtp(CreateOtp(id, phone, HashOtp(hash, code), Some(expiresAt), now).value, hash, code)
    ensures (hash(other) == hash(code) ==> other == code) ==>
      (VerifyOtp(CreateOtp(id, phone, HashOtp(hash, code), Some(expiresAt), now).value, hash, other)
       <==> other == code)
  {
  }
}
