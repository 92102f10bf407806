/**
 * The persisted call-log entry: its type and status enumerations, their
 * string forms as stored, and creation with the schema's defaults.
 */
module CallModel {
  import opened Common

  datatype CallType = Voice | Video
  datatype CallStatus = Missed | Answered | Rejected | Ended

  function CallTypeName(t: CallType): string {
    match t
    case Voice => "voice"
    case Video => "video"
  }

  /** Enum validation of the `type` field: only "voice" and "video" are accepted. */
  function ParseCallType(s: string): (r: Option<CallType>)
    ensures r.Some? <==> (s == "voice" || s == "video")
  {
    if s == "voice" then Some(Voice) else if s == "video" then Some(Video) else None
  }

  function CallStatusName(st: CallStatus): string {
    match st
    case Missed => "missed"
    case Answered => "answered"
    case Rejected => "rejected"
    case Ended => "ended"
  }

  function ParseCallStatus(s: string): (r: Option<CallStatus>)
    ensures r.Some? <==> s in ["missed", "answered", "rejected", "ended"]
  {
    if s == "missed" then Some(Missed)
    else if s == "answered" then Some(Answered)
    else if s == "rejected" then Some(Rejected)
    else if s == "ended" then Some(Ended)
    else None
  }

  /** The stored names and the parsers are inverse to each other. */
  lemma CallEnumsRoundTrip(t: CallType, st: CallStatus, s: string)
    ensures ParseCallType(CallTypeName(t)) == Some(t)
    ensures ParseCallStatus(CallStatusName(st)) == Some(st)
    ensures ParseCallType(s) == Some(t) ==> s == CallTypeName(t)
    ensures ParseCallStatus(s) == Some(st) ==> s == CallStatusName(st)
  {
  }

  datatype CallRecord = CallRecord(
    id: ObjectId,
    caller: ObjectId,
    receiver: ObjectId,
    callType: CallType,
    status: CallStatus,
    startedAt: Option<Millis>,
    endedAt: Option<Millis>,
    duration: int)  // seconds

  /**
   * `Call.create(...)`: caller, receiver and type are required and the type
   * must be one of the enumeration's names; the status is the one given, or
   * `missed` when none is; start and end are unset and the duration is 0.
   */
  function CreateCall(id: ObjectId, caller: Option<ObjectId>, receiver: Option<ObjectId>,
                      typeName: Option<string>, statusName: Option<string>): (r: Option<CallRecord>)
    ensures r.Some? <==>
      (caller.Some? && receiver.Some? && typeName.Some? && ParseCallType(typeName.value).Some?
       && (statusName.None? || ParseCallStatus(statusName.value).Some?))
    ensures r.Some? ==>
      (r.value.id == id && r.value.caller == caller.value && r.value.receiver == receiver.value
       && CallTypeName(r.value.callType) == typeName.value
       && r.value.status == (if statusName.None? then Missed else ParseCallStatus(statusName.value).value)
       && r.value.startedAt.None? && r.value.endedAt.None? && r.value.duration == 0)
  {
    if caller.None? || receiver.None? || typeName.None? then None
    else match ParseCallType(typeName.value)
      case None => None
      case Some(t) =>
        var st := if statusName.None? then Some(Missed) else ParseCallStatus(statusName.value);
        if st.None? then None
        else Some(CallRecord(id, caller.value, receiver.value, t, st.value, None, None, 0))
  }
}
