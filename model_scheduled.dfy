/** The persisted scheduled-message entry and its status enumeration. */
module ScheduledModel {
  import opened Common

  datatype ScheduledStatus = Pending | Sent | Failed | Cancelled

  function ScheduledStatusName(s: ScheduledStatus): string {
    match s
    case Pending => "pending"
    case Sent => "sent"
    case Failed => "failed"
    case Cancelled => "cancelled"
  }

  function ParseScheduledStatus(s: string): (r: Option<ScheduledStatus>)
    ensures r.Some? <==> s in ["pending", "sent", "failed", "cancelled"]
    ensures r.Some? ==> ScheduledStatusName(r.value) == s
  {
    if s == "pending" then Some(Pending)
    else if s == "sent" then Some(Sent)
    else if s == "failed" then Some(Failed)
    else if s == "cancelled" then Some(Cancelled)
    else None
  }

  lemma ScheduledStatusRoundTrip(st: ScheduledStatus)
    ensures ParseScheduledStatus(ScheduledStatusName(st)) == Some(st)
  {
  }

  datatype ScheduledEntry = ScheduledEntry(
    id: ObjectId,
    sender: ObjectId,
    chat: ObjectId,
    content: string,
    scheduledTime: Millis,
    status: ScheduledStatus,
    createdAt: Millis,
    updatedAt: Millis)

  /**
   * `ScheduledMessage.create(...)`: sender, chat, content and time are
   * required (an empty string fails `required`); the status starts
   * `pending` and both timestamps are the creation time.
   */
  function CreateEntry(id: ObjectId, sender: Option<ObjectId>, chat: Option<ObjectId>,
                       content: string, scheduledTime: Option<Millis>, now: Millis): (r: Option<ScheduledEntry>)
    ensures r.Some? <==> sender.Some? && chat.Some? && content != [] && scheduledTime.Some?
    ensures r.Some? ==>
      (r.value.id == id && r.value.sender == sender.value && r.value.chat == chat.value
       && r.value.content == content && r.value.scheduledTime == scheduledTime.value
       && r.value.status == Pending && r.value.createdAt == now && r.value.updatedAt == now)
  {
    if sender.None? || chat.None? || content == [] || scheduledTime.None? then None
    else Some(ScheduledEntry(id, sender.value, chat.value, content, scheduledTime.value, Pending, now, now))
  }

  /**
   * `doc.status = s; doc.save()` where `s` differs from the status the
   * document holds in memory, so the save writes: the status is replaced
   * and `updatedAt` stamped; nothing else changes.
   */
  function WithStatus(e: ScheduledEntry, s: ScheduledStatus, now: Millis): (r: ScheduledEntry)
    ensures r.status == s && r.updatedAt == now
    ensures r.(status := e.status, updatedAt := e.updatedAt) == e
  {
    e.(status := s, updatedAt := now)
  }

  /**
   * `doc.status = s; doc.save()` on a document just loaded from the store.
   * Assigning the status it already has marks nothing modified, so the
   * save writes nothing and `timestamps` leaves `updatedAt` alone; any
   * other status is written as `WithStatus` says.
   */
  function AssignStatus(e: ScheduledEntry, s: ScheduledStatus, now: Millis): (r: ScheduledEntry)
    ensures r.status == s
    ensures e.status == s ==> r == e
    ensures e.status != s ==> r.updatedAt == now && r.(status := e.status, updatedAt := e.updatedAt) == e
  {
    if e.status == s then e else WithStatus(e, s, now)
  }

  /** Assigning the same status again, at any later time, changes nothing. */
  lemma AssignStatusTwice(e: ScheduledEntry, s: ScheduledStatus, now: Millis, later: Millis)
    ensures AssignStatus(AssignStatus(e, s, now), s, later) == AssignStatus(e, s, now)
  {
  }
}
