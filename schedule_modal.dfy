/**
 * The schedule-message dialog of the open chat: a text and a time, posted
 * to `POST /message/schedule`, the dialog closing 1.5 seconds after a
 * success.
 *
 * The chosen time is the instant the `datetime-local` value denotes;
 * converting the local value to an ISO string and formatting the picker's
 * minimum are left out. The request's outcome is a parameter, and the
 * close timeout is counted as armed.
 */
module ScheduleModal {
  import opened Common
  import opened Text

  /** The body of `POST /message/schedule`. */
  datatype ScheduleRequest = ScheduleRequest(chatId: ObjectId, content: string, scheduledTime: Millis)

  const MissingFields: string := "Please fill in all fields"
  const ScheduleFailed: string := "Failed to schedule message"
  const Scheduled: string := "Message scheduled successfully! \U{2705}"
  /** How long after a success the dialog closes. */
  const CloseDelay: Millis := 1500

  class ScheduleForm {
    /** `selectedChat._id`: the dialog opens from an open chat. */
    const chatId: ObjectId
    var content: string
    var scheduledTime: Option<Millis>
    var success: string
    var error: string
    /** Every request posted, oldest first. */
    var requests: seq<ScheduleRequest>
    /** How many close timeouts were armed. */
    var closeTimers: nat

    constructor (chatId: ObjectId)
      ensures this.chatId == chatId && content == "" && scheduledTime.None? && success == "" && error == ""
      ensures requests == [] && closeTimers == 0
    {
      this.chatId := chatId;
      content, scheduledTime, success, error := "", None, "", "";
      requests, closeTimers := [], 0;
    }

    method ContentChanged(text: string)
      modifies this
      ensures content == text && scheduledTime == old(scheduledTime) && success == old(success)
      ensures error == old(error) && requests == old(requests) && closeTimers == old(closeTimers)
    {
      content := text;
    }

    method TimeChanged(t: Option<Millis>)
      modifies this
      ensures scheduledTime == t && content == old(content) && success == old(success)
      ensures error == old(error) && requests == old(requests) && closeTimers == old(closeTimers)
    {
      scheduledTime := t;
    }

    /**
     * `handleSubmit`: a blank text or no time is refused with no request.
     * Otherwise the trimmed text is posted for this chat; a success shows
     * its notice, empties both fields and arms the close, so a second
     * press is refused; a failure shows the server's message or a fallback.
     */
    method Submit(reply: ApiReply)
      modifies this
      ensures Trim(old(content)) == "" || old(scheduledTime).None? ==>
        error == MissingFields && content == old(content) && scheduledTime == old(scheduledTime)
        && success == old(success) && requests == old(requests) && closeTimers == old(closeTimers)
      ensures Trim(old(content)) != "" && old(scheduledTime).Some? ==>
        requests == old(requests) + [ScheduleRequest(chatId, Trim(old(content)), old(scheduledTime).value)]
      ensures Trim(old(content)) != "" && old(scheduledTime).Some? && reply.Resolved? ==>
        error == "" && success == Scheduled && content == "" && scheduledTime.None?
        && closeTimers == old(closeTimers) + 1
      ensures Trim(old(content)) != "" && old(scheduledTime).Some? && reply.Refused? ==>
        error == ErrorText(reply, ScheduleFailed) && success == old(success)
        && content == old(content) && scheduledTime == old(scheduledTime) && closeTimers == old(closeTimers)
    {
      if Trim(content) == "" || scheduledTime.None? {
        error := MissingFields;
        return;
      }
      error := "";
      requests := requests + [ScheduleRequest(chatId, Trim(content), scheduledTime.value)];
      if reply.Resolved? {
        success := Scheduled;
        content, scheduledTime := "", None;
        closeTimers := closeTimers + 1;
      } else {
        error := ErrorText(reply, ScheduleFailed);
      }
    }
  }

  /** After a successful submission, pressing the button again sends nothing. */
  method SubmitTwice(chatId: ObjectId, text: string, at: Millis, second: ApiReply) returns (f: ScheduleForm)
    requires Trim(text) != ""
    ensures |f.requests| == 1 && f.requests[0] == ScheduleRequest(chatId, Trim(text), at)
    ensures f.error == MissingFields && f.success == Scheduled
  {
    f := new ScheduleForm(chatId);
    f.ContentChanged(text);
    f.TimeChanged(Some(at));
    f.Submit(Resolved);
    f.Submit(second);
  }
}
