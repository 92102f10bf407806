/**
 * Delivery of scheduled messages: the `scheduledJobs` table, the timer
 * callback that turns an entry into a chat message, the schedule and
 * cancel routes, and recovery of pending entries after a restart.
 *
 * Time is an integer clock; a timer going off is the explicit `Fire`
 * step, and the step of the callback that throws, if any, is a `Fault`.
 * Each timer holds the entry document its callback captured when it was
 * armed; saving that document writes only the fields the callback
 * assigned (`status`, and the `updatedAt` stamp).
 */
module Scheduler {
  import opened Common
  import opened ScheduledModel
  import opened MessageModel
  import opened ChatModel

  /** Where the fire callback throws: message creation, the chat update, the `sent` save, or delivery. */
  datatype Fault = NoFault | CreateFails | ChatUpdateFails | SentSaveFails | DeliveryFails

  datatype SchedEvent =
    | NewMessageEv(messageId: ObjectId)
    | ScheduledSent(scheduledId: ObjectId, messageId: ObjectId)

  /** `io.to(room).emit(...)`. */
  datatype Emission = Emission(room: ObjectId, event: SchedEvent)

  /** The outcome of an HTTP route: the status code and, on 201, the created entry. */
  datatype Reply = Reply(code: nat, entry: Option<ScheduledEntry>)

  /** The message the callback creates: a text message from the entry's sender, read by the sender. */
  function MessageFromEntry(e: ScheduledEntry, mid: ObjectId, now: Millis): (m: Message)
    ensures m.id == mid && m.sender == e.sender && m.chat == e.chat && m.content == e.content
    ensures m.msgType == TextMsg && m.readBy == [e.sender] && m.reactions == []
    ensures m.fileUrl == "" && m.fileName == "" && m.fileSize == 0 && !m.isDelivered && !m.isDeleted
  {
    var input := MessageInput(Some(e.sender), Some(e.chat), Some(e.content), Some("text"), None, None, None, [e.sender]);
    assert ParseMessageType("text") == Some(TextMsg);
    CreateMessage(mid, input, now).value
  }

  /** `chat.participants.forEach(p => io.to(p).emit('new-message', message))`. */
  function FanOut(parts: seq<ObjectId>, mid: ObjectId): (r: seq<Emission>)
    ensures |r| == |parts|
  {
    if parts == [] then [] else FanOut(parts[..|parts| - 1], mid) + [Emission(parts[|parts| - 1], NewMessageEv(mid))]
  }

  /** The fan-out reaches every participant, the sender included when they are one, once per occurrence, in order. */
  lemma {:induction false} FanOutReachesEveryone(parts: seq<ObjectId>, mid: ObjectId)
    ensures forall k :: 0 <= k < |parts| ==> FanOut(parts, mid)[k] == Emission(parts[k], NewMessageEv(mid))
  {
    if parts != [] {
      FanOutReachesEveryone(parts[..|parts| - 1], mid);
    }
  }

  /** The entries `initScheduler` re-arms: pending and due strictly after `now`. */
  predicate Recoverable(e: ScheduledEntry, now: Millis) {
    e.status == Pending && e.scheduledTime > now
  }

  /** The ids of the entries among the first `n` that `initScheduler` re-arms. */
  function RecoverableIds(store: seq<ScheduledEntry>, n: nat, now: Millis): (r: set<ObjectId>)
    requires n <= |store|
    ensures forall id: ObjectId :: id in r <==> id < n && Recoverable(store[id], now)
  {
    if n == 0 then {}
    else RecoverableIds(store, n - 1, now) + (if Recoverable(store[n - 1], now) then {n - 1} else {})
  }

  /** The same scheduled message: everything but the status and its stamp agrees. */
  predicate SameEntry(a: ScheduledEntry, b: ScheduledEntry) {
    a.id == b.id && a.sender == b.sender && a.chat == b.chat && a.content == b.content
    && a.scheduledTime == b.scheduledTime
  }

  class Delivery {
    /** The ScheduledMessage collection; entry `i` has id `i`. */
    var store: seq<ScheduledEntry>
    /** Armed node-schedule timers, each with the document its callback captured. */
    var timers: map<ObjectId, ScheduledEntry>
    /** The keys of `scheduledJobs`. */
    var jobs: set<ObjectId>
    var messages: map<ObjectId, Message>
    var nextMessageId: ObjectId
    var chats: map<ObjectId, Chat>
    var outbox: seq<Emission>

    ghost predicate Valid()
      reads this
    {
      (forall i :: 0 <= i < |store| ==> store[i].id == i)
      && (forall id :: id in timers ==> id < |store| && SameEntry(timers[id], store[id]))
      && timers.Keys <= jobs
      && (forall id :: id in messages ==> id < nextMessageId)
    }

    constructor (initialChats: map<ObjectId, Chat>)
      ensures Valid()
      ensures store == [] && timers == map[] && jobs == {} && messages == map[] && nextMessageId == 0
      ensures chats == initialChats && outbox == []
    {
      store, timers, jobs, messages, nextMessageId := [], map[], {}, map[], 0;
      chats, outbox := initialChats, [];
    }

    /**
     * `scheduleMessage`: a job is recorded under the entry's id exactly
     * when the timer library returned one (`timerOk`).
     */
    method Arm(e: ScheduledEntry, timerOk: bool)
      requires Valid() && e.id < |store| && SameEntry(e, store[e.id])
      modifies this
      ensures Valid()
      ensures timers == (if timerOk then old(timers)[e.id := e] else old(timers))
      ensures jobs == (if timerOk then old(jobs) + {e.id} else old(jobs))
      ensures store == old(store) && messages == old(messages) && nextMessageId == old(nextMessageId)
      ensures chats == old(chats) && outbox == old(outbox)
    {
      if timerOk {
        timers := timers[e.id := e];
        jobs := jobs + {e.id};
      }
    }

    /**
     * `POST /schedule`: 400 when the chat, the content or the time is
     * missing, 400 when the time is not after now, 500 when the store
     * fails; otherwise a `pending` entry is stored, armed, and returned
     * with 201.
     */
    method Schedule(me: ObjectId, chatId: Option<ObjectId>, content: string, scheduledTime: Option<Millis>,
                    now: Millis, dbOk: bool, timerOk: bool) returns (reply: Reply)
      requires Valid()
      modifies this
      ensures Valid()
      ensures chatId.None? || content == "" || scheduledTime.None? ==> reply == Reply(400, None)
      ensures chatId.Some? && content != "" && scheduledTime.Some? && scheduledTime.value <= now ==> reply == Reply(400, None)
      ensures reply.code != 201 ==>
        store == old(store) && timers == old(timers) && jobs == old(jobs)
      ensures reply.code == 201 <==>
        chatId.Some? && content != "" && scheduledTime.Some? && scheduledTime.value > now && dbOk
      ensures reply.code == 201 ==>
        var e := ScheduledEntry(|old(store)|, me, chatId.value, content, scheduledTime.value, Pending, now, now);
        reply.entry == Some(e) && store == old(store) + [e]
        && timers == (if timerOk then old(timers)[e.id := e] else old(timers))
        && jobs == (if timerOk then old(jobs) + {e.id} else old(jobs))
      ensures reply.code in {201, 400, 500}
      ensures messages == old(messages) && nextMessageId == old(nextMessageId)
      ensures chats == old(chats) && outbox == old(outbox)
    {
      if chatId.None? || content == "" || scheduledTime.None? {
        return Reply(400, None);
      }
      if scheduledTime.value <= now {
        return Reply(400, None);
      }
      if !dbOk {
        return Reply(500, None);
      }
      var e := CreateEntry(|store|, Some(me), chatId, content, scheduledTime, now).value;
      store := store + [e];
      Arm(e, timerOk);
      reply := Reply(201, Some(e));
    }

    /**
     * `DELETE /scheduled/:id`: 404 for an unknown entry, 403 when the
     * requester is not its sender; otherwise the status becomes
     * `cancelled`, whatever it was, and `updatedAt` moves only when the
     * status actually changed. The armed timer is left in place.
     */
    method Cancel(me: ObjectId, id: ObjectId, now: Millis, dbOk: bool) returns (code: nat)
      requires Valid()
      modifies this
      ensures Valid()
      ensures id >= |old(store)| ==> code == 404
      ensures id < |old(store)| && old(store)[id].sender != me ==> code == 403
      ensures code == 200 <==> id < |old(store)| && old(store)[id].sender == me && dbOk
      ensures code == 200 ==> store == old(store)[id := AssignStatus(old(store)[id], Cancelled, now)]
      ensures code == 200 && old(store)[id].status == Cancelled ==> store == old(store)
      ensures code != 200 ==> store == old(store)
      ensures timers == old(timers) && jobs == old(jobs)
      ensures messages == old(messages) && nextMessageId == old(nextMessageId)
      ensures chats == old(chats) && outbox == old(outbox)
    {
      if id >= |store| {
        return 404;
      }
      if store[id].sender != me {
        return 403;
      }
      if !dbOk {
        return 500;
      }
      store := store[id := AssignStatus(store[id], Cancelled, now)];
      code := 200;
    }

    /**
     * The cancel route as evidently intended: as `Cancel`, and on success
     * the timer is disarmed and its job dropped, so the entry never fires.
     */
    method CancelDisarming(me: ObjectId, id: ObjectId, now: Millis, dbOk: bool) returns (code: nat)
      requires Valid()
      modifies this
      ensures Valid()
      ensures code == 200 <==> id < |old(store)| && old(store)[id].sender == me && dbOk
      ensures code == 200 ==>
        store == old(store)[id := AssignStatus(old(store)[id], Cancelled, now)]
        && timers == old(timers) - {id} && jobs == old(jobs) - {id} && id !in timers
      ensures code == 200 && old(store)[id].status == Cancelled ==> store == old(store)
      ensures code != 200 ==> store == old(store) && timers == old(timers) && jobs == old(jobs)
      ensures messages == old(messages) && nextMessageId == old(nextMessageId)
      ensures chats == old(chats) && outbox == old(outbox)
    {
      code := Cancel(me, id, now, dbOk);
      if code == 200 {
        timers := timers - {id};
        jobs := jobs - {id};
      }
    }

    /** Sends `new-message` to each participant's room, in order. */
    method EmitToParticipants(parts: seq<ObjectId>, mid: ObjectId)
      requires Valid()
      modifies this
      ensures Valid()
      ensures outbox == old(outbox) + FanOut(parts, mid)
      ensures store == old(store) && timers == old(timers) && jobs == old(jobs)
      ensures messages == old(messages) && nextMessageId == old(nextMessageId) && chats == old(chats)
    {
      var i := 0;
      while i < |parts|
        invariant 0 <= i <= |parts|
        invariant outbox == old(outbox) + FanOut(parts[..i], mid)
        invariant store == old(store) && timers == old(timers) && jobs == old(jobs)
        invariant messages == old(messages) && nextMessageId == old(nextMessageId) && chats == old(chats)
      {
        assert parts[..i + 1][..i] == parts[..i];
        outbox := outbox + [Emission(parts[i], NewMessageEv(mid))];
        i := i + 1;
      }
      assert parts[..i] == parts;
    }

    /** `Message.create(...)` for the entry: a fresh id, stored. */
    method StoreMessage(e: ScheduledEntry, now: Millis) returns (m: ObjectId)
      requires Valid()
      modifies this
      ensures Valid()
      ensures m == old(nextMessageId) && nextMessageId == m + 1
      ensures messages == old(messages)[m := MessageFromEntry(e, m, now)]
      ensures store == old(store) && timers == old(timers) && jobs == old(jobs)
      ensures chats == old(chats) && outbox == old(outbox)
    {
      m := nextMessageId;
      messages := messages[m := MessageFromEntry(e, m, now)];
      nextMessageId := nextMessageId + 1;
    }

    /** `scheduledMsg.status = st; await scheduledMsg.save()`. */
    method SaveStatus(id: ObjectId, st: ScheduledStatus, now: Millis)
      requires Valid() && id < |store|
      modifies this
      ensures Valid()
      ensures store == old(store)[id := WithStatus(old(store)[id], st, now)]
      ensures timers == old(timers) && jobs == old(jobs) && messages == old(messages)
      ensures nextMessageId == old(nextMessageId) && chats == old(chats) && outbox == old(outbox)
    {
      store := store[id := WithStatus(store[id], st, now)];
    }

    /**
     * The `try` block of the fire callback for captured document `e`:
     *  - it creates the message (unless that throws),
     *  - points the chat's `lastMessage` at it (a missing chat is not an error here),
     *  - saves status `sent` (unless that throws),
     *  - emits `new-message` to every participant of the chat and
     *    `scheduled-message-sent` to the sender (a missing chat throws here).
     * It never looks at the stored status.
     */
    method TryDeliver(id: ObjectId, e: ScheduledEntry, now: Millis, fault: Fault)
      returns (delivered: bool, mid: Option<ObjectId>)
      requires Valid() && id < |store|
      modifies this
      ensures Valid()
      ensures mid.Some? <==> fault != CreateFails
      ensures mid.Some? ==>
        (mid.value == old(nextMessageId) && nextMessageId == old(nextMessageId) + 1
         && messages == old(messages)[mid.value := MessageFromEntry(e, mid.value, now)])
      ensures mid.None? ==> messages == old(messages) && nextMessageId == old(nextMessageId)
      ensures chats == (if mid.Some? && fault != ChatUpdateFails && e.chat in old(chats)
                        then old(chats)[e.chat := WithLastMessage(old(chats)[e.chat], mid.value, now)]
                        else old(chats))
      ensures delivered <==> fault == NoFault && e.chat in old(chats)
      ensures delivered ==>
        outbox == old(outbox) + FanOut(old(chats)[e.chat].participants, mid.value)
                  + [Emission(e.sender, ScheduledSent(id, mid.value))]
      ensures !delivered ==> outbox == old(outbox)
      ensures store == (if fault in {NoFault, DeliveryFails} then old(store)[id := WithStatus(old(store)[id], Sent, now)]
                        else old(store))
      ensures timers == old(timers) && jobs == old(jobs)
    {
      delivered, mid := false, None;
      if fault == CreateFails {
        return;
      }
      var m := StoreMessage(e, now);
      mid := Some(m);
      if fault == ChatUpdateFails {
        return;
      }
      if e.chat in chats {
        var c := WithLastMessage(chats[e.chat], m, now);
        assert c.participants == chats[e.chat].participants;
        chats := chats[e.chat := c];
      }
      delivered := Publish(id, e, m, now, fault);
    }

    /**
     * The rest of the `try` block once the message exists and the chat
     * is updated: status `sent` is saved (unless that throws), then the
     * message goes out to the chat's participants and the sender.
     */
    method Publish(id: ObjectId, e: ScheduledEntry, m: ObjectId, now: Millis, fault: Fault) returns (delivered: bool)
      requires Valid() && id < |store| && fault != CreateFails && fault != ChatUpdateFails
      modifies this
      ensures Valid()
      ensures delivered <==> fault == NoFault && e.chat in chats
      ensures delivered ==>
        outbox == old(outbox) + FanOut(chats[e.chat].participants, m) + [Emission(e.sender, ScheduledSent(id, m))]
      ensures !delivered ==> outbox == old(outbox)
      ensures store == (if fault == SentSaveFails then old(store) else old(store)[id := WithStatus(old(store)[id], Sent, now)])
      ensures timers == old(timers) && jobs == old(jobs) && messages == old(messages)
      ensures nextMessageId == old(nextMessageId) && chats == old(chats)
    {
      delivered := false;
      if fault == SentSaveFails {
        return;
      }
      SaveStatus(id, Sent, now);
      if fault != DeliveryFails && e.chat in chats {
        EmitToParticipants(chats[e.chat].participants, m);
        outbox := outbox + [Emission(e.sender, ScheduledSent(id, m))];
        delivered := true;
      }
    }

    /**
     * The timer of entry `id` goes off and runs the callback on the
     * document it captured (see `TryDeliver`). When a step throws, the
     * status is saved as `failed`, overwriting whatever was stored; when
     * that save throws as well (`catchSaveOk` false) the callback aborts
     * before removing the id from `scheduledJobs`. The timer is spent
     * either way.
     */
    method Fire(id: ObjectId, now: Millis, fault: Fault, catchSaveOk: bool)
      returns (delivered: bool, mid: Option<ObjectId>)
      requires Valid() && id in timers
      modifies this
      ensures Valid()
      ensures timers == old(timers) - {id}
      ensures mid.Some? <==> fault != CreateFails
      ensures mid.Some? ==>
        (mid.value == old(nextMessageId) && nextMessageId == old(nextMessageId) + 1
         && messages == old(messages)[mid.value := MessageFromEntry(old(timers)[id], mid.value, now)])
      ensures mid.None? ==> messages == old(messages) && nextMessageId == old(nextMessageId)
      ensures chats == (if mid.Some? && fault != ChatUpdateFails && old(timers)[id].chat in old(chats)
                        then old(chats)[old(timers)[id].chat := WithLastMessage(old(chats)[old(timers)[id].chat], mid.value, now)]
                        else old(chats))
      ensures delivered <==> fault == NoFault && old(timers)[id].chat in old(chats)
      ensures delivered ==>
        outbox == old(outbox) + FanOut(old(chats)[old(timers)[id].chat].participants, mid.value)
                  + [Emission(old(timers)[id].sender, ScheduledSent(id, mid.value))]
      ensures !delivered ==> outbox == old(outbox)
      ensures store == (if delivered then old(store)[id := WithStatus(old(store)[id], Sent, now)]
                        else if catchSaveOk then old(store)[id := WithStatus(old(store)[id], Failed, now)]
                        else if fault in {NoFault, DeliveryFails} then old(store)[id := WithStatus(old(store)[id], Sent, now)]
                        else old(store))
      ensures jobs == (if delivered || catchSaveOk then old(jobs) - {id} else old(jobs))
    {
      var e := timers[id];
      timers := timers - {id};
      delivered, mid := TryDeliver(id, e, now, fault);
      if !delivered && catchSaveOk {
        SaveStatus(id, Failed, now);
      }
      if delivered || catchSaveOk {
        jobs := jobs - {id};
      }
    }

    /** A process restart: timers and the job table live in memory and are lost; stored documents survive. */
    method Restart()
      requires Valid()
      modifies this
      ensures Valid()
      ensures timers == map[] && jobs == {}
      ensures store == old(store) && messages == old(messages) && nextMessageId == old(nextMessageId)
      ensures chats == old(chats) && outbox == old(outbox)
    {
      timers, jobs := map[], {};
    }

    /**
     * `initScheduler`: arms every stored entry that is `pending` and due
     * strictly after `now`, and no other; a failing query arms nothing.
     */
    method InitScheduler(now: Millis, dbOk: bool)
      requires Valid()
      modifies this
      ensures Valid()
      ensures !dbOk ==> timers == old(timers) && jobs == old(jobs)
      ensures dbOk ==>
        (forall id: ObjectId :: id in timers <==> id in old(timers) || (id < |store| && Recoverable(store[id], now)))
        && (forall id: ObjectId :: id < |store| && Recoverable(store[id], now) ==> timers[id] == store[id])
        && jobs == old(jobs) + RecoverableIds(store, |store|, now)
      ensures dbOk && old(timers) == map[] ==>
        forall id: ObjectId :: id in timers <==> id < |store| && Recoverable(store[id], now)
      ensures store == old(store) && messages == old(messages) && nextMessageId == old(nextMessageId)
      ensures chats == old(chats) && outbox == old(outbox)
    {
      if !dbOk {
        return;
      }
      timers, jobs := Rearm(store, timers, jobs, now);
    }
  }

  /**
   * The `forEach` of `initScheduler` over the stored entries: every
   * recoverable entry is armed with its own document and recorded as a
   * job; nothing else is armed.
   */
  method Rearm(store: seq<ScheduledEntry>, timers: map<ObjectId, ScheduledEntry>, jobs: set<ObjectId>, now: Millis)
    returns (t: map<ObjectId, ScheduledEntry>, js: set<ObjectId>)
    requires forall id: ObjectId :: id in timers ==> id < |store| && SameEntry(timers[id], store[id])
    requires timers.Keys <= jobs
    ensures forall id: ObjectId :: id in t ==> id < |store| && SameEntry(t[id], store[id])
    ensures t.Keys <= js
    ensures forall id: ObjectId :: id in t <==> id in timers || (id < |store| && Recoverable(store[id], now))
    ensures forall id: ObjectId :: id < |store| && Recoverable(store[id], now) ==> t[id] == store[id]
    ensures js == jobs + RecoverableIds(store, |store|, now)
  {
    t, js := timers, jobs;
    var i := 0;
    while i < |store|
      invariant 0 <= i <= |store|
      invariant forall id: ObjectId :: id in t ==> id < |store| && SameEntry(t[id], store[id])
      invariant t.Keys <= js
      invariant forall id: ObjectId :: id in t <==> id in timers || (id < i && Recoverable(store[id], now))
      invariant forall id: ObjectId :: id < i && Recoverable(store[id], now) ==> t[id] == store[id]
      invariant js == jobs + RecoverableIds(store, i, now)
    {
      assert RecoverableIds(store, i + 1, now) == RecoverableIds(store, i, now) + (if Recoverable(store[i], now) then {i} else {});
      if Recoverable(store[i], now) {
        t := t[i := store[i]];
        js := js + {i};
      }
      i := i + 1;
    }
  }

  /**
   * Schedule, cancel, then let the timer go off: the cancelled entry is
   * delivered anyway and its status ends `sent`.
   */
  method CancelledEntryStillFires(me: ObjectId, chatId: ObjectId, content: string, at: Millis)
    returns (finalStatus: ScheduledStatus, delivered: bool)
    requires content != ""
    ensures finalStatus == Sent && delivered
  {
    var d := new Delivery(map[chatId := CreateChat(chatId, [me], None, None, None, 0)]);
    var reply := d.Schedule(me, Some(chatId), content, Some(at + 1), at, true, true);
    var id := reply.entry.value.id;
    var code := d.Cancel(me, id, at, true);
    assert d.store[id].status == Cancelled;
    var mid;
    delivered, mid := d.Fire(id, at + 1, NoFault, true);
    finalStatus := d.store[id].status;
  }

  /** The same sequence with the disarming cancel: no timer is left, so nothing fires and the entry stays `cancelled`. */
  method CancelledEntryStaysCancelled(me: ObjectId, chatId: ObjectId, content: string, at: Millis)
    returns (finalStatus: ScheduledStatus, armed: bool)
    requires content != ""
    ensures finalStatus == Cancelled && !armed
  {
    var d := new Delivery(map[chatId := CreateChat(chatId, [me], None, None, None, 0)]);
    var reply := d.Schedule(me, Some(chatId), content, Some(at + 1), at, true, true);
    var id := reply.entry.value.id;
    var code := d.CancelDisarming(me, id, at, true);
    finalStatus := d.store[id].status;
    armed := id in d.timers;
  }
}
