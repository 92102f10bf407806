/**
 * The real-time gateway of the server: who is online (user id to socket
 * id, in the insertion order of a JavaScript `Map`), which sockets are in
 * which room, the call log it writes, and every emission it makes, recorded
 * in an outbox as the set of sockets that receive each event.
 *
 * Transport semantics: `socket.to(room)` reaches the room except the
 * emitting socket, `io.to(room)` reaches the whole room,
 * `socket.broadcast` reaches every connected socket but the emitter, and
 * `socket.emit` only the emitter. Each user id also names the room its
 * sockets join at setup. Persistence failures are the boolean `dbOk`.
 */
module SocketHandler {
  import opened Common
  import opened CallModel

  datatype RelayChat = RelayChat(participants: Option<seq<ObjectId>>)

  /** The populated message a client relays with `new-message`. */
  datatype RelayMessage = RelayMessage(sender: ObjectId, chat: Option<RelayChat>, body: Payload)

  datatype Event =
    | UserOnline(userId: ObjectId)
    | OnlineUsers(ids: seq<ObjectId>)
    | Typing(chatId: ObjectId, typist: ObjectId, userName: string)
    | StopTyping(chatId: ObjectId, typist: ObjectId)
    | MessageReceived(message: RelayMessage)
    | MessagesRead(chatId: ObjectId, readBy: ObjectId)
    | MessageReactionEv(chatId: ObjectId, data: Payload)
    | IncomingCall(signal: Payload, from: Option<ObjectId>, callType: Option<string>,
                   callerInfo: Payload, callId: Option<ObjectId>)
    | CallUnavailable(to: ObjectId, reason: string)
    | CallAcceptedEv(signal: Payload)
    | CallRejectedEv
    | CallEndedEv
    | IceCandidate(candidate: Payload, from: Option<ObjectId>)
    | NewStatus(status: Payload)
    | UserOffline(userId: ObjectId, lastSeen: Millis)

  /** One emission: the sockets it reaches and what they receive. */
  datatype Delivery = Delivery(targets: set<SocketId>, event: Event)

  /** The persisted presence fields of a user document. */
  datatype Presence = Presence(isOnline: bool, lastSeen: Millis)

  const OfflineReason: string := "User is offline"

  /** The members of a room; a room nobody joined is empty. */
  function RoomIn(rooms: map<ObjectId, set<SocketId>>, room: ObjectId): set<SocketId> {
    if room in rooms then rooms[room] else {}
  }

  /**
   * The `new-message` fan-out: one `message-received` per participant
   * other than the sender, in participant order, to that participant's
   * room without the relaying socket.
   */
  function Relay(rooms: map<ObjectId, set<SocketId>>, parts: seq<ObjectId>, sender: ObjectId,
                 s: SocketId, m: RelayMessage): (r: seq<Delivery>)
    ensures |r| <= |parts|
  {
    if parts == [] then []
    else
      var last := parts[|parts| - 1];
      Relay(rooms, parts[..|parts| - 1], sender, s, m)
      + (if last != sender then [Delivery(RoomIn(rooms, last) - {s}, MessageReceived(m))] else [])
  }

  /**
   * The fan-out never reaches the relaying socket, carries only the
   * relayed message, reaches only rooms of participants other than the
   * sender, and reaches every such participant's room.
   */
  lemma {:induction false} RelayReachesExactlyOthers(rooms: map<ObjectId, set<SocketId>>, parts: seq<ObjectId>,
                                                     sender: ObjectId, s: SocketId, m: RelayMessage)
    ensures var r := Relay(rooms, parts, sender, s, m);
      (forall k :: 0 <= k < |r| ==> s !in r[k].targets && r[k].event == MessageReceived(m))
      && (forall k :: 0 <= k < |r| ==>
            exists p :: p in parts && p != sender && r[k].targets == RoomIn(rooms, p) - {s})
      && (forall p :: p in parts && p != sender ==> Delivery(RoomIn(rooms, p) - {s}, MessageReceived(m)) in r)
  {
    if parts != [] {
      var front := parts[..|parts| - 1];
      RelayReachesExactlyOthers(rooms, front, sender, s, m);
      assert forall p :: p in front ==> p in parts;
      assert forall p :: p in parts ==> p in front || p == parts[|parts| - 1];
    }
  }

  /** `Call.findByIdAndUpdate(id, { status: 'answered', startedAt })`: overwrites whatever status was there. */
  function AnswerCall(c: CallRecord, now: Millis): (r: CallRecord)
    ensures r.status == Answered && r.startedAt == Some(now)
    ensures r.(status := c.status, startedAt := c.startedAt) == c
  {
    c.(status := Answered, startedAt := Some(now))
  }

  /** `{ status: 'rejected' }`. */
  function RejectCall(c: CallRecord): (r: CallRecord)
    ensures r.status == Rejected && r.(status := c.status) == c
  {
    c.(status := Rejected)
  }

  /** `{ status: 'ended', endedAt }`: the duration is left as it was. */
  function EndCall(c: CallRecord, now: Millis): (r: CallRecord)
    ensures r.status == Ended && r.endedAt == Some(now) && r.duration == c.duration
    ensures r.(status := c.status, endedAt := c.endedAt) == c
  {
    c.(status := Ended, endedAt := Some(now))
  }

  /**
   * The status writes check nothing about the prior status: an ended call
   * can be answered again and an answered one rejected, and no write
   * touches the duration.
   */
  lemma CallStatusOverwrites(c: CallRecord, t1: Millis, t2: Millis)
    ensures AnswerCall(EndCall(c, t1), t2).status == Answered
    ensures RejectCall(AnswerCall(c, t1)).status == Rejected
    ensures EndCall(RejectCall(c), t1).status == Ended
    ensures AnswerCall(c, t1).duration == RejectCall(c).duration == EndCall(c, t2).duration == c.duration
  {
  }

  /** An ended call whose start and end are both known, yet whose duration still reads 0. */
  lemma AnsweredAndEndedCallHasZeroDuration(id: ObjectId, caller: ObjectId, receiver: ObjectId)
    ensures var c := CreateCall(id, Some(caller), Some(receiver), Some("voice"), Some("missed"));
      c.Some? && var e := EndCall(AnswerCall(c.value, 0), 60000);
      e.startedAt == Some(0) && e.endedAt == Some(60000) && e.duration == 0
  {
    assert ParseCallType("voice") == Some(Voice);
    assert ParseCallStatus("missed") == Some(Missed);
  }

  /**
   * The end write as evidently intended: the duration becomes the whole
   * seconds elapsed since the call was answered (0 for a call never
   * answered, or a clock that went backwards).
   */
  function EndCallWithDuration(c: CallRecord, now: Millis): (r: CallRecord)
    ensures r.status == Ended && r.endedAt == Some(now)
    ensures c.startedAt.Some? && c.startedAt.value <= now ==>
      r.duration * 1000 <= now - c.startedAt.value < (r.duration + 1) * 1000
    ensures !(c.startedAt.Some? && c.startedAt.value <= now) ==> r.duration == 0
    ensures r.duration >= 0
    ensures r.(status := c.status, endedAt := c.endedAt, duration := c.duration) == c
  {
    var d := if c.startedAt.Some? && c.startedAt.value <= now then (now - c.startedAt.value) / 1000 else 0;
    c.(status := Ended, endedAt := Some(now), duration := d)
  }

  lemma EndCallWithDurationExample(c: CallRecord)
    ensures EndCallWithDuration(AnswerCall(c, 0), 60000).duration == 60
  {
  }

  class Gateway {
    /** Sockets currently connected. */
    var connected: set<SocketId>
    /** `onlineUsers`: user id to the socket that last ran `setup` for it. */
    var online: map<ObjectId, SocketId>
    /** The keys of `onlineUsers` in insertion order. */
    var keys: seq<ObjectId>
    var rooms: map<ObjectId, set<SocketId>>
    /** `socket.userId`, once set by `setup`. */
    var socketUser: map<SocketId, ObjectId>
    /** The stored Call documents. */
    var calls: map<ObjectId, CallRecord>
    var nextCallId: ObjectId
    /** The stored users' presence fields. */
    var presence: map<ObjectId, Presence>
    /** Every emission so far, oldest first. */
    var outbox: seq<Delivery>

    ghost predicate Valid()
      reads this
    {
      Registry(keys, online)
      && (forall id :: id in calls ==> id < nextCallId)
      && (forall id :: id in calls ==> calls[id].duration == 0)
    }

    function Room(room: ObjectId): set<SocketId>
      reads this
    {
      RoomIn(rooms, room)
    }

    constructor (users: map<ObjectId, Presence>)
      ensures Valid()
      ensures connected == {} && online == map[] && keys == [] && rooms == map[] && socketUser == map[]
      ensures calls == map[] && nextCallId == 0 && presence == users && outbox == []
    {
      connected, online, keys, rooms, socketUser := {}, map[], [], map[], map[];
      calls, nextCallId, presence, outbox := map[], 0, users, [];
    }

    /** A new connection from the transport. */
    method Connect(s: SocketId)
      requires Valid() && s !in connected
      modifies this
      ensures Valid()
      ensures connected == old(connected) + {s}
      ensures online == old(online) && keys == old(keys) && rooms == old(rooms) && socketUser == old(socketUser)
      ensures calls == old(calls) && nextCallId == old(nextCallId) && presence == old(presence) && outbox == old(outbox)
    {
      connected := connected + {s};
    }

    /**
     * `setup`: a falsy id changes nothing. Otherwise the socket joins the
     * user's room, becomes the user's socket (replacing any earlier one),
     * the stored user is marked online, the other sockets hear
     * `user-online`, and this socket receives the map's keys.
     */
    method Setup(s: SocketId, userId: Option<ObjectId>, now: Millis, dbOk: bool)
      requires Valid() && s in connected
      modifies this
      ensures Valid()
      ensures userId.None? ==>
        (online == old(online) && keys == old(keys) && rooms == old(rooms) && socketUser == old(socketUser)
         && presence == old(presence) && outbox == old(outbox))
      ensures userId.Some? ==> var u := userId.value;
        online == old(online)[u := s]
        && keys == (if u in old(online) then old(keys) else old(keys) + [u])
        && rooms == old(rooms)[u := old(RoomIn(rooms, u)) + {s}]
        && socketUser == old(socketUser)[s := u]
        && presence == (if dbOk && u in old(presence) then old(presence)[u := Presence(true, now)] else old(presence))
        && outbox == old(outbox) + [Delivery(connected - {s}, UserOnline(u)), Delivery({s}, OnlineUsers(keys))]
      ensures userId.Some? ==> userId.value in keys && forall u :: u in keys <==> u in online
      ensures connected == old(connected) && calls == old(calls) && nextCallId == old(nextCallId)
    {
      if userId.None? {
        return;
      }
      var u := userId.value;
      rooms := rooms[u := Room(u) + {s}];
      Register(u, s);
      socketUser := socketUser[s := u];
      if dbOk && u in presence {
        presence := presence[u := Presence(true, now)];
      }
      outbox := outbox + [Delivery(connected - {s}, UserOnline(u)), Delivery({s}, OnlineUsers(keys))];
    }

    /** `onlineUsers.set(userId, socket.id)`: a new key goes to the end of the key order. */
    method Register(u: ObjectId, s: SocketId)
      requires Registry(keys, online)
      modifies this
      ensures Registry(keys, online) && u in keys
      ensures online == old(online)[u := s] && keys == (if u in old(online) then old(keys) else old(keys) + [u])
      ensures connected == old(connected) && rooms == old(rooms) && socketUser == old(socketUser)
      ensures calls == old(calls) && nextCallId == old(nextCallId) && presence == old(presence) && outbox == old(outbox)
    {
      RegistryPut(keys, online, u, s);
      if u !in online {
        keys := keys + [u];
      }
      online := online[u := s];
    }

    /** `join-chat`: the socket joins the chat's room. */
    method JoinChat(s: SocketId, chatId: ObjectId)
      requires Valid() && s in connected
      modifies this
      ensures Valid()
      ensures rooms == old(rooms)[chatId := old(RoomIn(rooms, chatId)) + {s}]
      ensures connected == old(connected) && online == old(online) && keys == old(keys) && socketUser == old(socketUser)
      ensures calls == old(calls) && nextCallId == old(nextCallId) && presence == old(presence) && outbox == old(outbox)
    {
      rooms := rooms[chatId := Room(chatId) + {s}];
    }

    /** Emits `e` to the chat room except the emitting socket; nothing else changes. */
    method ToRoomExceptSelf(s: SocketId, room: ObjectId, e: Event)
      requires Valid()
      modifies this
      ensures Valid()
      ensures outbox == old(outbox) + [Delivery(old(Room(room)) - {s}, e)]
      ensures s !in outbox[|outbox| - 1].targets
      ensures connected == old(connected) && online == old(online) && keys == old(keys) && rooms == old(rooms)
      ensures socketUser == old(socketUser) && calls == old(calls) && nextCallId == old(nextCallId)
      ensures presence == old(presence)
    {
      outbox := outbox + [Delivery(Room(room) - {s}, e)];
    }

    /** `typing`: relayed to the chat room without the typist's socket. */
    method TypingEvent(s: SocketId, chatId: ObjectId, userId: ObjectId, userName: string)
      requires Valid() && s in connected
      modifies this
      ensures Valid()
      ensures outbox == old(outbox) + [Delivery(old(Room(chatId)) - {s}, Typing(chatId, userId, userName))]
      ensures connected == old(connected) && online == old(online) && keys == old(keys) && rooms == old(rooms)
      ensures socketUser == old(socketUser) && calls == old(calls) && nextCallId == old(nextCallId)
      ensures presence == old(presence)
    {
      ToRoomExceptSelf(s, chatId, Typing(chatId, userId, userName));
    }

    /** `stop-typing`: relayed likewise. */
    method StopTypingEvent(s: SocketId, chatId: ObjectId, userId: ObjectId)
      requires Valid() && s in connected
      modifies this
      ensures Valid()
      ensures outbox == old(outbox) + [Delivery(old(Room(chatId)) - {s}, StopTyping(chatId, userId))]
      ensures connected == old(connected) && online == old(online) && keys == old(keys) && rooms == old(rooms)
      ensures socketUser == old(socketUser) && calls == old(calls) && nextCallId == old(nextCallId)
      ensures presence == old(presence)
    {
      ToRoomExceptSelf(s, chatId, StopTyping(chatId, userId));
    }

    /** `read-receipt`: becomes `messages-read` with the reader as `readBy`, to the room without the reader. */
    method ReadReceipt(s: SocketId, chatId: ObjectId, userId: ObjectId)
      requires Valid() && s in connected
      modifies this
      ensures Valid()
      ensures outbox == old(outbox) + [Delivery(old(Room(chatId)) - {s}, MessagesRead(chatId, userId))]
      ensures connected == old(connected) && online == old(online) && keys == old(keys) && rooms == old(rooms)
      ensures socketUser == old(socketUser) && calls == old(calls) && nextCallId == old(nextCallId)
      ensures presence == old(presence)
    {
      ToRoomExceptSelf(s, chatId, MessagesRead(chatId, userId));
    }

    /** `message-reaction`: the data is relayed unchanged to the room without the reactor. */
    method MessageReaction(s: SocketId, chatId: ObjectId, data: Payload)
      requires Valid() && s in connected
      modifies this
      ensures Valid()
      ensures outbox == old(outbox) + [Delivery(old(Room(chatId)) - {s}, MessageReactionEv(chatId, data))]
      ensures connected == old(connected) && online == old(online) && keys == old(keys) && rooms == old(rooms)
      ensures socketUser == old(socketUser) && calls == old(calls) && nextCallId == old(nextCallId)
      ensures presence == old(presence)
    {
      ToRoomExceptSelf(s, chatId, MessageReactionEv(chatId, data));
    }

    /**
     * `new-message`: nothing without a chat or a participant list;
     * otherwise the participants other than the sender each get
     * `message-received` in their room, in list order (see `Relay`).
     */
    method NewMessage(s: SocketId, m: RelayMessage)
      requires Valid() && s in connected
      modifies this
      ensures Valid()
      ensures m.chat.None? || m.chat.value.participants.None? ==> outbox == old(outbox)
      ensures m.chat.Some? && m.chat.value.participants.Some? ==>
        outbox == old(outbox) + Relay(rooms, m.chat.value.participants.value, m.sender, s, m)
      ensures connected == old(connected) && online == old(online) && keys == old(keys) && rooms == old(rooms)
      ensures socketUser == old(socketUser) && calls == old(calls) && nextCallId == old(nextCallId)
      ensures presence == old(presence)
    {
      if m.chat.None? || m.chat.value.participants.None? {
        return;
      }
      var parts := m.chat.value.participants.value;
      var i := 0;
      while i < |parts|
        invariant 0 <= i <= |parts|
        invariant outbox == old(outbox) + Relay(rooms, parts[..i], m.sender, s, m)
        invariant connected == old(connected) && online == old(online) && keys == old(keys) && rooms == old(rooms)
        invariant socketUser == old(socketUser) && calls == old(calls) && nextCallId == old(nextCallId)
        invariant presence == old(presence)
      {
        assert parts[..i + 1][..i] == parts[..i];
        if parts[i] != m.sender {
          outbox := outbox + [Delivery(Room(parts[i]) - {s}, MessageReceived(m))];
        }
        i := i + 1;
      }
      assert parts[..i] == parts;
    }

    /**
     * `call-user`: a target who is not online gets nothing and the caller
     * hears `call-unavailable`, with no call stored. Otherwise a Call is
     * created `missed`; the target's room hears `incoming-call`, with the
     * new call's id when the creation succeeded and without one when it
     * failed (a store error, or a record the schema refuses).
     */
    method CallUser(s: SocketId, to: ObjectId, from: Option<ObjectId>, signal: Payload,
                    callType: Option<string>, callerInfo: Payload, dbOk: bool)
      requires Valid() && s in connected
      modifies this
      ensures Valid()
      ensures to !in old(online) ==>
        calls == old(calls) && nextCallId == old(nextCallId)
        && outbox == old(outbox) + [Delivery({s}, CallUnavailable(to, OfflineReason))]
      ensures to in old(online) ==>
        var rec := CreateCall(old(nextCallId), from, Some(to), callType, Some("missed"));
        if dbOk && rec.Some? then
          calls == old(calls)[old(nextCallId) := rec.value] && nextCallId == old(nextCallId) + 1
          && rec.value.status == Missed
          && outbox == old(outbox) + [Delivery(old(Room(to)), IncomingCall(signal, from, callType, callerInfo, Some(old(nextCallId))))]
        else
          calls == old(calls) && nextCallId == old(nextCallId)
          && outbox == old(outbox) + [Delivery(old(Room(to)), IncomingCall(signal, from, callType, callerInfo, None))]
      ensures connected == old(connected) && online == old(online) && keys == old(keys) && rooms == old(rooms)
      ensures socketUser == old(socketUser) && presence == old(presence)
    {
      if to in online {
        var rec := CreateCall(nextCallId, from, Some(to), callType, Some("missed"));
        if dbOk && rec.Some? {
          assert ParseCallStatus("missed") == Some(Missed);
          var id := nextCallId;
          calls := calls[id := rec.value];
          nextCallId := nextCallId + 1;
          outbox := outbox + [Delivery(Room(to), IncomingCall(signal, from, callType, callerInfo, Some(id)))];
        } else {
          outbox := outbox + [Delivery(Room(to), IncomingCall(signal, from, callType, callerInfo, None))];
        }
      } else {
        outbox := outbox + [Delivery({s}, CallUnavailable(to, OfflineReason))];
      }
    }

    /**
     * `call-accepted`: the signal always reaches the caller's room; with a
     * call id whose document exists and a working store, the call becomes
     * `answered` with its start time, whatever its status was.
     */
    method CallAccepted(s: SocketId, to: ObjectId, signal: Payload, callId: Option<ObjectId>,
                        now: Millis, dbOk: bool)
      requires Valid() && s in connected
      modifies this
      ensures Valid()
      ensures outbox == old(outbox) + [Delivery(old(Room(to)), CallAcceptedEv(signal))]
      ensures calls == if callId.Some? && dbOk && callId.value in old(calls)
        then old(calls)[callId.value := AnswerCall(old(calls)[callId.value], now)] else old(calls)
      ensures connected == old(connected) && online == old(online) && keys == old(keys) && rooms == old(rooms)
      ensures socketUser == old(socketUser) && nextCallId == old(nextCallId) && presence == old(presence)
    {
      outbox := outbox + [Delivery(Room(to), CallAcceptedEv(signal))];
      if callId.Some? && dbOk && callId.value in calls {
        calls := calls[callId.value := AnswerCall(calls[callId.value], now)];
      }
    }

    /** `call-rejected`: relayed; the call, if found, becomes `rejected`. */
    method CallRejected(s: SocketId, to: ObjectId, callId: Option<ObjectId>, dbOk: bool)
      requires Valid() && s in connected
      modifies this
      ensures Valid()
      ensures outbox == old(outbox) + [Delivery(old(Room(to)), CallRejectedEv)]
      ensures calls == if callId.Some? && dbOk && callId.value in old(calls)
        then old(calls)[callId.value := RejectCall(old(calls)[callId.value])] else old(calls)
      ensures connected == old(connected) && online == old(online) && keys == old(keys) && rooms == old(rooms)
      ensures socketUser == old(socketUser) && nextCallId == old(nextCallId) && presence == old(presence)
    {
      outbox := outbox + [Delivery(Room(to), CallRejectedEv)];
      if callId.Some? && dbOk && callId.value in calls {
        calls := calls[callId.value := RejectCall(calls[callId.value])];
      }
    }

    /** `call-ended`: relayed; the call, if found, becomes `ended` with its end time; the duration stays 0. */
    method CallEnded(s: SocketId, to: ObjectId, callId: Option<ObjectId>, now: Millis, dbOk: bool)
      requires Valid() && s in connected
      modifies this
      ensures Valid()
      ensures outbox == old(outbox) + [Delivery(old(Room(to)), CallEndedEv)]
      ensures calls == if callId.Some? && dbOk && callId.value in old(calls)
        then old(calls)[callId.value := EndCall(old(calls)[callId.value], now)] else old(calls)
      ensures forall id :: id in calls ==> calls[id].duration == 0
      ensures connected == old(connected) && online == old(online) && keys == old(keys) && rooms == old(rooms)
      ensures socketUser == old(socketUser) && nextCallId == old(nextCallId) && presence == old(presence)
    {
      outbox := outbox + [Delivery(Room(to), CallEndedEv)];
      if callId.Some? && dbOk && callId.value in calls {
        calls := calls[callId.value := EndCall(calls[callId.value], now)];
      }
    }

    /** `ice-candidate`: relayed to the peer's room, tagged with this socket's user id (if setup ran). */
    method IceCandidateEvent(s: SocketId, to: ObjectId, candidate: Payload)
      requires Valid() && s in connected
      modifies this
      ensures Valid()
      ensures outbox == old(outbox) +
        [Delivery(old(Room(to)), IceCandidate(candidate, if s in socketUser then Some(socketUser[s]) else None))]
      ensures connected == old(connected) && online == old(online) && keys == old(keys) && rooms == old(rooms)
      ensures socketUser == old(socketUser) && calls == old(calls) && nextCallId == old(nextCallId)
      ensures presence == old(presence)
    {
      var from := if s in socketUser then Some(socketUser[s]) else None;
      outbox := outbox + [Delivery(Room(to), IceCandidate(candidate, from))];
    }

    /** `status-update`: broadcast as `new-status` to every other socket. */
    method StatusUpdate(s: SocketId, status: Payload)
      requires Valid() && s in connected
      modifies this
      ensures Valid()
      ensures outbox == old(outbox) + [Delivery(connected - {s}, NewStatus(status))]
      ensures connected == old(connected) && online == old(online) && keys == old(keys) && rooms == old(rooms)
      ensures socketUser == old(socketUser) && calls == old(calls) && nextCallId == old(nextCallId)
      ensures presence == old(presence)
    {
      outbox := outbox + [Delivery(connected - {s}, NewStatus(status))];
    }

    /**
     * `disconnect`: the transport drops the socket from every room; then
     * the first user, in the map's order, still mapped to this socket is
     * removed, marked offline in the store, and announced with
     * `user-offline`. When no entry maps to this socket (it was superseded
     * by a later setup, or never ran one) the map is unchanged and nothing
     * is broadcast.
     */
    method Disconnect(s: SocketId, now: Millis, dbOk: bool) returns (gone: Option<ObjectId>, k: nat)
      requires Valid() && s in connected
      modifies this
      ensures Valid()
      ensures connected == old(connected) - {s}
      ensures rooms == map r | r in old(rooms) :: old(rooms)[r] - {s}
      ensures socketUser == old(socketUser) - {s}
      ensures gone.None? <==> forall u :: u in old(online) ==> old(online)[u] != s
      ensures gone.None? ==> online == old(online) && keys == old(keys) && presence == old(presence) && outbox == old(outbox)
      ensures gone.Some? ==> var u := gone.value;
        k < |old(keys)| && old(keys)[k] == u && old(online)[u] == s
        && (forall j :: 0 <= j < k ==> old(online)[old(keys)[j]] != s)
        && keys == old(keys)[..k] + old(keys)[k + 1..]
        && online == old(online) - {u}
        && presence == (if dbOk && u in old(presence) then old(presence)[u := Presence(false, now)] else old(presence))
        && outbox == old(outbox) + [Delivery(old(connected) - {s}, UserOffline(u, now))]
      ensures forall u :: u in old(online) && old(online)[u] != s ==> u in online && online[u] == old(online)[u]
      ensures calls == old(calls) && nextCallId == old(nextCallId)
    {
      LeaveAll(s);
      gone, k := FirstUserOf(s);
      if gone.Some? {
        var u := gone.value;
        RegistryRemove(keys, online, k);
        keys := keys[..k] + keys[k + 1..];
        online := online - {u};
        if dbOk && u in presence {
          presence := presence[u := Presence(false, now)];
        }
        outbox := outbox + [Delivery(connected, UserOffline(u, now))];
      }
    }

    /** The transport's side of a disconnect: the socket leaves every room and its `userId` goes with it. */
    method LeaveAll(s: SocketId)
      requires Valid()
      modifies this
      ensures Valid()
      ensures connected == old(connected) - {s}
      ensures rooms == map r | r in old(rooms) :: old(rooms)[r] - {s}
      ensures socketUser == old(socketUser) - {s}
      ensures online == old(online) && keys == old(keys) && presence == old(presence) && outbox == old(outbox)
      ensures calls == old(calls) && nextCallId == old(nextCallId)
    {
      connected := connected - {s};
      rooms := map r | r in rooms :: rooms[r] - {s};
      socketUser := socketUser - {s};
    }

    /**
     * The `for ... of onlineUsers.entries()` scan: the first user, in
     * insertion order, mapped to socket `s`, with its position.
     */
    method FirstUserOf(s: SocketId) returns (gone: Option<ObjectId>, k: nat)
      requires Valid()
      ensures gone.None? ==> forall u :: u in online ==> online[u] != s
      ensures gone.Some? ==>
        (k < |keys| && keys[k] == gone.value && online[gone.value] == s
         && forall j :: 0 <= j < k ==> online[keys[j]] != s)
    {
      var i := 0;
      gone, k := None, 0;
      while i < |keys| && gone.None?
        invariant 0 <= i <= |keys|
        invariant gone.None? ==> forall j :: 0 <= j < i ==> online[keys[j]] != s
        invariant gone.Some? ==>
          (k < |keys| && keys[k] == gone.value && online[gone.value] == s
           && forall j :: 0 <= j < k ==> online[keys[j]] != s)
      {
        if online[keys[i]] == s {
          gone, k := Some(keys[i]), i;
        }
        i := i + 1;
      }
      if gone.None? {
        forall u | u in online ensures online[u] != s {
          var j :| 0 <= j < |keys| && keys[j] == u;
        }
      }
    }

    /** `io.getOnlineUsers()`: the map as a plain object. */
    function OnlineSnapshot(): (r: map<ObjectId, SocketId>)
      reads this
      requires Valid()
      ensures forall u :: u in r <==> u in keys
      ensures forall u :: u in r ==> r[u] == online[u]
    {
      online
    }
  }

  /** The presence map with its keys in insertion order: each key once, and exactly the map's keys. */
  ghost predicate Registry(keys: seq<ObjectId>, online: map<ObjectId, SocketId>) {
    NoDuplicates(keys) && (forall u :: u in online <==> u in keys)
  }

  /** `Map.set`: a new key goes to the end, an existing key keeps its place. */
  lemma RegistryPut(keys: seq<ObjectId>, online: map<ObjectId, SocketId>, u: ObjectId, s: SocketId)
    requires Registry(keys, online)
    ensures Registry(if u in online then keys else keys + [u], online[u := s])
  {
    if u !in online {
      var r := keys + [u];
      forall a, b | 0 <= a < b < |r| ensures r[a] != r[b] {
        if b == |keys| { assert r[a] == keys[a]; }
      }
    }
  }

  /** `Map.delete` of the key at position k: the others keep their order. */
  lemma RegistryRemove(keys: seq<ObjectId>, online: map<ObjectId, SocketId>, k: nat)
    requires Registry(keys, online) && k < |keys|
    ensures Registry(keys[..k] + keys[k + 1..], online - {keys[k]})
  {
    RemoveKeepsIndex(keys, k);
  }

  /** Deleting position k of a duplicate-free sequence removes exactly that element. */
  lemma RemoveKeepsIndex(keys: seq<ObjectId>, k: nat)
    requires NoDuplicates(keys) && k < |keys|
    ensures NoDuplicates(keys[..k] + keys[k + 1..])
    ensures forall x :: x in keys[..k] + keys[k + 1..] <==> x in keys && x != keys[k]
  {
    var r := keys[..k] + keys[k + 1..];
    forall x | x in keys && x != keys[k] ensures x in r {
      var j :| 0 <= j < |keys| && keys[j] == x;
      if j < k { assert r[j] == x; } else { assert r[j - 1] == x; }
    }
    forall x | x in r ensures x in keys && x != keys[k] {
      var j :| 0 <= j < |r| && r[j] == x;
      if j < k { assert keys[j] == x; } else { assert keys[j + 1] == x; }
    }
    forall a, b | 0 <= a < b < |r| ensures r[a] != r[b] {
      var a' := if a < k then a else a + 1;
      var b' := if b < k then b else b + 1;
      assert r[a] == keys[a'] && r[b] == keys[b'];
    }
  }
}
