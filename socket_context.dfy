/**
 * The browser's end of the real-time connection (`SocketProvider`): one
 * socket per signed-in user, the set of users it believes online, who is
 * typing in which chat, and what it emits.
 *
 * A socket is a handle number; the transport, reconnection timing and
 * payload encoding are outside the model. JavaScript `Set` membership is
 * by value for strings and by identity for objects, so an object decoded
 * from a socket event is never a member of a set built from other events.
 */
module SocketContext {
  import opened Common

  /** The payload of `user-offline`: a bare id, or the `{ userId, lastSeen }` object the gateway sends. */
  datatype OfflinePayload = IdPayload(id: ObjectId) | ObjectPayload(userId: ObjectId, lastSeen: Millis)

  /** One `typingUsers` entry. */
  datatype Typist = Typist(userId: ObjectId, userName: string)

  /** One `socket.emit` on the socket with handle `socket`. */
  datatype Emitted = Emitted(socket: nat, event: string, data: Payload)

  const SetupEvent: string := "setup"

  /** The user an offline payload is about. */
  function OfflineUser(p: OfflinePayload): ObjectId {
    match p
    case IdPayload(u) => u
    case ObjectPayload(u, _) => u
  }

  /** `online-users`: the set becomes exactly the received ids. */
  function Listed(ids: seq<ObjectId>): (r: set<ObjectId>)
    ensures forall u :: u in r <==> u in ids
  {
    set u | u in ids
  }

  /** `user-online`: `new Set([...prev, userId])`. */
  function Joined(online: set<ObjectId>, u: ObjectId): (r: set<ObjectId>)
    ensures u in r && online <= r
    ensures forall v :: v in r && v != u ==> v in online
  {
    online + {u}
  }

  /**
   * `user-offline` as written: `next.delete(payload)` removes a bare id,
   * while an object payload, never a member, removes nothing.
   */
  function Left(online: set<ObjectId>, p: OfflinePayload): (r: set<ObjectId>)
    ensures p.IdPayload? ==> p.id !in r && forall v :: v != p.id ==> (v in r <==> v in online)
    ensures p.ObjectPayload? ==> r == online
  {
    match p
    case IdPayload(u) => online - {u}
    case ObjectPayload(_, _) => online
  }

  /** `user-offline` as evidently intended: the user the payload names leaves the set, whatever its shape. */
  function LeftFixed(online: set<ObjectId>, p: OfflinePayload): (r: set<ObjectId>)
    ensures OfflineUser(p) !in r
    ensures forall v :: v != OfflineUser(p) ==> (v in r <==> v in online)
  {
    online - {OfflineUser(p)}
  }

  /** `typing`: the chat's entry becomes the latest typist; other chats are untouched. */
  function Typed(typing: map<ObjectId, Typist>, chatId: ObjectId, t: Typist): (r: map<ObjectId, Typist>)
    ensures chatId in r && r[chatId] == t
    ensures forall c :: c != chatId ==> (c in r <==> c in typing) && (c in r ==> r[c] == typing[c])
  {
    typing[chatId := t]
  }

  /** `stop-typing`: the chat's entry goes, whoever it names; other chats are untouched. */
  function Untyped(typing: map<ObjectId, Typist>, chatId: ObjectId): (r: map<ObjectId, Typist>)
    ensures chatId !in r
    ensures forall c :: c != chatId ==> (c in r <==> c in typing) && (c in r ==> r[c] == typing[c])
  {
    typing - {chatId}
  }

  /** A second `user-online` for the same user changes nothing. */
  lemma JoinedIdempotent(online: set<ObjectId>, u: ObjectId)
    ensures Joined(Joined(online, u), u) == Joined(online, u)
  {
  }

  /**
   * With the gateway's `{ userId, lastSeen }` payload, a user who went
   * offline stays in the set.
   */
  lemma ObjectPayloadKeepsUserOnline(online: set<ObjectId>, u: ObjectId, lastSeen: Millis)
    requires u in online
    ensures u in Left(online, ObjectPayload(u, lastSeen))
  {
  }

  /** With the fixed handler, coming online and then going offline restores the set, whatever the payload shape. */
  lemma JoinThenLeaveFixed(online: set<ObjectId>, p: OfflinePayload)
    requires OfflineUser(p) !in online
    ensures LeftFixed(Joined(online, OfflineUser(p)), p) == online
  {
  }

  /** The fixed handler agrees with the one as written on a bare id. */
  lemma LeftFixedAgreesOnIds(online: set<ObjectId>, u: ObjectId)
    ensures LeftFixed(online, IdPayload(u)) == Left(online, IdPayload(u))
  {
  }

  /** Typing and then stopping in a chat with no entry leaves the map as it was. */
  lemma TypedThenUntyped(typing: map<ObjectId, Typist>, chatId: ObjectId, t: Typist)
    requires chatId !in typing
    ensures Untyped(Typed(typing, chatId, t), chatId) == typing
  {
  }

  class SocketProvider {
    /** `socketRef.current`; `None` while nobody is signed in. */
    var socket: Option<nat>
    /** The handle the next `io()` returns. */
    var nextSocket: nat
    /** The user the current socket's `connect` listener announces. */
    var owner: ObjectId
    /** Sockets that were disconnected. */
    var closed: set<nat>
    var onlineUsers: set<ObjectId>
    var typingUsers: map<ObjectId, Typist>
    /** Every emission, oldest first. */
    var outbox: seq<Emitted>

    ghost predicate Valid()
      reads this
    {
      (socket.Some? ==> socket.value < nextSocket && socket.value !in closed)
      && forall h :: h in closed ==> h < nextSocket
    }

    constructor ()
      ensures Valid() && socket.None? && closed == {} && onlineUsers == {} && typingUsers == map[] && outbox == []
    {
      socket, nextSocket, owner, closed := None, 0, 0, {};
      onlineUsers, typingUsers, outbox := {}, map[], [];
    }

    /**
     * The effect that runs whenever `user` changes: the earlier socket, if
     * any, is disconnected; with a user a new socket is opened for them,
     * without one the ref is cleared.
     */
    method UserChanged(user: Option<ObjectId>)
      requires Valid()
      modifies this
      ensures Valid()
      ensures closed == old(closed) + (if old(socket).Some? then {old(socket).value} else {})
      ensures user.None? ==> socket.None? && nextSocket == old(nextSocket) && owner == old(owner)
      ensures user.Some? ==> socket == Some(old(nextSocket)) && nextSocket == old(nextSocket) + 1 && owner == user.value
      ensures socket.Some? ==> socket.value !in old(closed) && old(socket) != socket
      ensures onlineUsers == old(onlineUsers) && typingUsers == old(typingUsers) && outbox == old(outbox)
    {
      if socket.Some? {
        closed := closed + {socket.value};
      }
      if user.None? {
        socket := None;
        return;
      }
      socket, nextSocket, owner := Some(nextSocket), nextSocket + 1, user.value;
    }

    /** The `connect` listener, on every (re)connection: `setup` with the owner's id. */
    method OnConnect()
      requires Valid() && socket.Some?
      modifies this
      ensures socket == old(socket) && Valid() && outbox == old(outbox) + [Emitted(socket.value, SetupEvent, owner)]
      ensures nextSocket == old(nextSocket) && owner == old(owner) && closed == old(closed)
      ensures onlineUsers == old(onlineUsers) && typingUsers == old(typingUsers)
    {
      outbox := outbox + [Emitted(socket.value, SetupEvent, owner)];
    }

    method OnOnlineUsers(ids: seq<ObjectId>)
      requires Valid() && socket.Some?
      modifies this
      ensures Valid() && onlineUsers == Listed(ids)
      ensures socket == old(socket) && nextSocket == old(nextSocket) && owner == old(owner) && closed == old(closed)
      ensures typingUsers == old(typingUsers) && outbox == old(outbox)
    {
      onlineUsers := Listed(ids);
    }

    method OnUserOnline(u: ObjectId)
      requires Valid() && socket.Some?
      modifies this
      ensures Valid() && onlineUsers == Joined(old(onlineUsers), u)
      ensures socket == old(socket) && nextSocket == old(nextSocket) && owner == old(owner) && closed == old(closed)
      ensures typingUsers == old(typingUsers) && outbox == old(outbox)
    {
      onlineUsers := Joined(onlineUsers, u);
    }

    method OnUserOffline(p: OfflinePayload)
      requires Valid() && socket.Some?
      modifies this
      ensures Valid() && onlineUsers == Left(old(onlineUsers), p)
      ensures socket == old(socket) && nextSocket == old(nextSocket) && owner == old(owner) && closed == old(closed)
      ensures typingUsers == old(typingUsers) && outbox == old(outbox)
    {
      onlineUsers := Left(onlineUsers, p);
    }

    method OnTyping(chatId: ObjectId, userId: ObjectId, userName: string)
      requires Valid() && socket.Some?
      modifies this
      ensures Valid() && typingUsers == Typed(old(typingUsers), chatId, Typist(userId, userName))
      ensures socket == old(socket) && nextSocket == old(nextSocket) && owner == old(owner) && closed == old(closed)
      ensures onlineUsers == old(onlineUsers) && outbox == old(outbox)
    {
      typingUsers := Typed(typingUsers, chatId, Typist(userId, userName));
    }

    method OnStopTyping(chatId: ObjectId)
      requires Valid() && socket.Some?
      modifies this
      ensures Valid() && typingUsers == Untyped(old(typingUsers), chatId)
      ensures socket == old(socket) && nextSocket == old(nextSocket) && owner == old(owner) && closed == old(closed)
      ensures onlineUsers == old(onlineUsers) && outbox == old(outbox)
    {
      typingUsers := Untyped(typingUsers, chatId);
    }

    /** `emitEvent`: through the current socket, and nothing without one. */
    method EmitEvent(event: string, data: Payload)
      requires Valid()
      modifies this
      ensures Valid()
      ensures outbox == old(outbox) + (if socket.Some? then [Emitted(socket.value, event, data)] else [])
      ensures socket == old(socket) && nextSocket == old(nextSocket) && owner == old(owner) && closed == old(closed)
      ensures onlineUsers == old(onlineUsers) && typingUsers == old(typingUsers)
    {
      if socket.Some? {
        outbox := outbox + [Emitted(socket.value, event, data)];
      }
    }
  }

  /**
   * The gateway announces a disconnect with `{ userId, lastSeen }`, which
   * the provider fails to remove: after `user-online` and `user-offline`
   * for the same user, they still show as online.
   */
  method OfflineUserStillShown(me: ObjectId, other: ObjectId, lastSeen: Millis) returns (p: SocketProvider)
    ensures other in p.onlineUsers
  {
    p := new SocketProvider();
    p.UserChanged(Some(me));
    p.OnConnect();
    p.OnUserOnline(other);
    p.OnUserOffline(ObjectPayload(other, lastSeen));
  }
}
