/**
 * The message routes: send, mark-read, the reaction toggle and the soft
 * delete, each with its socket fan-out. (Scheduling and cancelling a
 * message are in `Scheduler`.)
 *
 * The Message collection is a sequence and message `i` has id `i`; chats
 * are keyed by id. Each `io.to(room).emit(...)` appends to `outbox`. A
 * store failure (`dbOk` false) is a 500 raised before anything is written;
 * among the failures after a write, only the missing chat is modelled.
 */
module MessageRoutes {
  import opened Common
  import opened MessageModel
  import opened ChatModel

  datatype MessageEvent =
    | NewMessage(message: Message)
    | MessagesRead(chatId: ObjectId, readBy: ObjectId)
    | ReactionUpdate(messageId: ObjectId, chatId: ObjectId, reactions: seq<Reaction>)
    | MessageDeleted(messageId: ObjectId, chatId: ObjectId)

  /** `io.to(room).emit(event)`. */
  datatype Emit = Emit(room: ObjectId, event: MessageEvent)

  /** A request field that JavaScript treats as true: present and non-empty. */
  predicate Truthy(s: Option<string>) {
    s.Some? && s.value != ""
  }

  /** One emission of `ev` per room, in order. */
  function Broadcast(rooms: seq<ObjectId>, ev: MessageEvent): (r: seq<Emit>)
    ensures |r| == |rooms|
  {
    if rooms == [] then [] else Broadcast(rooms[..|rooms| - 1], ev) + [Emit(rooms[|rooms| - 1], ev)]
  }

  lemma {:induction false} BroadcastReaches(rooms: seq<ObjectId>, ev: MessageEvent)
    ensures forall k :: 0 <= k < |rooms| ==> Broadcast(rooms, ev)[k] == Emit(rooms[k], ev)
  {
    if rooms != [] {
      BroadcastReaches(rooms[..|rooms| - 1], ev);
    }
  }

  lemma BroadcastSnoc(rooms: seq<ObjectId>, room: ObjectId, ev: MessageEvent)
    ensures Broadcast(rooms + [room], ev) == Broadcast(rooms, ev) + [Emit(room, ev)]
  {
    assert (rooms + [room])[..|rooms|] == rooms;
  }

  /** The participants a loop emits to: all of them, or all but `skip`, in participant order. */
  function Recipients(parts: seq<ObjectId>, skip: Option<ObjectId>): (r: seq<ObjectId>)
    ensures |r| <= |parts|
  {
    if parts == [] then []
    else
      var last := parts[|parts| - 1];
      Recipients(parts[..|parts| - 1], skip) + (if skip.None? || last != skip.value then [last] else [])
  }

  /** A recipient is a participant other than `skip`, every such participant is one, and with no `skip` the list is the participants. */
  lemma {:induction false} RecipientsMembers(parts: seq<ObjectId>, skip: Option<ObjectId>)
    ensures forall x :: x in Recipients(parts, skip) <==> x in parts && (skip.None? || x != skip.value)
    ensures skip.None? ==> Recipients(parts, skip) == parts
  {
    if parts != [] {
      var init := parts[..|parts| - 1];
      RecipientsMembers(init, skip);
      assert parts == init + [parts[|parts| - 1]];
    }
  }

  /** One more participant adds one emission, unless it is the skipped one. */
  lemma EmitStep(parts: seq<ObjectId>, i: nat, skip: Option<ObjectId>, ev: MessageEvent)
    requires i < |parts|
    ensures Broadcast(Recipients(parts[..i + 1], skip), ev)
      == Broadcast(Recipients(parts[..i], skip), ev) + (if skip.None? || parts[i] != skip.value then [Emit(parts[i], ev)] else [])
  {
    assert parts[..i + 1][..i] == parts[..i];
    if skip.None? || parts[i] != skip.value {
      BroadcastSnoc(Recipients(parts[..i], skip), parts[i], ev);
    } else {
      assert Recipients(parts[..i + 1], skip) == Recipients(parts[..i], skip);
    }
  }

  /** The `Message.create` input of a send: `content || ''`, `type || 'text'`, the file fields or their defaults, read by the sender. */
  function SendInput(me: ObjectId, chatId: ObjectId, content: Option<string>, typeName: Option<string>,
                     fileUrl: Option<string>, fileName: Option<string>, fileSize: Option<int>): MessageInput
  {
    MessageInput(Some(me), Some(chatId), Some(content.GetOr("")),
                 Some(if Truthy(typeName) then typeName.value else "text"),
                 Some(fileUrl.GetOr("")), Some(fileName.GetOr("")), Some(fileSize.GetOr(0)), [me])
  }

  /**
   * The `updateMany` of mark-read on one message: a message of the chat
   * that `me` has not read gains `me` at the end of `readBy` and becomes
   * delivered; every other message is left as it is.
   */
  function MarkReadOne(m: Message, me: ObjectId, chatId: ObjectId): (r: Message)
    ensures r.chat == chatId ==> me in r.readBy
    ensures (m.chat == chatId && me !in m.readBy) ==> r.readBy == m.readBy + [me] && r.isDelivered
    ensures !(m.chat == chatId && me !in m.readBy) ==> r == m
    ensures r.(readBy := m.readBy, isDelivered := m.isDelivered) == m
    ensures NoDuplicates(m.readBy) ==> NoDuplicates(r.readBy)
  {
    if m.chat == chatId && me !in m.readBy then
      var rb := m.readBy + [me];
      assert forall i :: 0 <= i < |m.readBy| ==> rb[i] == m.readBy[i];
      m.(readBy := rb, isDelivered := true)
    else m
  }

  /** `Message.updateMany({ chat, readBy: { $ne: me } }, { $addToSet: { readBy: me }, isDelivered: true })`. */
  function MarkReadAll(msgs: seq<Message>, me: ObjectId, chatId: ObjectId): (r: seq<Message>)
    ensures |r| == |msgs|
    ensures forall i :: 0 <= i < |msgs| ==> r[i] == MarkReadOne(msgs[i], me, chatId)
  {
    seq(|msgs|, i requires 0 <= i < |msgs| => MarkReadOne(msgs[i], me, chatId))
  }

  /** After mark-read every message of the chat is read by `me`, the others and the ids are untouched, and no `readBy` gains a duplicate. */
  lemma MarkReadAllEffect(msgs: seq<Message>, me: ObjectId, chatId: ObjectId)
    ensures var r := MarkReadAll(msgs, me, chatId);
      (forall i :: 0 <= i < |r| && r[i].chat == chatId ==> me in r[i].readBy)
      && (forall i :: 0 <= i < |r| && msgs[i].chat != chatId ==> r[i] == msgs[i])
      && (forall i :: 0 <= i < |r| ==> r[i].id == msgs[i].id && r[i].chat == msgs[i].chat)
      && (forall i :: 0 <= i < |r| && NoDuplicates(msgs[i].readBy) ==> NoDuplicates(r[i].readBy))
  {
  }

  function ByUser(me: ObjectId): Reaction -> bool {
    (r: Reaction) => r.user == me
  }

  function NotByUser(me: ObjectId): Reaction -> bool {
    (r: Reaction) => r.user != me
  }

  /** The reaction toggle: `me`'s reactions are dropped and, when the emoji is non-empty, one is pushed at the end. */
  function ToggleReaction(rs: seq<Reaction>, me: ObjectId, emoji: Option<string>): seq<Reaction> {
    Filter(rs, NotByUser(me)) + (if Truthy(emoji) then [Reaction(me, emoji.value)] else [])
  }

  /**
   * After a toggle, `me` has exactly the new reaction (none for an empty
   * emoji), and the other users' reactions are the old ones in their old
   * order.
   */
  lemma ToggleReactionEffect(rs: seq<Reaction>, me: ObjectId, emoji: Option<string>)
    ensures var r := ToggleReaction(rs, me, emoji);
      Filter(r, ByUser(me)) == (if Truthy(emoji) then [Reaction(me, emoji.value)] else [])
      && Filter(r, NotByUser(me)) == Filter(rs, NotByUser(me))
      && |Filter(r, ByUser(me))| <= 1
  {
    var others := Filter(rs, NotByUser(me));
    var mine := if Truthy(emoji) then [Reaction(me, emoji.value)] else [];
    assert forall i :: 0 <= i < |others| ==> others[i] in others;
    FilterConcat(others, mine, ByUser(me));
    FilterConcat(others, mine, NotByUser(me));
    FilterNone(others, ByUser(me));
    FilterAll(others, NotByUser(me));
    if Truthy(emoji) {
      FilterAll(mine, ByUser(me));
      FilterNone(mine, NotByUser(me));
    }
  }

  /** `chat.participants.forEach(...)` with an emit to each participant other than `skip`, collected in order. */
  method Emissions(parts: seq<ObjectId>, skip: Option<ObjectId>, ev: MessageEvent) returns (out: seq<Emit>)
    ensures out == Broadcast(Recipients(parts, skip), ev)
  {
    out := [];
    var i := 0;
    while i < |parts|
      invariant 0 <= i <= |parts|
      invariant out == Broadcast(Recipients(parts[..i], skip), ev)
    {
      EmitStep(parts, i, skip, ev);
      if skip.None? || parts[i] != skip.value {
        out := out + [Emit(parts[i], ev)];
      }
      i := i + 1;
    }
    assert parts[..i] == parts;
  }

  class MessageApi {
    var messages: seq<Message>
    var chats: map<ObjectId, Chat>
    var outbox: seq<Emit>

    ghost predicate Valid()
      reads this
    {
      forall i :: 0 <= i < |messages| ==> messages[i].id == i
    }

    constructor (initialChats: map<ObjectId, Chat>)
      ensures Valid() && messages == [] && chats == initialChats && outbox == []
    {
      messages, chats, outbox := [], initialChats, [];
    }

    /**
     * `POST /message`: 400 without a chat id or with neither content nor a
     * file URL; 500 when creation fails (an unknown type). Otherwise the
     * message is stored and becomes the chat's last message; when the chat
     * does not exist the handler throws after storing it (500), and
     * otherwise every participant but the sender hears `new-message` (201).
     */
    method Send(me: ObjectId, chatId: Option<ObjectId>, content: Option<string>, typeName: Option<string>,
                fileUrl: Option<string>, fileName: Option<string>, fileSize: Option<int>,
                now: Millis, dbOk: bool) returns (code: nat, sent: Option<Message>)
      requires Valid()
      modifies this
      ensures Valid()
      ensures chatId.None? || (!Truthy(content) && !Truthy(fileUrl)) ==>
        code == 400 && sent.None? && messages == old(messages) && chats == old(chats) && outbox == old(outbox)
      ensures chatId.Some? && (Truthy(content) || Truthy(fileUrl)) ==>
        var rec := CreateMessage(|old(messages)|, SendInput(me, chatId.value, content, typeName, fileUrl, fileName, fileSize), now);
        if !dbOk || rec.None? then
          code == 500 && sent.None? && messages == old(messages) && chats == old(chats) && outbox == old(outbox)
        else
          messages == old(messages) + [rec.value]
          && chats == (if chatId.value in old(chats)
                       then old(chats)[chatId.value := WithLastMessage(old(chats)[chatId.value], rec.value.id, now)]
                       else old(chats))
          && (chatId.value !in old(chats) ==> code == 500 && sent.None? && outbox == old(outbox))
          && (chatId.value in old(chats) ==>
                code == 201 && sent == rec
                && outbox == old(outbox) + Broadcast(Recipients(old(chats)[chatId.value].participants, Some(me)), NewMessage(rec.value)))
    {
      if chatId.None? || (!Truthy(content) && !Truthy(fileUrl)) {
        return 400, None;
      }
      var c := chatId.value;
      var rec := CreateMessage(|messages|, SendInput(me, c, content, typeName, fileUrl, fileName, fileSize), now);
      if !dbOk || rec.None? {
        return 500, None;
      }
      messages := messages + [rec.value];
      if c !in chats {
        return 500, None;
      }
      chats := chats[c := WithLastMessage(chats[c], rec.value.id, now)];
      var out := Emissions(chats[c].participants, Some(me), NewMessage(rec.value));
      outbox := outbox + out;
      code, sent := 201, rec;
    }

    /**
     * `PUT /message/read/:chatId`: the chat's messages are marked read by
     * `me` as `MarkReadAll` says; then the other participants hear
     * `messages-read` (200), or the handler throws on a missing chat (500).
     */
    method MarkRead(me: ObjectId, chatId: ObjectId, dbOk: bool) returns (code: nat)
      requires Valid()
      modifies this
      ensures Valid()
      ensures !dbOk ==> code == 500 && messages == old(messages) && outbox == old(outbox)
      ensures dbOk ==> messages == MarkReadAll(old(messages), me, chatId)
      ensures dbOk && chatId !in chats ==> code == 500 && outbox == old(outbox)
      ensures dbOk && chatId in chats ==>
        code == 200 && outbox == old(outbox) + Broadcast(Recipients(chats[chatId].participants, Some(me)), MessagesRead(chatId, me))
      ensures chats == old(chats)
    {
      if !dbOk {
        return 500;
      }
      messages := MarkReadAll(messages, me, chatId);
      if chatId !in chats {
        return 500;
      }
      var out := Emissions(chats[chatId].participants, Some(me), MessagesRead(chatId, me));
      outbox := outbox + out;
      code := 200;
    }

    /**
     * `PUT /message/react/:id`: 404 for an unknown message; otherwise the
     * reactions are toggled and saved, and every participant of the chat,
     * the reactor included, hears the new list (200), or the handler throws
     * on a missing chat (500).
     */
    method React(me: ObjectId, id: ObjectId, emoji: Option<string>, dbOk: bool)
      returns (code: nat, reactions: seq<Reaction>)
      requires Valid()
      modifies this
      ensures Valid()
      ensures !dbOk || id >= |old(messages)| ==>
        code == (if dbOk then 404 else 500) && messages == old(messages) && outbox == old(outbox)
      ensures dbOk && id < |old(messages)| ==>
        var m := old(messages)[id];
        var rs := ToggleReaction(m.reactions, me, emoji);
        messages == old(messages)[id := m.(reactions := rs)]
        && (m.chat !in chats ==> code == 500 && outbox == old(outbox))
        && (m.chat in chats ==>
              code == 200 && reactions == rs
              && outbox == old(outbox) + Broadcast(chats[m.chat].participants, ReactionUpdate(id, m.chat, rs)))
      ensures chats == old(chats)
    {
      if !dbOk {
        return 500, [];
      }
      if id >= |messages| {
        return 404, [];
      }
      var m := messages[id];
      var rs := ToggleReaction(m.reactions, me, emoji);
      messages := messages[id := m.(reactions := rs)];
      if m.chat !in chats {
        return 500, [];
      }
      RecipientsMembers(chats[m.chat].participants, None);
      var out := Emissions(chats[m.chat].participants, None, ReactionUpdate(id, m.chat, rs));
      outbox := outbox + out;
      code, reactions := 200, rs;
    }

    /**
     * `DELETE /message/:id`: 404 for an unknown message, 403 unless `me`
     * sent it; otherwise it is soft-deleted and every participant hears
     * `message-deleted` (200), or the handler throws on a missing chat (500).
     */
    method Delete(me: ObjectId, id: ObjectId, dbOk: bool) returns (code: nat)
      requires Valid()
      modifies this
      ensures Valid()
      ensures !dbOk ==> code == 500 && messages == old(messages) && outbox == old(outbox)
      ensures dbOk && id >= |old(messages)| ==> code == 404 && messages == old(messages) && outbox == old(outbox)
      ensures dbOk && id < |old(messages)| && old(messages)[id].sender != me ==>
        code == 403 && messages == old(messages) && outbox == old(outbox)
      ensures dbOk && id < |old(messages)| && old(messages)[id].sender == me ==>
        var m := old(messages)[id];
        messages == old(messages)[id := SoftDelete(m)]
        && (m.chat !in chats ==> code == 500 && outbox == old(outbox))
        && (m.chat in chats ==>
              code == 200 && outbox == old(outbox) + Broadcast(chats[m.chat].participants, MessageDeleted(id, m.chat)))
      ensures chats == old(chats)
    {
      if !dbOk {
        return 500;
      }
      if id >= |messages| {
        return 404;
      }
      var m := messages[id];
      if m.sender != me {
        return 403;
      }
      messages := messages[id := SoftDelete(m)];
      if m.chat !in chats {
        return 500;
      }
      RecipientsMembers(chats[m.chat].participants, None);
      var out := Emissions(chats[m.chat].participants, None, MessageDeleted(id, m.chat));
      outbox := outbox + out;
      code := 200;
    }
  }

  /** Send reaches exactly the participants other than the sender, each with the stored message. */
  lemma SendReachesOthers(parts: seq<ObjectId>, me: ObjectId, m: Message)
    ensures var out := Broadcast(Recipients(parts, Some(me)), NewMessage(m));
      (forall k :: 0 <= k < |out| ==> out[k].room != me && out[k].room in parts && out[k].event == NewMessage(m))
      && (forall p :: p in parts && p != me ==> exists k :: 0 <= k < |out| && out[k].room == p)
  {
    var rs := Recipients(parts, Some(me));
    RecipientsMembers(parts, Some(me));
    BroadcastReaches(rs, NewMessage(m));
    var out := Broadcast(rs, NewMessage(m));
    forall k | 0 <= k < |out| ensures out[k].room != me && out[k].room in parts {
      assert out[k].room == rs[k] && rs[k] in rs;
    }
    forall p | p in parts && p != me ensures exists k :: 0 <= k < |out| && out[k].room == p {
      var k :| 0 <= k < |rs| && rs[k] == p;
      assert out[k].room == p;
    }
  }
}
