/**
 * The browser's conversation state (`ChatProvider`): the chat list, the
 * selected chat and its messages, kept in step with REST replies and
 * socket events.
 *
 * Each REST call is its reply, a parameter: `None` when the request
 * fails (the handler's `catch`). The REST requests the provider issues
 * are recorded (`posts`, `readRequests`), as are its `emitEvent` calls
 * (`outbox`); whether a socket carries them is the socket provider's
 * business. `new Date().toISOString()` is `now`.
 */
module ChatContext {
  import opened Common
  import opened MessageModel
  import opened ChatModel

  /** The `emitEvent` calls the provider makes. */
  datatype ClientEvent = JoinChat(chatId: ObjectId) | ReadReceipt(chatId: ObjectId, userId: Option<ObjectId>)

  /** The body of `POST /message`. */
  datatype Post = Post(chatId: ObjectId, content: string, kind: string, fileUrl: string, fileName: string, fileSize: int)

  predicate HasMessage(ms: seq<Message>, id: ObjectId) {
    exists k :: 0 <= k < |ms| && ms[k].id == id
  }

  predicate HasChat(chats: seq<Chat>, id: ObjectId) {
    exists k :: 0 <= k < |chats| && chats[k].id == id
  }

  predicate UniqueMessageIds(ms: seq<Message>) {
    forall i, j :: 0 <= i < j < |ms| ==> ms[i].id != ms[j].id
  }

  predicate UniqueChatIds(chats: seq<Chat>) {
    forall i, j :: 0 <= i < j < |chats| ==> chats[i].id != chats[j].id
  }

  /** An incoming message joins the list at the end unless a message with its id is already there. */
  function AppendNew(ms: seq<Message>, m: Message): (r: seq<Message>)
    ensures HasMessage(r, m.id)
    ensures HasMessage(ms, m.id) ==> r == ms
    ensures !HasMessage(ms, m.id) ==> r == ms + [m]
  {
    if HasMessage(ms, m.id) then ms
    else
      assert (ms + [m])[|ms|].id == m.id;
      ms + [m]
  }

  /** Receiving the same message twice is receiving it once. */
  lemma AppendNewIdempotent(ms: seq<Message>, m: Message)
    ensures AppendNew(AppendNew(ms, m), m) == AppendNew(ms, m)
  {
  }

  /** Appending only absent ids keeps every id in the list once. */
  lemma AppendNewKeepsIdsUnique(ms: seq<Message>, m: Message)
    requires UniqueMessageIds(ms)
    ensures UniqueMessageIds(AppendNew(ms, m))
  {
  }

  /** The chat list with one chat's last message and activity time updated in place. */
  function Touch(chats: seq<Chat>, chatId: ObjectId, m: Message, now: Millis): (r: seq<Chat>)
    ensures |r| == |chats|
    ensures forall i :: 0 <= i < |chats| && chats[i].id == chatId ==> r[i] == WithLastMessage(chats[i], m.id, now)
    ensures forall i :: 0 <= i < |chats| && chats[i].id != chatId ==> r[i] == chats[i]
  {
    seq(|chats|, i requires 0 <= i < |chats| =>
      if chats[i].id == chatId then WithLastMessage(chats[i], m.id, now) else chats[i])
  }

  /** `prev.map(...)` that bumps the message's chat, then `.sort(...)` by `updatedAt`, newest first. */
  function Bumped(chats: seq<Chat>, chatId: ObjectId, m: Message, now: Millis): (r: seq<Chat>)
    ensures SortedDesc(r, UpdatedAt)
  {
    SortDesc(Touch(chats, chatId, m, now), UpdatedAt)
  }

  /**
   * Bumping keeps every chat once, newest activity first: the bumped chat
   * now shows the message and `now`, and every other chat is unchanged.
   */
  lemma BumpedEffect(chats: seq<Chat>, chatId: ObjectId, m: Message, now: Millis)
    ensures var r := Bumped(chats, chatId, m, now);
      |r| == |chats| && SortedDesc(r, UpdatedAt)
      && (forall c :: c in r && c.id == chatId ==> c.lastMessage == Some(m.id) && c.updatedAt == now)
      && (forall c: Chat :: c.id != chatId ==> (c in r <==> c in chats))
  {
    var t := Touch(chats, chatId, m, now);
    SortDescPermutes(t, UpdatedAt);
    assert |multiset(Bumped(chats, chatId, m, now))| == |multiset(t)|;
    forall c: Chat | c.id != chatId
      ensures c in t <==> c in chats
    {
      if c in chats {
        var i :| 0 <= i < |chats| && chats[i] == c;
        assert t[i] == c;
      }
      if c in t {
        var i :| 0 <= i < |t| && t[i] == c;
        assert chats[i] == c;
      }
    }
  }

  /**
   * A reader added to a message's `readBy` (`includes`, then append),
   * unless already there. The entries are taken as bare ids: the populated
   * `{_id, name}` entries of loaded messages, which `includes` never
   * matches, are not told apart.
   */
  function AddReader(m: Message, u: ObjectId): (r: Message)
    ensures u in r.readBy
    ensures r.readBy == (if u in m.readBy then m.readBy else m.readBy + [u])
    ensures r == m.(readBy := r.readBy)
  {
    if u in m.readBy then m else m.(readBy := m.readBy + [u])
  }

  /** A read receipt lists each reader once. */
  lemma AddReaderKeepsReadersUnique(m: Message, u: ObjectId)
    requires NoDuplicates(m.readBy)
    ensures NoDuplicates(AddReader(m, u).readBy)
  {
    var r := AddReader(m, u).readBy;
    if u !in m.readBy {
      forall i, j | 0 <= i < j < |r|
        ensures r[i] != r[j]
      {
        if j == |m.readBy| {
          assert r[i] == m.readBy[i];
        }
      }
    }
  }

  /** `messages-read`: the reader joins every message's `readBy`. */
  function ReadAll(ms: seq<Message>, u: ObjectId): (r: seq<Message>)
    ensures |r| == |ms| && forall i :: 0 <= i < |ms| ==> r[i] == AddReader(ms[i], u)
  {
    seq(|ms|, i requires 0 <= i < |ms| => AddReader(ms[i], u))
  }

  /** A second receipt from the same reader changes nothing. */
  lemma ReadAllIdempotent(ms: seq<Message>, u: ObjectId)
    ensures ReadAll(ReadAll(ms, u), u) == ReadAll(ms, u)
  {
  }

  /** `message-deleted`: only the message with that id becomes the deletion notice. */
  function Deleted(ms: seq<Message>, id: ObjectId): (r: seq<Message>)
    ensures |r| == |ms|
    ensures forall i :: 0 <= i < |ms| && ms[i].id == id ==> r[i] == SoftDelete(ms[i])
    ensures forall i :: 0 <= i < |ms| && ms[i].id != id ==> r[i] == ms[i]
  {
    seq(|ms|, i requires 0 <= i < |ms| => if ms[i].id == id then SoftDelete(ms[i]) else ms[i])
  }

  /** `message-reaction`: only the message with that id takes the new reactions. */
  function Reacted(ms: seq<Message>, id: ObjectId, reactions: seq<Reaction>): (r: seq<Message>)
    ensures |r| == |ms|
    ensures forall i :: 0 <= i < |ms| && ms[i].id == id ==> r[i] == ms[i].(reactions := reactions)
    ensures forall i :: 0 <= i < |ms| && ms[i].id != id ==> r[i] == ms[i]
  {
    seq(|ms|, i requires 0 <= i < |ms| => if ms[i].id == id then ms[i].(reactions := reactions) else ms[i])
  }

  /** The message updates keep the list's ids, and so their uniqueness. */
  lemma UpdatesKeepIds(ms: seq<Message>, id: ObjectId, u: ObjectId, reactions: seq<Reaction>)
    requires UniqueMessageIds(ms)
    ensures UniqueMessageIds(ReadAll(ms, u)) && UniqueMessageIds(Deleted(ms, id))
    ensures UniqueMessageIds(Reacted(ms, id, reactions))
  {
  }

  /** `accessChat`: the chat goes to the front unless a chat with its id is already listed. */
  function AddChat(chats: seq<Chat>, c: Chat): (r: seq<Chat>)
    ensures HasChat(r, c.id)
    ensures HasChat(chats, c.id) ==> r == chats
    ensures !HasChat(chats, c.id) ==> r == [c] + chats
  {
    if HasChat(chats, c.id) then chats
    else
      assert ([c] + chats)[0].id == c.id;
      [c] + chats
  }

  /** Accessing a chat keeps every chat id listed once. */
  lemma AddChatKeepsIdsUnique(chats: seq<Chat>, c: Chat)
    requires UniqueChatIds(chats)
    ensures UniqueChatIds(AddChat(chats, c))
  {
    if !HasChat(chats, c.id) {
      var r := [c] + chats;
      forall i, j | 0 <= i < j < |r|
        ensures r[i].id != r[j].id
      {
        if i == 0 {
          assert r[j] == chats[j - 1];
        } else {
          assert r[i] == chats[i - 1] && r[j] == chats[j - 1];
        }
      }
    }
  }

  class ChatProvider {
    /** `useAuth().user`, by id. */
    const user: Option<ObjectId>

    var chats: seq<Chat>
    var selected: Option<Chat>
    var messages: seq<Message>
    /** Every `emitEvent` call, oldest first. */
    var outbox: seq<ClientEvent>
    /** Every `PUT /message/read/:chatId`, by chat id. */
    var readRequests: seq<ObjectId>
    /** Every `POST /message` body. */
    var posts: seq<Post>

    constructor (user: Option<ObjectId>)
      ensures this.user == user && chats == [] && selected.None? && messages == []
      ensures outbox == [] && readRequests == [] && posts == []
    {
      this.user := user;
      chats, selected, messages := [], None, [];
      outbox, readRequests, posts := [], [], [];
    }

    /** `fetchChats`: without a user nothing happens; a reply replaces the list. */
    method FetchChats(reply: Option<seq<Chat>>)
      modifies this
      ensures chats == if user.Some? && reply.Some? then reply.value else old(chats)
      ensures selected == old(selected) && messages == old(messages)
      ensures outbox == old(outbox) && readRequests == old(readRequests) && posts == old(posts)
    {
      if user.None? {
        return;
      }
      if reply.Some? {
        chats := reply.value;
      }
    }

    /**
     * `loadMessages`: a reply replaces the messages and the chat is marked
     * read; once that succeeds (`readOk`) the read receipt goes out, with
     * the user's id (a missing user throws, and nothing goes out).
     */
    method LoadMessages(chatId: Option<ObjectId>, reply: Option<seq<Message>>, readOk: bool)
      modifies this
      ensures chatId.None? || reply.None? ==>
        messages == old(messages) && readRequests == old(readRequests) && outbox == old(outbox)
      ensures chatId.Some? && reply.Some? ==>
        messages == reply.value && readRequests == old(readRequests) + [chatId.value]
        && outbox == old(outbox) + (if readOk && user.Some? then [ReadReceipt(chatId.value, user)] else [])
      ensures chats == old(chats) && selected == old(selected) && posts == old(posts)
    {
      if chatId.None? || reply.None? {
        return;
      }
      messages := reply.value;
      readRequests := readRequests + [chatId.value];
      if readOk && user.Some? {
        outbox := outbox + [ReadReceipt(chatId.value, user)];
      }
    }

    /** `selectChat`: a chat is joined and its messages loaded; no chat clears the messages. */
    method SelectChat(chat: Option<Chat>, reply: Option<seq<Message>>, readOk: bool)
      modifies this
      ensures selected == chat && chats == old(chats) && posts == old(posts)
      ensures chat.None? ==> messages == [] && outbox == old(outbox) && readRequests == old(readRequests)
      ensures chat.Some? && reply.None? ==>
        messages == old(messages) && outbox == old(outbox) + [JoinChat(chat.value.id)]
        && readRequests == old(readRequests)
      ensures chat.Some? && reply.Some? ==>
        messages == reply.value && readRequests == old(readRequests) + [chat.value.id]
        && outbox == old(outbox) + [JoinChat(chat.value.id)]
                   + (if readOk && user.Some? then [ReadReceipt(chat.value.id, user)] else [])
    {
      selected := chat;
      if chat.Some? {
        outbox := outbox + [JoinChat(chat.value.id)];
        LoadMessages(Some(chat.value.id), reply, readOk);
      } else {
        messages := [];
      }
    }

    /** The raw `setSelectedChat` setter the provider also hands out: no room is joined and nothing is loaded. */
    method SetSelectedChat(chat: Option<Chat>)
      modifies this
      ensures selected == chat && chats == old(chats) && messages == old(messages)
      ensures outbox == old(outbox) && readRequests == old(readRequests) && posts == old(posts)
    {
      selected := chat;
    }

    /**
     * `sendMessage`: without a selected chat it returns `None` and changes
     * nothing. Otherwise the post goes out with its defaults, and the reply
     * is appended and bumps the selected chat in the re-sorted list.
     */
    method SendMessage(content: string, kind: Option<string>, fileUrl: Option<string>, fileName: Option<string>,
                       fileSize: Option<int>, reply: Option<Message>, now: Millis) returns (r: Option<Message>)
      modifies this
      ensures old(selected).None? ==>
        r.None? && chats == old(chats) && messages == old(messages) && posts == old(posts)
      ensures old(selected).Some? ==>
        posts == old(posts) + [Post(old(selected).value.id, content, kind.GetOr("text"), fileUrl.GetOr(""),
                                    fileName.GetOr(""), fileSize.GetOr(0))]
        && r == reply
        && (reply.None? ==> chats == old(chats) && messages == old(messages))
        && (reply.Some? ==> messages == old(messages) + [reply.value]
                            && chats == Bumped(old(chats), old(selected).value.id, reply.value, now))
      ensures selected == old(selected) && outbox == old(outbox) && readRequests == old(readRequests)
    {
      if selected.None? {
        return None;
      }
      var id := selected.value.id;
      posts := posts + [Post(id, content, kind.GetOr("text"), fileUrl.GetOr(""), fileName.GetOr(""), fileSize.GetOr(0))];
      if reply.None? {
        return None;
      }
      messages := messages + [reply.value];
      chats := Bumped(chats, id, reply.value, now);
      r := reply;
    }

    /** `accessChat`: the replied chat is listed at the front unless present, then selected. */
    method AccessChat(reply: Option<Chat>, messagesReply: Option<seq<Message>>, readOk: bool) returns (r: Option<Chat>)
      modifies this
      ensures r == reply && posts == old(posts)
      ensures reply.None? ==>
        chats == old(chats) && selected == old(selected) && messages == old(messages)
        && outbox == old(outbox) && readRequests == old(readRequests)
      ensures reply.Some? ==> chats == AddChat(old(chats), reply.value) && selected == reply
      ensures reply.Some? && messagesReply.None? ==> messages == old(messages) && readRequests == old(readRequests)
      ensures reply.Some? && messagesReply.Some? ==>
        messages == messagesReply.value && readRequests == old(readRequests) + [reply.value.id]
      ensures reply.Some? ==>
        outbox == old(outbox) + [JoinChat(reply.value.id)]
                 + (if messagesReply.Some? && readOk && user.Some? then [ReadReceipt(reply.value.id, user)] else [])
    {
      if reply.None? {
        return None;
      }
      chats := AddChat(chats, reply.value);
      SelectChat(reply, messagesReply, readOk);
      r := reply;
    }

    /** `createGroupChat`: the replied group goes to the front of the list and is selected. */
    method CreateGroupChat(reply: Option<Chat>, messagesReply: Option<seq<Message>>, readOk: bool)
      returns (r: Option<Chat>)
      modifies this
      ensures r == reply && posts == old(posts)
      ensures reply.None? ==>
        chats == old(chats) && selected == old(selected) && messages == old(messages)
        && outbox == old(outbox) && readRequests == old(readRequests)
      ensures reply.Some? ==> chats == [reply.value] + old(chats) && selected == reply
      ensures reply.Some? && messagesReply.None? ==> messages == old(messages) && readRequests == old(readRequests)
      ensures reply.Some? && messagesReply.Some? ==>
        messages == messagesReply.value && readRequests == old(readRequests) + [reply.value.id]
      ensures reply.Some? ==>
        outbox == old(outbox) + [JoinChat(reply.value.id)]
                 + (if messagesReply.Some? && readOk && user.Some? then [ReadReceipt(reply.value.id, user)] else [])
    {
      if reply.None? {
        return None;
      }
      chats := [reply.value] + chats;
      SelectChat(reply, messagesReply, readOk);
      r := reply;
    }

    /**
     * The `new-message` and `message-received` listener. A message of the
     * selected chat whose `chat` is populated joins the list once, marks the
     * chat read and sends a receipt; every message bumps its chat.
     */
    method OnNewMessage(m: Message, chatPopulated: bool, now: Millis)
      modifies this
      ensures var mine := old(selected).Some? && chatPopulated && m.chat == old(selected).value.id;
        (mine ==> messages == AppendNew(old(messages), m)
                  && readRequests == old(readRequests) + [m.chat]
                  && outbox == old(outbox) + [ReadReceipt(m.chat, user)])
        && (!mine ==> messages == old(messages) && readRequests == old(readRequests) && outbox == old(outbox))
      ensures chats == Bumped(old(chats), m.chat, m, now)
      ensures selected == old(selected) && posts == old(posts)
    {
      if selected.Some? && chatPopulated && m.chat == selected.value.id {
        messages := AppendNew(messages, m);
        readRequests := readRequests + [m.chat];
        outbox := outbox + [ReadReceipt(m.chat, user)];
      }
      chats := Bumped(chats, m.chat, m, now);
    }

    method OnMessageDeleted(messageId: ObjectId)
      modifies this
      ensures messages == Deleted(old(messages), messageId)
      ensures chats == old(chats) && selected == old(selected)
      ensures outbox == old(outbox) && readRequests == old(readRequests) && posts == old(posts)
    {
      messages := Deleted(messages, messageId);
    }

    /** The `messages-read` listener: only a receipt for the selected chat counts. */
    method OnMessagesRead(chatId: ObjectId, readBy: ObjectId)
      modifies this
      ensures messages == if old(selected).Some? && chatId == old(selected).value.id
                          then ReadAll(old(messages), readBy) else old(messages)
      ensures chats == old(chats) && selected == old(selected)
      ensures outbox == old(outbox) && readRequests == old(readRequests) && posts == old(posts)
    {
      if selected.Some? && chatId == selected.value.id {
        messages := ReadAll(messages, readBy);
      }
    }

    method OnReaction(messageId: ObjectId, reactions: seq<Reaction>)
      modifies this
      ensures messages == Reacted(old(messages), messageId, reactions)
      ensures chats == old(chats) && selected == old(selected)
      ensures outbox == old(outbox) && readRequests == old(readRequests) && posts == old(posts)
    {
      messages := Reacted(messages, messageId, reactions);
    }
  }
}
