/**
 * The chat list beside the conversation: each chat's name, picture,
 * online dot, preview line and unread badge, the people search, and
 * opening a chat from either list.
 *
 * The chat list arrives populated: participants are people and the last
 * message, when the server populated it, is a message. The search and
 * `POST /chat` calls are their replies, parameters; `None` is a failed
 * call, which the component only logs. The 300 ms debounce is reduced to
 * `SearchFired`, the timeout that was not cleared by a later keystroke.
 */
module Sidebar {
  import opened Common
  import opened Text
  import opened MessageModel
  import opened ChatModel
  import opened ChatContext
  import NotificationContext

  /** A populated participant or search result; `lastSeen` may be missing. */
  datatype Person = Person(id: ObjectId, name: string, avatar: string, lastSeen: Option<Millis>)

  /** A chat's `lastMessage` as received: none, an unpopulated id, or the message itself. */
  datatype LastMessage = NoLast | IdOnly(id: ObjectId) | Populated(message: Message)

  /** A chat as the list renders it; `participants` may be missing. */
  datatype ChatCard = ChatCard(
    id: ObjectId,
    isGroup: bool,
    groupName: string,
    groupAvatar: string,
    participants: Option<seq<Person>>,
    lastMessage: LastMessage)

  /** The preview line under a chat's name; the icon in front of each fixed label is left out. */
  datatype Preview = NoMessagesYet | DeletedPreview | PhotoPreview | VoicePreview
                   | DocumentPreview | VideoPreview | TextPreview(text: string)

  /** Which parts of the list are rendered: the people found, the chat list, the "No chats yet" note. */
  datatype Panels = Panels(people: bool, chatList: bool, noChats: bool)

  /** The trimmed length from which a search reaches the server. */
  const MinQueryLength: nat := 2
  const UnknownName: string := "Unknown"
  const Overflow: string := "99+"

  /** The position of the first participant who is not `me`, or `|ps|` when there is none. */
  function FirstOther(ps: seq<Person>, me: Option<ObjectId>): (k: nat)
    ensures k <= |ps|
    ensures forall j :: 0 <= j < k ==> me == Some(ps[j].id)
    ensures k < |ps| ==> me != Some(ps[k].id)
  {
    if ps == [] then 0
    else if me != Some(ps[0].id) then 0
    else
      var k := 1 + FirstOther(ps[1..], me);
      assert forall j :: 1 <= j < k ==> ps[j] == ps[1..][j - 1];
      k
  }

  /**
   * `getOtherUser`: nobody for a group or a chat without participants,
   * otherwise the first participant who is not the viewer (anyone, when
   * nobody is signed in), and nobody when every participant is the viewer.
   */
  function OtherUser(c: ChatCard, me: Option<ObjectId>): (r: Option<Person>)
    ensures c.isGroup || c.participants.None? ==> r.None?
    ensures r.Some? ==> c.participants.Some? && r.value in c.participants.value && me != Some(r.value.id)
    ensures !c.isGroup && c.participants.Some? && r.None? ==>
      forall p :: p in c.participants.value ==> me == Some(p.id)
    ensures !c.isGroup && me.None? && c.participants.Some? && c.participants.value != [] ==>
      r == Some(c.participants.value[0])
  {
    if c.isGroup || c.participants.None? then None
    else
      var ps := c.participants.value;
      var k := FirstOther(ps, me);
      if k < |ps| then Some(ps[k]) else None
  }

  /** `getChatName`: a group's name as stored; otherwise the other person's name, or "Unknown" without one. */
  function ChatName(c: ChatCard, me: Option<ObjectId>): (r: string)
    ensures c.isGroup ==> r == c.groupName
    ensures !c.isGroup ==> r != ""
    ensures !c.isGroup && OtherUser(c, me).Some? && OtherUser(c, me).value.name != "" ==>
      r == OtherUser(c, me).value.name
    ensures !c.isGroup && (OtherUser(c, me).None? || OtherUser(c, me).value.name == "") ==> r == UnknownName
  {
    if c.isGroup then c.groupName
    else
      var other := OtherUser(c, me);
      if other.Some? && other.value.name != "" then other.value.name else UnknownName
  }

  /** `getChatAvatar`: a group's picture; otherwise the other person's, and none without another person. */
  function ChatAvatar(c: ChatCard, me: Option<ObjectId>): (r: Option<string>)
    ensures c.isGroup ==> r == Some(c.groupAvatar)
    ensures !c.isGroup ==> (r.Some? <==> OtherUser(c, me).Some?)
    ensures !c.isGroup && r.Some? ==> r.value == OtherUser(c, me).value.avatar
  {
    if c.isGroup then Some(c.groupAvatar)
    else
      var other := OtherUser(c, me);
      if other.Some? then Some(other.value.avatar) else None
  }

  /**
   * `getLastMessage`: "No messages yet" exactly when there is none; an
   * unpopulated id shows nothing; a deleted message shows the deleted
   * label whatever its type; a live file message shows its type's label,
   * and only a live text or system message shows its content.
   */
  function PreviewOf(lm: LastMessage): (r: Preview)
    ensures lm.NoLast? <==> r == NoMessagesYet
    ensures lm.IdOnly? ==> r == TextPreview("")
    ensures lm.Populated? && lm.message.isDeleted ==> r == DeletedPreview
    ensures lm.Populated? && !lm.message.isDeleted ==>
      (r.TextPreview? <==> lm.message.msgType == TextMsg || lm.message.msgType == SystemMsg)
    ensures lm.Populated? && r.TextPreview? ==> !lm.message.isDeleted && r.text == lm.message.content
    ensures lm.Populated? && !lm.message.isDeleted && lm.message.msgType == ImageMsg ==> r == PhotoPreview
    ensures lm.Populated? && !lm.message.isDeleted && lm.message.msgType == VoiceMsg ==> r == VoicePreview
    ensures lm.Populated? && !lm.message.isDeleted && lm.message.msgType == DocumentMsg ==> r == DocumentPreview
    ensures lm.Populated? && !lm.message.isDeleted && lm.message.msgType == VideoMsg ==> r == VideoPreview
  {
    match lm
    case NoLast => NoMessagesYet
    case IdOnly(_) => TextPreview("")
    case Populated(m) =>
      if m.isDeleted then DeletedPreview
      else if MessageTypeName(m.msgType) == "image" then PhotoPreview
      else if MessageTypeName(m.msgType) == "voice" then VoicePreview
      else if MessageTypeName(m.msgType) == "document" then DocumentPreview
      else if MessageTypeName(m.msgType) == "video" then VideoPreview
      else TextPreview(m.content)
  }

  /**
   * The unread badge, from `unreadCounts[chat._id] || 0`: none at 0,
   * "99+" above 99, otherwise the count in one or two digits.
   */
  function Badge(counts: seq<NotificationContext.Entry>, chatId: ObjectId): (r: Option<string>)
    ensures r.None? <==> NotificationContext.Get(counts, chatId) == 0
    ensures r.Some? && NotificationContext.Get(counts, chatId) > 99 ==> r.value == Overflow
    ensures r.Some? && NotificationContext.Get(counts, chatId) <= 99 ==>
      1 <= |r.value| <= 2 && AllDigits(r.value) && ParseNat(r.value) == NotificationContext.Get(counts, chatId)
  {
    var n := NotificationContext.Get(counts, chatId);
    if n == 0 then None
    else if n > 99 then Some(Overflow)
    else
      ParseNatToString(n);
      Some(NatToString(n))
  }

  /** `isOtherOnline`: never for a group; otherwise whether the other person is in the online set. */
  function OtherOnline(c: ChatCard, me: Option<ObjectId>, online: set<ObjectId>): (r: bool)
    ensures c.isGroup || c.participants.None? ==> !r
    ensures r ==> c.participants.Some? && exists p :: p in c.participants.value && me != Some(p.id) && p.id in online
    ensures r <==> OtherUser(c, me).Some? && OtherUser(c, me).value.id in online
  {
    var other := OtherUser(c, me);
    other.Some? && other.value.id in online
  }

  /**
   * What the list renders: the people found while there is a search text
   * and results, the chat list (or its empty note) on the chats tab only
   * while the search box is empty; never both.
   */
  function PanelsShown(chatsTab: bool, search: string, results: nat, chats: nat): (r: Panels)
    ensures r.people <==> search != "" && results > 0
    ensures r.chatList <==> chatsTab && search == "" && chats > 0
    ensures r.noChats <==> chatsTab && search == "" && chats == 0
    ensures !(r.people && (r.chatList || r.noChats)) && !(r.chatList && r.noChats)
  {
    Panels(search != "" && results > 0, chatsTab && search == "" && chats > 0, chatsTab && search == "" && chats == 0)
  }

  class SidebarPanel {
    var search: string
    var results: seq<Person>
    /** Every `GET /auth/users?search=` query, oldest first. */
    var queries: seq<string>
    /** Every `POST /chat` request's `userId`, oldest first. */
    var opens: seq<ObjectId>

    constructor ()
      ensures search == "" && results == [] && queries == [] && opens == []
    {
      search, results, queries, opens := "", [], [], [];
    }

    /** Typing in the search box. */
    method SearchChanged(text: string)
      modifies this
      ensures search == text && results == old(results) && queries == old(queries) && opens == old(opens)
    {
      search := text;
    }

    /**
     * The debounced search: a query of at least two characters once
     * trimmed is sent as typed, and a reply replaces the results (a failure
     * keeps them); a shorter one clears them without a request.
     */
    method SearchFired(reply: Option<seq<Person>>)
      modifies this
      ensures search == old(search) && opens == old(opens)
      ensures |Trim(search)| >= MinQueryLength ==>
        queries == old(queries) + [search] && results == (if reply.Some? then reply.value else old(results))
      ensures |Trim(search)| < MinQueryLength ==> queries == old(queries) && results == []
    {
      if |Trim(search)| >= MinQueryLength {
        queries := queries + [search];
        if reply.Some? {
          results := reply.value;
        }
      } else {
        results := [];
      }
    }

    /**
     * `openChat` as written: the chat the server returns becomes the
     * selected one through the raw setter and its messages are loaded, and
     * the search is cleared. No `join-chat` goes out, and the chat list
     * does not gain the chat.
     */
    method OpenChat(other: Person, reply: Option<Chat>, messagesReply: Option<seq<Message>>, readOk: bool,
                    chat: ChatProvider)
      modifies this, chat
      ensures opens == old(opens) + [other.id] && queries == old(queries)
      ensures chat.chats == old(chat.chats) && chat.posts == old(chat.posts)
      ensures reply.None? ==>
        search == old(search) && results == old(results) && chat.selected == old(chat.selected)
        && chat.messages == old(chat.messages) && chat.outbox == old(chat.outbox)
        && chat.readRequests == old(chat.readRequests)
      ensures reply.Some? ==>
        search == "" && results == [] && chat.selected == reply
        && chat.outbox == old(chat.outbox)
                          + (if messagesReply.Some? && readOk && chat.user.Some?
                             then [ReadReceipt(reply.value.id, chat.user)] else [])
        && JoinChat(reply.value.id) !in chat.outbox[|old(chat.outbox)|..]
      ensures reply.Some? ==>
        chat.messages == (if messagesReply.Some? then messagesReply.value else old(chat.messages))
        && chat.readRequests == old(chat.readRequests) + (if messagesReply.Some? then [reply.value.id] else [])
    {
      opens := opens + [other.id];
      if reply.None? {
        return;
      }
      chat.SetSelectedChat(reply);
      chat.LoadMessages(Some(reply.value.id), messagesReply, readOk);
      search, results := "", [];
    }

    /** `openChat` as evidently intended: through `selectChat`, which joins the chat's room first. */
    method OpenChatJoining(other: Person, reply: Option<Chat>, messagesReply: Option<seq<Message>>, readOk: bool,
                           chat: ChatProvider)
      modifies this, chat
      ensures opens == old(opens) + [other.id] && queries == old(queries)
      ensures chat.chats == old(chat.chats) && chat.posts == old(chat.posts)
      ensures reply.None? ==>
        search == old(search) && results == old(results) && chat.selected == old(chat.selected)
        && chat.outbox == old(chat.outbox) && chat.messages == old(chat.messages)
        && chat.readRequests == old(chat.readRequests)
      ensures reply.Some? ==>
        search == "" && results == [] && chat.selected == reply
        && |chat.outbox| > |old(chat.outbox)| && chat.outbox[|old(chat.outbox)|] == JoinChat(reply.value.id)
      ensures reply.Some? ==>
        chat.outbox == old(chat.outbox) + [JoinChat(reply.value.id)]
                       + (if messagesReply.Some? && readOk && chat.user.Some?
                          then [ReadReceipt(reply.value.id, chat.user)] else [])
        && chat.messages == (if messagesReply.Some? then messagesReply.value else old(chat.messages))
        && chat.readRequests == old(chat.readRequests) + (if messagesReply.Some? then [reply.value.id] else [])
    {
      opens := opens + [other.id];
      if reply.None? {
        return;
      }
      chat.SelectChat(reply, messagesReply, readOk);
      search, results := "", [];
    }
  }

  /** A click on a listed chat as written: the raw setter and a load, and no `join-chat`. */
  method OpenListed(chat: ChatProvider, k: nat, messagesReply: Option<seq<Message>>, readOk: bool)
    requires k < |chat.chats|
    modifies chat
    ensures chat.selected == Some(old(chat.chats[k])) && chat.chats == old(chat.chats)
    ensures chat.outbox == old(chat.outbox)
                           + (if messagesReply.Some? && readOk && chat.user.Some?
                              then [ReadReceipt(old(chat.chats[k]).id, chat.user)] else [])
    ensures JoinChat(old(chat.chats[k]).id) !in chat.outbox[|old(chat.outbox)|..]
    ensures chat.messages == (if messagesReply.Some? then messagesReply.value else old(chat.messages))
    ensures chat.readRequests == old(chat.readRequests) + (if messagesReply.Some? then [old(chat.chats[k]).id] else [])
    ensures chat.posts == old(chat.posts)
  {
    var c := chat.chats[k];
    chat.SetSelectedChat(Some(c));
    chat.LoadMessages(Some(c.id), messagesReply, readOk);
  }

  /** A click on a listed chat as evidently intended: `selectChat`, which joins the chat's room. */
  method OpenListedJoining(chat: ChatProvider, k: nat, messagesReply: Option<seq<Message>>, readOk: bool)
    requires k < |chat.chats|
    modifies chat
    ensures chat.selected == Some(old(chat.chats[k])) && chat.chats == old(chat.chats)
    ensures |chat.outbox| > |old(chat.outbox)| && chat.outbox[|old(chat.outbox)|] == JoinChat(old(chat.chats[k]).id)
    ensures chat.outbox == old(chat.outbox) + [JoinChat(old(chat.chats[k]).id)]
                           + (if messagesReply.Some? && readOk && chat.user.Some?
                              then [ReadReceipt(old(chat.chats[k]).id, chat.user)] else [])
    ensures chat.messages == (if messagesReply.Some? then messagesReply.value else old(chat.messages))
    ensures chat.readRequests == old(chat.readRequests) + (if messagesReply.Some? then [old(chat.chats[k]).id] else [])
    ensures chat.posts == old(chat.posts)
  {
    var c := chat.chats[k];
    chat.SelectChat(Some(c), messagesReply, readOk);
  }
}
