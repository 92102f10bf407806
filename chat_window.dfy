/**
 * The open conversation: its header (name, picture, status line, call
 * buttons), the message bubbles (ticks, file content, date separators,
 * hover actions) and the composer (typing signals, sending, uploads,
 * reactions, deletion).
 *
 * The window is shown only while the chat provider has a selected chat,
 * so every handler requires one. REST calls are recorded in `requests`
 * with their outcome as a parameter, and `emitEvent` calls in `emits`.
 * The 2-second stop-typing timeout is `stopPending`, the chat it was
 * armed for; `TypingTimeout` is that timeout firing. Date labels depend
 * on the clock and the locale, so the separators take the labels as
 * given.
 */
module ChatWindow {
  import opened Common
  import opened Text
  import opened MessageModel
  import opened ChatContext
  import opened Sidebar
  import SocketContext
  import NotificationContext

  /** The header's second line. */
  datatype StatusLine = TypingLine | MembersLine(names: string) | NoLine | OnlineLine
                      | LastSeenLine(at: Millis) | OfflineLine

  /** The ticks on an own message's bubble. */
  datatype Tick = SentTick | DeliveredTick | ReadTick

  /** What a bubble shows of an attached file; `src` is the file's address on the server. */
  datatype FileView = ImageView(src: string) | VideoView(src: string) | AudioView(src: string)
                    | DocumentLink(src: string, caption: string)

  /** The hover actions of a bubble: the reaction picker button and the delete button. */
  datatype Actions = Actions(react: bool, remove: bool)

  /** The `emitEvent` calls of the window. */
  datatype Emit = TypingEmit(chatId: ObjectId, userId: ObjectId, userName: string)
                | StopTypingEmit(chatId: ObjectId, userId: ObjectId)

  /** The REST calls of the window other than sending. */
  datatype Request = UploadReq(endpoint: string) | ReactReq(messageId: ObjectId, emoji: string)
                   | DeleteReq(messageId: ObjectId)

  /** What the upload endpoint answers. */
  datatype Uploaded = Uploaded(fileUrl: string, fileName: string, fileSize: int)

  const ServerOrigin: string := "http://localhost:5000"
  const DeletedBubble: string := "\U{1F6AB} This message was deleted"
  const DocumentFallback: string := "Document"
  const ReactionEmojis: seq<string> := ["\U{1F44D}", "\U{2764}\U{FE0F}", "\U{1F602}", "\U{1F62E}", "\U{1F622}", "\U{1F64F}"]
  /** How long after the last keystroke the stop-typing signal goes out. */
  const StopTypingDelay: Millis := 2000

  function Names(ps: seq<Person>): (r: seq<string>)
    ensures |r| == |ps| && forall i :: 0 <= i < |ps| ==> r[i] == ps[i].name
  {
    seq(|ps|, i requires 0 <= i < |ps| => ps[i].name)
  }

  /**
   * `getStatusText`, first match wins: someone typing in this chat; for a
   * group its participants' names; the other person online; their last
   * seen time; otherwise offline. A group without participants shows nothing.
   */
  function StatusOf(c: ChatCard, me: Option<ObjectId>, online: set<ObjectId>,
                    typing: map<ObjectId, SocketContext.Typist>): (r: StatusLine)
    ensures r == TypingLine <==> c.id in typing
    ensures c.id !in typing && c.isGroup ==>
      r == if c.participants.Some? then MembersLine(JoinWith(Names(c.participants.value), ", ")) else NoLine
    ensures r == OnlineLine <==> c.id !in typing && OtherOnline(c, me, online)
    ensures r.LastSeenLine? ==>
      c.id !in typing && !c.isGroup && !OtherOnline(c, me, online)
      && OtherUser(c, me).Some? && OtherUser(c, me).value.lastSeen == Some(r.at)
    ensures r == OfflineLine ==>
      c.id !in typing && !c.isGroup && !OtherOnline(c, me, online)
      && (OtherUser(c, me).None? || OtherUser(c, me).value.lastSeen.None?)
  {
    if c.id in typing then TypingLine
    else if c.isGroup then
      (if c.participants.Some? then MembersLine(JoinWith(Names(c.participants.value), ", ")) else NoLine)
    else if OtherOnline(c, me, online) then OnlineLine
    else
      var other := OtherUser(c, me);
      if other.Some? && other.value.lastSeen.Some? then LastSeenLine(other.value.lastSeen.value) else OfflineLine
  }

  /** The voice and video call buttons: only in a one-to-one chat with another person. */
  function CallButtons(c: ChatCard, me: Option<ObjectId>): (r: bool)
    ensures r ==> !c.isGroup && c.participants.Some?
    ensures r <==> !c.isGroup && OtherUser(c, me).Some?
  {
    !c.isGroup && OtherUser(c, me).Some?
  }

  /** The readers of a message other than the viewer. */
  function ReadByOthers(m: Message, me: Option<ObjectId>): (r: seq<ObjectId>)
    ensures forall id :: id in r <==> id in m.readBy && Some(id) != me
  {
    Filter(m.readBy, (id: ObjectId) => Some(id) != me)
  }

  /**
   * `renderTicks`: only on the viewer's own messages; read once anyone
   * else is among the readers, else delivered, else sent.
   */
  function TicksOf(m: Message, me: Option<ObjectId>): (r: Option<Tick>)
    ensures r.None? <==> me != Some(m.sender)
    ensures r == Some(ReadTick) <==> me == Some(m.sender) && exists id :: id in m.readBy && Some(id) != me
    ensures r == Some(DeliveredTick) <==>
      me == Some(m.sender) && m.isDelivered && forall id :: id in m.readBy ==> Some(id) == me
    ensures r == Some(SentTick) <==>
      me == Some(m.sender) && !m.isDelivered && forall id :: id in m.readBy ==> Some(id) == me
  {
    if me != Some(m.sender) then None
    else
      var others := ReadByOthers(m, me);
      if |others| > 0 then
        assert others[0] in others;
        Some(ReadTick)
      else if m.isDelivered then Some(DeliveredTick)
      else Some(SentTick)
  }

  /** The upload endpoint: `voice` for audio files, `chat` for every other file. */
  function UploadEndpoint(mime: string): (r: string)
    ensures r == "voice" <==> StartsWith(mime, "audio")
    ensures r == "voice" || r == "chat"
  {
    if StartsWith(mime, "audio") then "voice" else "chat"
  }

  /**
   * The message type of an uploaded file, from its MIME type's prefix:
   * image, video or audio (a voice message); a document otherwise.
   */
  function UploadMessageType(mime: string): (r: MessageType)
    ensures r == ImageMsg <==> StartsWith(mime, "image")
    ensures r == VideoMsg <==> StartsWith(mime, "video")
    ensures r == VoiceMsg <==> StartsWith(mime, "audio")
    ensures r == DocumentMsg <==> !StartsWith(mime, "image") && !StartsWith(mime, "video") && !StartsWith(mime, "audio")
  {
    if StartsWith(mime, "audio") then VoiceMsg
    else if StartsWith(mime, "video") then VideoMsg
    else if StartsWith(mime, "image") then ImageMsg
    else DocumentMsg
  }

  /** A file goes to the voice endpoint exactly when it becomes a voice message. */
  lemma UploadEndpointMatchesType(mime: string)
    ensures UploadEndpoint(mime) == "voice" <==> UploadMessageType(mime) == VoiceMsg
    ensures UploadMessageType(mime) != TextMsg && UploadMessageType(mime) != SystemMsg
  {
  }

  /** The text of a bubble: a fixed notice for a deleted message, its content otherwise. */
  function BubbleText(m: Message): (r: string)
    ensures m.isDeleted ==> r == DeletedBubble
    ensures !m.isDeleted ==> r == m.content
  {
    if m.isDeleted then DeletedBubble else m.content
  }

  /** After `message-deleted`, that message's bubble shows the notice and every other bubble reads as before. */
  lemma DeletedBubbles(ms: seq<Message>, id: ObjectId)
    ensures var r := Deleted(ms, id);
      |r| == |ms|
      && forall i :: 0 <= i < |ms| ==> BubbleText(r[i]) == (if ms[i].id == id then DeletedBubble else BubbleText(ms[i]))
  {
  }

  /**
   * `renderFileContent` behind `!msg.isDeleted`: a deleted message or one
   * without a file shows none, a text or system message never does, and
   * each file type shows its own element pointing at the server's copy.
   */
  function FileOf(m: Message): (r: Option<FileView>)
    ensures m.isDeleted || m.fileUrl == "" || m.msgType == TextMsg || m.msgType == SystemMsg ==> r.None?
    ensures r.Some? ==> r.value.src == ServerOrigin + m.fileUrl
    ensures r.Some? && r.value.DocumentLink? ==>
      m.msgType == DocumentMsg && r.value.caption == (if m.fileName != "" then m.fileName else DocumentFallback)
    ensures !m.isDeleted && m.fileUrl != "" ==>
      (m.msgType == ImageMsg ==> r == Some(ImageView(ServerOrigin + m.fileUrl)))
      && (m.msgType == VideoMsg ==> r == Some(VideoView(ServerOrigin + m.fileUrl)))
      && (m.msgType == VoiceMsg ==> r == Some(AudioView(ServerOrigin + m.fileUrl)))
      && (m.msgType == DocumentMsg ==> r.Some? && r.value.DocumentLink?)
  {
    if m.isDeleted || m.fileUrl == "" then None
    else
      var src := ServerOrigin + m.fileUrl;
      match m.msgType
      case ImageMsg => Some(ImageView(src))
      case VideoMsg => Some(VideoView(src))
      case VoiceMsg => Some(AudioView(src))
      case DocumentMsg => Some(DocumentLink(src, if m.fileName != "" then m.fileName else DocumentFallback))
      case _ => None
  }

  /** The hover actions: none on a deleted message; delete only on the viewer's own. */
  function ActionsOf(m: Message, me: Option<ObjectId>): (r: Actions)
    ensures r.react <==> !m.isDeleted
    ensures r.remove <==> !m.isDeleted && me == Some(m.sender)
    ensures r.remove ==> r.react
  {
    Actions(!m.isDeleted, !m.isDeleted && me == Some(m.sender))
  }

  /** The reaction button: opens the picker on a message, or closes it when already open there. */
  function ToggledPicker(open: Option<ObjectId>, messageId: ObjectId): (r: Option<ObjectId>)
    ensures r == Some(messageId) <==> open != Some(messageId)
    ensures r.None? <==> open == Some(messageId)
  {
    if open == Some(messageId) then None else Some(messageId)
  }

  /** Pressing the same reaction button twice restores the picker state. */
  lemma ToggledPickerTwice(open: Option<ObjectId>, messageId: ObjectId)
    requires open.None? || open == Some(messageId)
    ensures ToggledPicker(ToggledPicker(open, messageId), messageId) == open
  {
  }

  /** Whether message `i` opens with a date separator: the first does, and any whose label differs from the one before. */
  predicate SeparatorAt(labels: seq<string>, i: nat)
    requires i < |labels|
  {
    i == 0 || labels[i] != labels[i - 1]
  }

  /**
   * The message list's pass with `lastDate`: a separator before every
   * message whose date label differs from the previous message's.
   */
  method DateSeparators(labels: seq<string>) returns (shows: seq<bool>)
    ensures |shows| == |labels|
    ensures forall i :: 0 <= i < |labels| ==> (shows[i] <==> i == 0 || labels[i] != labels[i - 1])
  {
    var lastDate: Option<string> := None;
    shows := [];
    var i := 0;
    while i < |labels|
      invariant 0 <= i <= |labels| && |shows| == i
      invariant forall k :: 0 <= k < i ==> (shows[k] <==> SeparatorAt(labels, k))
      invariant lastDate == if i == 0 then None else Some(labels[i - 1])
    {
      var msgDate := labels[i];
      shows := shows + [lastDate != Some(msgDate)];
      lastDate := Some(msgDate);
      i := i + 1;
    }
  }

  class ChatWindowState {
    /** The conversation state the window reads and sends through. */
    const chat: ChatProvider
    /** The signed-in user. */
    const me: ObjectId
    const myName: string

    var input: string
    var showEmoji: bool
    var isRecording: bool
    /** The message whose reaction picker is open. */
    var pickerFor: Option<ObjectId>
    /** The chat the pending stop-typing timeout was armed for. */
    var stopPending: Option<ObjectId>
    var emits: seq<Emit>
    var requests: seq<Request>

    constructor (chat: ChatProvider, me: ObjectId, myName: string)
      ensures this.chat == chat && this.me == me && this.myName == myName
      ensures input == "" && !showEmoji && !isRecording && pickerFor.None? && stopPending.None?
      ensures emits == [] && requests == []
    {
      this.chat, this.me, this.myName := chat, me, myName;
      input, showEmoji, isRecording, pickerFor, stopPending := "", false, false, None, None;
      emits, requests := [], [];
    }

    /** The effect on a newly selected chat: its unread count is cleared. */
    method SelectionChanged(n: NotificationContext.NotificationProvider)
      requires chat.selected.Some? && n.Valid()
      modifies n
      ensures n.Valid() && n.unreadCounts == NotificationContext.Cleared(old(n.unreadCounts), chat.selected.value.id)
      ensures n.totalUnread == old(n.totalUnread) - NotificationContext.Get(old(n.unreadCounts), chat.selected.value.id)
      ensures n.permission == old(n.permission) && n.shown == old(n.shown) && n.beeps == old(n.beeps)
    {
      n.ClearUnread(chat.selected.value.id);
    }

    /**
     * A change in the message box: the text is taken, `typing` goes out,
     * and the stop-typing timeout is re-armed for this chat, replacing any
     * earlier one.
     */
    method InputChanged(text: string)
      requires chat.selected.Some?
      modifies this
      ensures input == text && stopPending == Some(chat.selected.value.id)
      ensures emits == old(emits) + [TypingEmit(chat.selected.value.id, me, myName)]
      ensures showEmoji == old(showEmoji) && isRecording == old(isRecording) && pickerFor == old(pickerFor)
      ensures requests == old(requests)
    {
      input := text;
      emits := emits + [TypingEmit(chat.selected.value.id, me, myName)];
      stopPending := Some(chat.selected.value.id);
    }

    /** The stop-typing timeout firing, for the chat it was armed for. */
    method TypingTimeout()
      requires stopPending.Some?
      modifies this
      ensures emits == old(emits) + [StopTypingEmit(old(stopPending).value, me)] && stopPending.None?
      ensures input == old(input) && showEmoji == old(showEmoji) && isRecording == old(isRecording)
      ensures pickerFor == old(pickerFor) && requests == old(requests)
    {
      emits := emits + [StopTypingEmit(stopPending.value, me)];
      stopPending := None;
    }

    /**
     * `handleSend`: a blank box sends nothing. Otherwise the box empties,
     * the emoji picker closes, `stop-typing` goes out and the trimmed text
     * is sent as a text message. A pending stop-typing timeout stays armed.
     */
    method Send(reply: Option<Message>, now: Millis)
      requires chat.selected.Some?
      modifies this, chat
      ensures stopPending == old(stopPending) && isRecording == old(isRecording) && pickerFor == old(pickerFor)
      ensures requests == old(requests) && chat.selected == old(chat.selected)
      ensures chat.outbox == old(chat.outbox) && chat.readRequests == old(chat.readRequests)
      ensures Trim(old(input)) == "" ==>
        input == old(input) && showEmoji == old(showEmoji) && emits == old(emits)
        && chat.posts == old(chat.posts) && chat.messages == old(chat.messages) && chat.chats == old(chat.chats)
      ensures Trim(old(input)) != "" ==>
        input == "" && !showEmoji && emits == old(emits) + [StopTypingEmit(chat.selected.value.id, me)]
        && chat.posts == old(chat.posts) + [Post(chat.selected.value.id, Trim(old(input)), "text", "", "", 0)]
        && chat.messages == old(chat.messages) + (if reply.Some? then [reply.value] else [])
        && chat.chats == (if reply.Some? then Bumped(old(chat.chats), chat.selected.value.id, reply.value, now)
                          else old(chat.chats))
    {
      var text := Trim(input);
      if text == "" {
        return;
      }
      input, showEmoji := "", false;
      emits := emits + [StopTypingEmit(chat.selected.value.id, me)];
      var _ := chat.SendMessage(text, None, None, None, None, reply, now);
    }

    /** `handleKeyDown`: Enter without Shift sends; any other key does nothing here. */
    method KeyDown(key: string, shift: bool, reply: Option<Message>, now: Millis)
      requires chat.selected.Some?
      modifies this, chat
      ensures stopPending == old(stopPending) && requests == old(requests) && chat.selected == old(chat.selected)
      ensures isRecording == old(isRecording) && pickerFor == old(pickerFor)
      ensures chat.outbox == old(chat.outbox) && chat.readRequests == old(chat.readRequests)
      ensures key != "Enter" || shift || Trim(old(input)) == "" ==>
        input == old(input) && showEmoji == old(showEmoji) && emits == old(emits) && chat.posts == old(chat.posts)
        && chat.messages == old(chat.messages) && chat.chats == old(chat.chats)
      ensures key == "Enter" && !shift && Trim(old(input)) != "" ==>
        input == "" && !showEmoji && emits == old(emits) + [StopTypingEmit(chat.selected.value.id, me)]
        && chat.posts == old(chat.posts) + [Post(chat.selected.value.id, Trim(old(input)), "text", "", "", 0)]
        && chat.messages == old(chat.messages) + (if reply.Some? then [reply.value] else [])
        && chat.chats == (if reply.Some? then Bumped(old(chat.chats), chat.selected.value.id, reply.value, now)
                          else old(chat.chats))
    {
      if key == "Enter" && !shift {
        Send(reply, now);
      }
    }

    /**
     * `uploadFile`: the file goes to its endpoint; once uploaded it is sent
     * as an empty message of its type with the upload's URL, name and size.
     */
    method Upload(mime: string, uploaded: Option<Uploaded>, reply: Option<Message>, now: Millis)
      requires chat.selected.Some?
      modifies this, chat
      ensures requests == old(requests) + [UploadReq(UploadEndpoint(mime))]
      ensures input == old(input) && emits == old(emits) && stopPending == old(stopPending)
      ensures showEmoji == old(showEmoji) && isRecording == old(isRecording) && pickerFor == old(pickerFor)
      ensures chat.selected == old(chat.selected)
      ensures chat.outbox == old(chat.outbox) && chat.readRequests == old(chat.readRequests)
      ensures uploaded.None? ==>
        chat.posts == old(chat.posts) && chat.messages == old(chat.messages) && chat.chats == old(chat.chats)
      ensures uploaded.Some? ==>
        chat.posts == old(chat.posts) + [Post(chat.selected.value.id, "", MessageTypeName(UploadMessageType(mime)),
                                              uploaded.value.fileUrl, uploaded.value.fileName, uploaded.value.fileSize)]
        && chat.messages == old(chat.messages) + (if reply.Some? then [reply.value] else [])
        && chat.chats == (if reply.Some? then Bumped(old(chat.chats), chat.selected.value.id, reply.value, now)
                          else old(chat.chats))
    {
      requests := requests + [UploadReq(UploadEndpoint(mime))];
      if uploaded.None? {
        return;
      }
      var kind := MessageTypeName(UploadMessageType(mime));
      var _ := chat.SendMessage("", Some(kind), Some(uploaded.value.fileUrl), Some(uploaded.value.fileName),
                                Some(uploaded.value.fileSize), reply, now);
    }

    /** An emoji from the picker is appended to the box. */
    method EmojiPicked(emoji: string)
      modifies this
      ensures input == old(input) + emoji && emits == old(emits) && requests == old(requests)
      ensures showEmoji == old(showEmoji) && isRecording == old(isRecording)
      ensures pickerFor == old(pickerFor) && stopPending == old(stopPending)
    {
      input := input + emoji;
    }

    /** A smart reply or a transcription replaces the box's text; a transcription also ends recording. */
    method TextOffered(text: string, fromRecording: bool)
      modifies this
      ensures input == text && isRecording == (old(isRecording) && !fromRecording)
      ensures emits == old(emits) && requests == old(requests) && stopPending == old(stopPending)
      ensures showEmoji == old(showEmoji) && pickerFor == old(pickerFor)
    {
      input := text;
      if fromRecording {
        isRecording := false;
      }
    }

    /** The microphone button, shown in place of send only while the box is blank. */
    method StartRecording()
      requires Trim(input) == ""
      modifies this
      ensures isRecording && input == old(input) && emits == old(emits) && requests == old(requests)
      ensures showEmoji == old(showEmoji) && pickerFor == old(pickerFor) && stopPending == old(stopPending)
    {
      isRecording := true;
    }

    /** The recorder's `onCancel`: recording ends and the box keeps its text. */
    method RecordingCancelled()
      modifies this
      ensures !isRecording && input == old(input) && emits == old(emits) && requests == old(requests)
      ensures showEmoji == old(showEmoji) && pickerFor == old(pickerFor) && stopPending == old(stopPending)
    {
      isRecording := false;
    }

    /** The reaction button of a live message. */
    method PickerToggled(m: Message)
      requires ActionsOf(m, Some(me)).react
      modifies this
      ensures pickerFor == ToggledPicker(old(pickerFor), m.id)
      ensures input == old(input) && emits == old(emits) && requests == old(requests) && stopPending == old(stopPending)
      ensures showEmoji == old(showEmoji) && isRecording == old(isRecording)
    {
      pickerFor := ToggledPicker(pickerFor, m.id);
    }

    /** `handleReaction` with one of the six offered emoji; the picker closes once the server accepts. */
    method React(messageId: ObjectId, emoji: string, ok: bool)
      requires emoji in ReactionEmojis
      modifies this
      ensures requests == old(requests) + [ReactReq(messageId, emoji)]
      ensures pickerFor == if ok then None else old(pickerFor)
      ensures input == old(input) && emits == old(emits) && stopPending == old(stopPending)
      ensures showEmoji == old(showEmoji) && isRecording == old(isRecording)
    {
      requests := requests + [ReactReq(messageId, emoji)];
      if ok {
        pickerFor := None;
      }
    }

    /** `handleDeleteMessage`, offered only on the viewer's own live messages. */
    method Delete(m: Message)
      requires ActionsOf(m, Some(me)).remove
      modifies this
      ensures requests == old(requests) + [DeleteReq(m.id)] && m.sender == me
      ensures input == old(input) && emits == old(emits) && pickerFor == old(pickerFor) && stopPending == old(stopPending)
      ensures showEmoji == old(showEmoji) && isRecording == old(isRecording)
    {
      requests := requests + [DeleteReq(m.id)];
    }
  }
}
