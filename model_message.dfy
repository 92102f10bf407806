/** The persisted chat message: type enumeration, reactions, read receipts and flags. */
module MessageModel {
  import opened Common

  datatype MessageType = TextMsg | ImageMsg | VoiceMsg | DocumentMsg | VideoMsg | SystemMsg

  function MessageTypeName(t: MessageType): string {
    match t
    case TextMsg => "text"
    case ImageMsg => "image"
    case VoiceMsg => "voice"
    case DocumentMsg => "document"
    case VideoMsg => "video"
    case SystemMsg => "system"
  }

  function ParseMessageType(s: string): (r: Option<MessageType>)
    ensures r.Some? <==> s in ["text", "image", "voice", "document", "video", "system"]
    ensures r.Some? ==> MessageTypeName(r.value) == s
  {
    if s == "text" then Some(TextMsg)
    else if s == "image" then Some(ImageMsg)
    else if s == "voice" then Some(VoiceMsg)
    else if s == "document" then Some(DocumentMsg)
    else if s == "video" then Some(VideoMsg)
    else if s == "system" then Some(SystemMsg)
    else None
  }

  lemma MessageTypeRoundTrip(t: MessageType)
    ensures ParseMessageType(MessageTypeName(t)) == Some(t)
  {
  }

  datatype Reaction = Reaction(user: ObjectId, emoji: string)

  datatype Message = Message(
    id: ObjectId,
    sender: ObjectId,
    chat: ObjectId,
    content: string,
    msgType: MessageType,
    fileUrl: string,
    fileName: string,
    fileSize: int,
    reactions: seq<Reaction>,
    readBy: seq<ObjectId>,
    isDelivered: bool,
    isDeleted: bool,
    createdAt: Millis)

  /** The fields a creator may supply; `None` is a field left out. */
  datatype MessageInput = MessageInput(
    sender: Option<ObjectId>,
    chat: Option<ObjectId>,
    content: Option<string>,
    typeName: Option<string>,
    fileUrl: Option<string>,
    fileName: Option<string>,
    fileSize: Option<int>,
    readBy: seq<ObjectId>)

  /**
   * `Message.create(...)`: sender and chat are required, a given type must
   * be one of the enumeration's names, and each field left out takes its
   * default: content, file URL and file name empty, size 0, type text, no
   * reactions, not delivered, not deleted.
   */
  function CreateMessage(id: ObjectId, input: MessageInput, now: Millis): (r: Option<Message>)
    ensures r.Some? <==>
      (input.sender.Some? && input.chat.Some?
       && (input.typeName.None? || ParseMessageType(input.typeName.value).Some?))
    ensures r.Some? ==> var m := r.value;
      m.id == id && m.sender == input.sender.value && m.chat == input.chat.value
      && m.content == input.content.GetOr("") && m.fileUrl == input.fileUrl.GetOr("")
      && m.fileName == input.fileName.GetOr("") && m.fileSize == input.fileSize.GetOr(0)
      && MessageTypeName(m.msgType) == input.typeName.GetOr("text")
      && m.reactions == [] && m.readBy == input.readBy && !m.isDelivered && !m.isDeleted
      && m.createdAt == now
  {
    if input.sender.None? || input.chat.None? then None
    else
      var t := if input.typeName.None? then Some(TextMsg) else ParseMessageType(input.typeName.value);
      if t.None? then None
      else Some(Message(id, input.sender.value, input.chat.value, input.content.GetOr(""), t.value,
                        input.fileUrl.GetOr(""), input.fileName.GetOr(""), input.fileSize.GetOr(0),
                        [], input.readBy, false, false, now))
  }

  /** The notice a deleted message shows instead of its content. */
  const DeletedText: string := "This message was deleted"

  /** The soft delete: flagged, the content replaced by the notice, the reactions cleared; nothing else changes. */
  function SoftDelete(m: Message): (r: Message)
    ensures r.isDeleted && r.content == DeletedText && r.reactions == []
    ensures r.(isDeleted := m.isDeleted, content := m.content, reactions := m.reactions) == m
  {
    m.(isDeleted := true, content := DeletedText, reactions := [])
  }
}
