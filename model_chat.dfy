/** The persisted conversation: a participant list, the group fields and the last message. */
module ChatModel {
  import opened Common
  import opened Text

  datatype Chat = Chat(
    id: ObjectId,
    participants: seq<ObjectId>,
    isGroup: bool,
    groupName: string,
    groupAvatar: string,
    admin: Option<ObjectId>,
    lastMessage: Option<ObjectId>,
    createdAt: Millis,
    updatedAt: Millis)

  /**
   * `Chat.create(...)`: `isGroup` defaults to false, the group name to ''
   * (and goes through the trim setter), the group avatar is '' and there is
   * no last message yet.
   */
  function CreateChat(id: ObjectId, participants: seq<ObjectId>, isGroup: Option<bool>,
                      groupName: Option<string>, admin: Option<ObjectId>, now: Millis): (c: Chat)
    ensures c.id == id && c.participants == participants && c.isGroup == isGroup.GetOr(false)
    ensures c.groupName == Trim(groupName.GetOr("")) && c.groupAvatar == ""
    ensures c.admin == admin && c.lastMessage.None? && c.createdAt == now && c.updatedAt == now
  {
    Chat(id, participants, isGroup.GetOr(false), Trim(groupName.GetOr("")), "", admin, None, now, now)
  }

  /** `Chat.findByIdAndUpdate(id, { lastMessage })`: the update also stamps `updatedAt`. */
  function WithLastMessage(c: Chat, messageId: ObjectId, now: Millis): (r: Chat)
    ensures r.lastMessage == Some(messageId) && r.updatedAt == now
    ensures r.(lastMessage := c.lastMessage, updatedAt := c.updatedAt) == c
  {
    c.(lastMessage := Some(messageId), updatedAt := now)
  }

  /** The sort key of chat lists, newest activity first. */
  function UpdatedAt(c: Chat): int {
    c.updatedAt
  }
}
