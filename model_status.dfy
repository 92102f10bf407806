/** The persisted status post: type enumeration, who has seen it, and its expiry. */
module StatusModel {
  import opened Common

  const DefaultBackground: string := "#00a884"

  datatype StatusType = TextStatus | ImageStatus | VideoStatus

  function StatusTypeName(t: StatusType): string {
    match t
    case TextStatus => "text"
    case ImageStatus => "image"
    case VideoStatus => "video"
  }

  function ParseStatusType(s: string): (r: Option<StatusType>)
    ensures r.Some? <==> s in ["text", "image", "video"]
    ensures r.Some? ==> StatusTypeName(r.value) == s
  {
    if s == "text" then Some(TextStatus)
    else if s == "image" then Some(ImageStatus)
    else if s == "video" then Some(VideoStatus)
    else None
  }

  lemma StatusTypeRoundTrip(t: StatusType)
    ensures ParseStatusType(StatusTypeName(t)) == Some(t)
  {
  }

  datatype Seen = Seen(user: ObjectId, seenAt: Millis)

  datatype Status = Status(
    id: ObjectId,
    user: ObjectId,
    statusType: StatusType,
    content: string,
    mediaUrl: string,
    backgroundColor: string,
    seenBy: seq<Seen>,
    expiresAt: Millis,
    createdAt: Millis)

  /**
   * `Status.create(...)`: the author and the expiry are required, a given
   * type must be one of the enumeration's names, and fields left out take
   * their defaults (type text, empty content and media, the stock colour).
   */
  function CreateStatus(id: ObjectId, user: Option<ObjectId>, typeName: Option<string>,
                        content: Option<string>, mediaUrl: Option<string>, background: Option<string>,
                        expiresAt: Option<Millis>, now: Millis): (r: Option<Status>)
    ensures r.Some? <==>
      (user.Some? && expiresAt.Some? && (typeName.None? || ParseStatusType(typeName.value).Some?))
    ensures r.Some? ==>
      (r.value.id == id && r.value.user == user.value
       && StatusTypeName(r.value.statusType) == typeName.GetOr("text")
       && r.value.content == content.GetOr("") && r.value.mediaUrl == mediaUrl.GetOr("")
       && r.value.backgroundColor == background.GetOr(DefaultBackground)
       && r.value.seenBy == [] && r.value.expiresAt == expiresAt.value && r.value.createdAt == now)
  {
    if user.None? || expiresAt.None? then None
    else
      var t := if typeName.None? then Some(TextStatus) else ParseStatusType(typeName.value);
      if t.None? then None
      else Some(Status(id, user.value, t.value, content.GetOr(""), mediaUrl.GetOr(""),
                       background.GetOr(DefaultBackground), [], expiresAt.value, now))
  }

  /** The viewers in `seenBy`, in order. */
  function Viewers(seen: seq<Seen>): (r: seq<ObjectId>)
    ensures |r| == |seen| && forall i :: 0 <= i < |seen| ==> r[i] == seen[i].user
  {
    if seen == [] then [] else [seen[0].user] + Viewers(seen[1..])
  }
}
