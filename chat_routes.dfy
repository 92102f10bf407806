/**
 * The chat routes: find-or-create a one-to-one chat, the chat list, group
 * creation and the group update.
 *
 * The Chat collection is a sequence and chat `i` has id `i`; `findOne`
 * returns the first match in that order. A store failure (`dbOk` false) is
 * a 500 raised before anything is written; a re-read that throws after a
 * write is not modelled.
 */
module ChatRoutes {
  import opened Common
  import opened Text
  import opened ChatModel

  predicate Truthy(s: Option<string>) {
    s.Some? && s.value != ""
  }

  /**
   * The one-to-one query `{ isGroup: false, participants: { $all: [me, other], $size: 2 } }`:
   * not a group, two entries, and both ids among them.
   */
  predicate DirectMatch(c: Chat, me: ObjectId, other: ObjectId) {
    !c.isGroup && |c.participants| == 2 && me in c.participants && other in c.participants
  }

  /** The first chat the query matches. */
  function FindDirect(chats: seq<Chat>, me: ObjectId, other: ObjectId): (k: Option<nat>)
    ensures k.Some? ==> (k.value < |chats| && DirectMatch(chats[k.value], me, other)
                         && forall j :: 0 <= j < k.value ==> !DirectMatch(chats[j], me, other))
    ensures k.None? ==> forall j :: 0 <= j < |chats| ==> !DirectMatch(chats[j], me, other)
  {
    if chats == [] then None
    else if DirectMatch(chats[0], me, other) then Some(0)
    else
      var k := FindDirect(chats[1..], me, other);
      if k.Some? then Some(k.value + 1) else None
  }

  /** A one-to-one chat between exactly these two users: the participants are `me` and `other`, nobody else. */
  predicate ExactPair(c: Chat, me: ObjectId, other: ObjectId) {
    !c.isGroup && |c.participants| == 2
    && ((c.participants[0] == me && c.participants[1] == other) || (c.participants[0] == other && c.participants[1] == me))
  }

  /** For two different users the query finds exactly the chats between them. */
  lemma DirectMatchIsExactPair(c: Chat, me: ObjectId, other: ObjectId)
    requires me != other
    ensures DirectMatch(c, me, other) <==> ExactPair(c, me, other)
  {
  }

  /**
   * With `other == me` the query matches any one-to-one chat of `me`: a
   * request for a chat with oneself is answered with a chat with someone
   * else.
   */
  lemma SelfAccessFindsAnotherUsersChat(me: ObjectId, them: ObjectId, now: Millis)
    requires me != them
    ensures var chats := [CreateChat(0, [me, them], Some(false), None, None, now)];
      FindDirect(chats, me, me) == Some(0) && !ExactPair(chats[0], me, me)
  {
    var c := CreateChat(0, [me, them], Some(false), None, None, now);
    assert c.participants[0] == me;
  }

  /** The first one-to-one chat whose participants are exactly the two users. */
  function FindExactPair(chats: seq<Chat>, me: ObjectId, other: ObjectId): (k: Option<nat>)
    ensures k.Some? ==> (k.value < |chats| && ExactPair(chats[k.value], me, other)
                         && forall j :: 0 <= j < k.value ==> !ExactPair(chats[j], me, other))
    ensures k.None? ==> forall j :: 0 <= j < |chats| ==> !ExactPair(chats[j], me, other)
  {
    if chats == [] then None
    else if ExactPair(chats[0], me, other) then Some(0)
    else
      var k := FindExactPair(chats[1..], me, other);
      if k.Some? then Some(k.value + 1) else None
  }

  /** The exact lookup agrees with the query whenever the two users differ; it only changes the self-chat case. */
  lemma {:induction false} FindExactPairAgrees(chats: seq<Chat>, me: ObjectId, other: ObjectId)
    requires me != other
    ensures FindExactPair(chats, me, other) == FindDirect(chats, me, other)
  {
    if chats != [] {
      DirectMatchIsExactPair(chats[0], me, other);
      FindExactPairAgrees(chats[1..], me, other);
    }
  }

  function HasMember(me: ObjectId): Chat -> bool {
    (c: Chat) => me in c.participants
  }

  /** `Chat.find({ participants: me }).sort({ updatedAt: -1 })`. */
  function ChatsOf(chats: seq<Chat>, me: ObjectId): (r: seq<Chat>)
    ensures SortedDesc(r, UpdatedAt)
    ensures multiset(r) == multiset(Filter(chats, HasMember(me)))
    ensures forall c :: c in r <==> c in chats && me in c.participants
  {
    var mine := Filter(chats, HasMember(me));
    SortDescPermutes(mine, UpdatedAt);
    SortDesc(mine, UpdatedAt)
  }

  function NotUser(u: ObjectId): ObjectId -> bool {
    (p: ObjectId) => p != u
  }

  /**
   * The group update on a stored group: a truthy name replaces the name
   * (through the trim setter), `addUser` is pushed with no duplicate check,
   * and then every occurrence of `removeUser` is filtered out. The save
   * stamps `updatedAt` only when the document was modified: a push always
   * marks the list modified, while assigning a name or a list equal to the
   * stored one does not.
   */
  function UpdateGroup(c: Chat, groupName: Option<string>, addUser: Option<ObjectId>, removeUser: Option<ObjectId>,
                       now: Millis): Chat
  {
    var named := if Truthy(groupName) then c.(groupName := Trim(groupName.value)) else c;
    var added := if addUser.Some? then named.(participants := named.participants + [addUser.value]) else named;
    var removed :=
      if removeUser.Some? then added.(participants := Filter(added.participants, NotUser(removeUser.value)))
      else added;
    var modified := removed.groupName != c.groupName || addUser.Some? || removed.participants != c.participants;
    if modified then removed.(updatedAt := now) else removed
  }

  /** What the group update promises about the participants, the name and the time stamp. */
  lemma UpdateGroupEffect(c: Chat, groupName: Option<string>, addUser: Option<ObjectId>, removeUser: Option<ObjectId>,
                          now: Millis)
    ensures var r := UpdateGroup(c, groupName, addUser, removeUser, now);
      r.groupName == (if Truthy(groupName) then Trim(groupName.value) else c.groupName)
      && (removeUser.Some? ==> removeUser.value !in r.participants)
      && (removeUser.None? ==> r.participants == c.participants + (if addUser.Some? then [addUser.value] else []))
      && (forall p :: p in r.participants <==>
            (p in c.participants || (addUser.Some? && p == addUser.value)) && (removeUser.None? || p != removeUser.value))
      && r.id == c.id && r.isGroup == c.isGroup && r.admin == c.admin && r.lastMessage == c.lastMessage
      && (r.groupName != c.groupName || r.participants != c.participants || addUser.Some? ==> r.updatedAt == now)
      && (r.groupName == c.groupName && r.participants == c.participants && addUser.None? ==> r == c)
  {
  }

  /**
   * An update that changes nothing (the same name once trimmed, no user
   * added, a user removed who is not a member) leaves the stored group as
   * it was, time stamp included, so its place in every chat list stays.
   */
  lemma UpdateGroupNoChange(c: Chat, groupName: Option<string>, removeUser: Option<ObjectId>, now: Millis)
    requires Truthy(groupName) ==> Trim(groupName.value) == c.groupName
    requires removeUser.Some? ==> removeUser.value !in c.participants
    ensures UpdateGroup(c, groupName, None, removeUser, now) == c
  {
    if removeUser.Some? {
      forall i | 0 <= i < |c.participants| ensures NotUser(removeUser.value)(c.participants[i]) {
        assert c.participants[i] in c.participants;
      }
      FilterAll(c.participants, NotUser(removeUser.value));
    }
  }

  /** Adding a user who is already a member duplicates the entry. */
  lemma AddUserDuplicates(c: Chat, u: ObjectId, now: Millis)
    requires u in c.participants
    ensures Count(UpdateGroup(c, None, Some(u), None, now).participants, u) >= 2
  {
    var ps := c.participants + [u];
    CountSnoc(c.participants, u);
  }

  lemma {:induction false} CountSnoc(s: seq<ObjectId>, x: ObjectId)
    ensures Count(s + [x], x) == Count(s, x) + 1
  {
    if s == [] {
      assert s + [x] == [x];
    } else {
      assert (s + [x])[0] == s[0] && (s + [x])[1..] == s[1..] + [x];
      CountSnoc(s[1..], x);
    }
  }

  class ChatApi {
    var chats: seq<Chat>

    ghost predicate Valid()
      reads this
    {
      forall i :: 0 <= i < |chats| ==> chats[i].id == i
    }

    constructor ()
      ensures Valid() && chats == []
    {
      chats := [];
    }

    /**
     * `POST /chat`: 400 without a user id; the first one-to-one chat the
     * query matches (200); otherwise a new one-to-one chat `[me, userId]`
     * is stored (201).
     */
    method Access(me: ObjectId, userId: Option<ObjectId>, now: Millis, dbOk: bool) returns (code: nat, chat: Option<Chat>)
      requires Valid()
      modifies this
      ensures Valid()
      ensures userId.None? ==> code == 400 && chat.None? && chats == old(chats)
      ensures userId.Some? && !dbOk ==> code == 500 && chat.None? && chats == old(chats)
      ensures userId.Some? && dbOk ==> var k := FindDirect(old(chats), me, userId.value);
        (k.Some? ==> code == 200 && chat == Some(old(chats)[k.value]) && chats == old(chats))
        && (k.None? ==> code == 201 && chats == old(chats) + [CreateChat(|old(chats)|, [me, userId.value], Some(false), None, None, now)]
                        && chat == Some(chats[|old(chats)|]))
    {
      if userId.None? {
        return 400, None;
      }
      if !dbOk {
        return 500, None;
      }
      var k := FindDirect(chats, me, userId.value);
      if k.Some? {
        return 200, Some(chats[k.value]);
      }
      var c := CreateChat(|chats|, [me, userId.value], Some(false), None, None, now);
      chats := chats + [c];
      code, chat := 201, Some(c);
    }

    /** `POST /chat` looking up the chat between exactly the two users, so that a self-chat is never another user's chat. */
    method AccessExact(me: ObjectId, userId: Option<ObjectId>, now: Millis, dbOk: bool) returns (code: nat, chat: Option<Chat>)
      requires Valid()
      modifies this
      ensures Valid()
      ensures userId.None? ==> code == 400 && chat.None? && chats == old(chats)
      ensures userId.Some? && !dbOk ==> code == 500 && chat.None? && chats == old(chats)
      ensures userId.Some? && dbOk ==> chat.Some? && ExactPair(chat.value, me, userId.value)
      ensures userId.Some? && dbOk ==> var k := FindExactPair(old(chats), me, userId.value);
        (k.Some? ==> code == 200 && chat == Some(old(chats)[k.value]) && chats == old(chats))
        && (k.None? ==> code == 201 && chats == old(chats) + [CreateChat(|old(chats)|, [me, userId.value], Some(false), None, None, now)])
    {
      if userId.None? {
        return 400, None;
      }
      if !dbOk {
        return 500, None;
      }
      var k := FindExactPair(chats, me, userId.value);
      if k.Some? {
        return 200, Some(chats[k.value]);
      }
      var c := CreateChat(|chats|, [me, userId.value], Some(false), None, None, now);
      chats := chats + [c];
      code, chat := 201, Some(c);
    }

    /** `GET /chat`: the chats `me` belongs to, most recently updated first. */
    function List(me: ObjectId): (r: seq<Chat>)
      reads this
      ensures SortedDesc(r, UpdatedAt)
      ensures multiset(r) == multiset(Filter(chats, HasMember(me)))
      ensures forall c :: c in r <==> c in chats && me in c.participants
    {
      ChatsOf(chats, me)
    }

    /**
     * `POST /chat/group`: 400 without a name, without a participant list
     * or with fewer than two entries in it; otherwise a group of the given
     * participants followed by `me`, with `me` as admin (201).
     */
    method CreateGroup(me: ObjectId, name: Option<string>, participants: Option<seq<ObjectId>>, now: Millis, dbOk: bool)
      returns (code: nat, chat: Option<Chat>)
      requires Valid()
      modifies this
      ensures Valid()
      ensures !Truthy(name) || participants.None? || |participants.value| < 2 ==>
        code == 400 && chat.None? && chats == old(chats)
      ensures Truthy(name) && participants.Some? && |participants.value| >= 2 && !dbOk ==>
        code == 500 && chat.None? && chats == old(chats)
      ensures Truthy(name) && participants.Some? && |participants.value| >= 2 && dbOk ==>
        code == 201 && chat.Some?
        && chats == old(chats) + [chat.value]
        && chat.value == CreateChat(|old(chats)|, participants.value + [me], Some(true), name, Some(me), now)
        && chat.value.participants == participants.value + [me] && chat.value.isGroup && chat.value.admin == Some(me)
    {
      if !Truthy(name) || participants.None? || |participants.value| < 2 {
        return 400, None;
      }
      if !dbOk {
        return 500, None;
      }
      var c := CreateChat(|chats|, participants.value + [me], Some(true), name, Some(me), now);
      chats := chats + [c];
      code, chat := 201, Some(c);
    }

    /**
     * `PUT /chat/group/:id`: 404 for an unknown chat or one that is not a
     * group; otherwise the chat changes as `UpdateGroup` says (200). Any
     * member, or anyone at all, may update: the admin is not checked.
     */
    method UpdateGroupRoute(id: ObjectId, groupName: Option<string>, addUser: Option<ObjectId>,
                            removeUser: Option<ObjectId>, now: Millis, dbOk: bool) returns (code: nat, chat: Option<Chat>)
      requires Valid()
      modifies this
      ensures Valid()
      ensures !dbOk ==> code == 500 && chat.None? && chats == old(chats)
      ensures dbOk && (id >= |old(chats)| || !old(chats)[id].isGroup) ==> code == 404 && chat.None? && chats == old(chats)
      ensures dbOk && id < |old(chats)| && old(chats)[id].isGroup ==>
        code == 200 && chats == old(chats)[id := UpdateGroup(old(chats)[id], groupName, addUser, removeUser, now)]
        && chat == Some(chats[id])
    {
      if !dbOk {
        return 500, None;
      }
      if id >= |chats| || !chats[id].isGroup {
        return 404, None;
      }
      var c := UpdateGroup(chats[id], groupName, addUser, removeUser, now);
      chats := chats[id := c];
      code, chat := 200, Some(c);
    }
  }
}
