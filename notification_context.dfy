/**
 * The browser's unread counters and message notifications
 * (`NotificationProvider`). The `unreadCounts` object is a list of entries
 * in key insertion order; the browser's `Notification` and audio APIs are
 * reduced to the notices shown and the beeps played.
 */
module NotificationContext {
  import opened Common
  import opened MessageModel

  /** One `unreadCounts` key and its count. */
  datatype Entry = Entry(chatId: ObjectId, count: nat)

  /** What `new Notification(title, { body, icon })` would show. */
  datatype Notice = Notice(title: string, body: string, icon: string)

  const DefaultPermission: string := "default"
  const Granted: string := "granted"
  const DefaultIcon: string := "/whatsapp.svg"
  const Anonymous: string := "Someone"

  /** `prev[chatId] || 0`. */
  function Get(cs: seq<Entry>, chatId: ObjectId): nat {
    if cs == [] then 0 else if cs[0].chatId == chatId then cs[0].count else Get(cs[1..], chatId)
  }

  predicate UniqueKeys(cs: seq<Entry>) {
    forall i, j :: 0 <= i < j < |cs| ==> cs[i].chatId != cs[j].chatId
  }

  /** `Object.values(unreadCounts).reduce((a, b) => a + b, 0)`. */
  function Sum(cs: seq<Entry>): nat {
    if cs == [] then 0 else cs[0].count + Sum(cs[1..])
  }

  /** Whether `chatId` is a key. */
  function Keyed(cs: seq<Entry>, chatId: ObjectId): bool {
    exists k :: 0 <= k < |cs| && cs[k].chatId == chatId
  }

  /**
   * The count update of `notifyMessage`: that chat's count goes up by
   * exactly one (a new key starting from 0 is added last), every other
   * count stays, and the total goes up by one.
   */
  function Bump(cs: seq<Entry>, chatId: ObjectId): (r: seq<Entry>)
    ensures Get(r, chatId) == Get(cs, chatId) + 1
    ensures forall other :: other != chatId ==> Get(r, other) == Get(cs, other)
    ensures Sum(r) == Sum(cs) + 1
    ensures forall c :: Keyed(r, c) <==> Keyed(cs, c) || c == chatId
  {
    if cs == [] then [Entry(chatId, 1)]
    else if cs[0].chatId == chatId then
      var r := [Entry(chatId, cs[0].count + 1)] + cs[1..];
      assert r[1..] == cs[1..];
      KeyedCons(r);
      KeyedCons(cs);
      r
    else
      var r := [cs[0]] + Bump(cs[1..], chatId);
      assert r[1..] == Bump(cs[1..], chatId);
      KeyedCons(r);
      KeyedCons(cs);
      r
  }

  /** A key is the head's key or a key of the rest. */
  lemma KeyedCons(cs: seq<Entry>)
    requires cs != []
    ensures forall c :: Keyed(cs, c) <==> cs[0].chatId == c || Keyed(cs[1..], c)
  {
    forall c | Keyed(cs, c)
      ensures cs[0].chatId == c || Keyed(cs[1..], c)
    {
      var k :| 0 <= k < |cs| && cs[k].chatId == c;
      if k > 0 {
        assert cs[1..][k - 1].chatId == c;
      }
    }
    forall c | Keyed(cs[1..], c)
      ensures Keyed(cs, c)
    {
      var k :| 0 <= k < |cs[1..]| && cs[1..][k].chatId == c;
      assert cs[k + 1].chatId == c;
    }
  }

  /** With keys unique, the head's key is not a key of the rest. */
  lemma HeadNotInTail(cs: seq<Entry>)
    requires UniqueKeys(cs) && cs != []
    ensures !Keyed(cs[1..], cs[0].chatId)
  {
    forall k | 0 <= k < |cs[1..]|
      ensures cs[1..][k].chatId != cs[0].chatId
    {
      assert cs[1..][k] == cs[k + 1];
    }
  }

  /** A key that is not present counts 0. */
  lemma {:induction false} UnkeyedIsZero(cs: seq<Entry>, chatId: ObjectId)
    requires !Keyed(cs, chatId)
    ensures Get(cs, chatId) == 0
  {
    if cs != [] {
      KeyedCons(cs);
      UnkeyedIsZero(cs[1..], chatId);
    }
  }

  /** Bumping keeps every key once. */
  lemma {:induction false} BumpKeepsKeysUnique(cs: seq<Entry>, chatId: ObjectId)
    requires UniqueKeys(cs)
    ensures UniqueKeys(Bump(cs, chatId))
  {
    if cs != [] && cs[0].chatId != chatId {
      BumpKeepsKeysUnique(cs[1..], chatId);
      var r := Bump(cs, chatId);
      assert r == [cs[0]] + Bump(cs[1..], chatId);
      KeyedCons(cs);
      HeadNotInTail(cs);
      forall j | 1 <= j < |r|
        ensures r[j].chatId != r[0].chatId
      {
        var b := Bump(cs[1..], chatId);
        assert r[j] == b[j - 1];
        assert Keyed(b, r[j].chatId);
      }
    } else if cs != [] {
      var r := Bump(cs, chatId);
      assert forall j :: 1 <= j < |r| ==> r[j] == cs[j];
    }
  }

  /**
   * `clearUnread`: that chat's key goes, every other count stays, and
   * with keys unique the total drops by exactly that chat's count.
   */
  function Cleared(cs: seq<Entry>, chatId: ObjectId): (r: seq<Entry>)
    ensures Get(r, chatId) == 0 && !Keyed(r, chatId)
    ensures forall other :: other != chatId ==> Get(r, other) == Get(cs, other)
    ensures forall c :: Keyed(r, c) ==> Keyed(cs, c)
  {
    if cs == [] then []
    else if cs[0].chatId == chatId then
      KeyedCons(cs);
      Cleared(cs[1..], chatId)
    else
      var r := [cs[0]] + Cleared(cs[1..], chatId);
      assert r[1..] == Cleared(cs[1..], chatId);
      KeyedCons(r);
      KeyedCons(cs);
      r
  }

  /** With keys unique, clearing a chat takes exactly its count off the total. */
  lemma {:induction false} ClearedTotal(cs: seq<Entry>, chatId: ObjectId)
    requires UniqueKeys(cs)
    ensures Sum(Cleared(cs, chatId)) + Get(cs, chatId) == Sum(cs)
  {
    if cs != [] {
      ClearedTotal(cs[1..], chatId);
      if cs[0].chatId == chatId {
        HeadNotInTail(cs);
        UnkeyedIsZero(cs[1..], chatId);
      } else {
        assert [cs[0]] + Cleared(cs[1..], chatId) == Cleared(cs, chatId);
        assert ([cs[0]] + Cleared(cs[1..], chatId))[1..] == Cleared(cs[1..], chatId);
      }
    }
  }

  /** Clearing keeps every remaining key once. */
  lemma {:induction false} ClearedKeepsKeysUnique(cs: seq<Entry>, chatId: ObjectId)
    requires UniqueKeys(cs)
    ensures UniqueKeys(Cleared(cs, chatId))
  {
    if cs != [] {
      ClearedKeepsKeysUnique(cs[1..], chatId);
      if cs[0].chatId != chatId {
        var rest := Cleared(cs[1..], chatId);
        var r := [cs[0]] + rest;
        assert r == Cleared(cs, chatId);
        HeadNotInTail(cs);
        forall j | 1 <= j < |r|
          ensures r[j].chatId != r[0].chatId
        {
          assert r[j] == rest[j - 1];
          assert Keyed(rest, r[j].chatId);
        }
      }
    }
  }

  /** The notification body: a text message's content, otherwise `Sent a <type>`. */
  function NoticeBody(m: Message): (r: string)
    ensures m.msgType == TextMsg ==> r == m.content
    ensures m.msgType != TextMsg ==> r == "Sent a " + MessageTypeName(m.msgType)
  {
    if MessageTypeName(m.msgType) == "text" then m.content else "Sent a " + MessageTypeName(m.msgType)
  }

  /** The notification title: the sender's name, or `Someone` without a (non-empty) one. */
  function NoticeTitle(senderName: Option<string>): (r: string)
    ensures senderName.Some? && senderName.value != "" ==> r == senderName.value
    ensures senderName.None? || senderName.value == "" ==> r == Anonymous
    ensures r != ""
  {
    if senderName.Some? && senderName.value != "" then senderName.value else Anonymous
  }

  class NotificationProvider {
    var permission: string
    var unreadCounts: seq<Entry>
    /** The state the summing effect keeps. */
    var totalUnread: nat
    /** Every notification shown, oldest first. */
    var shown: seq<Notice>
    /** How many times the beep was played. */
    var beeps: nat

    ghost predicate Valid()
      reads this
    {
      UniqueKeys(unreadCounts) && totalUnread == Sum(unreadCounts)
    }

    /** `useState(Notification.permission || 'default')`. */
    constructor (browserPermission: string)
      ensures Valid() && unreadCounts == [] && totalUnread == 0 && shown == [] && beeps == 0
      ensures permission == if browserPermission == "" then DefaultPermission else browserPermission
    {
      permission := if browserPermission == "" then DefaultPermission else browserPermission;
      unreadCounts, totalUnread, shown, beeps := [], 0, [], 0;
    }

    /**
     * `requestPermission`: asked only when supported and still undecided;
     * the answer is `result`. The code tests the browser's live
     * `Notification.permission`; the model tests the copy kept in
     * `permission`, which differs only when the setting changes outside
     * the page.
     */
    method RequestPermission(supported: bool, result: string)
      requires Valid()
      modifies this
      ensures Valid()
      ensures permission == if supported && old(permission) == DefaultPermission then result else old(permission)
      ensures unreadCounts == old(unreadCounts) && totalUnread == old(totalUnread)
      ensures shown == old(shown) && beeps == old(beeps)
    {
      if supported && permission == DefaultPermission {
        permission := result;
      }
    }

    /**
     * `notifyMessage` and the summing effect after it: a notice when
     * permitted, a beep, and one more unread message in the message's chat.
     */
    method NotifyMessage(m: Message, senderName: Option<string>)
      requires Valid()
      modifies this
      ensures Valid() && permission == old(permission) && beeps == old(beeps) + 1
      ensures shown == old(shown) + (if permission == Granted
                                     then [Notice(NoticeTitle(senderName), NoticeBody(m), DefaultIcon)] else [])
      ensures unreadCounts == Bump(old(unreadCounts), m.chat)
      ensures totalUnread == old(totalUnread) + 1
      ensures Get(unreadCounts, m.chat) == Get(old(unreadCounts), m.chat) + 1
    {
      if permission == Granted {
        shown := shown + [Notice(NoticeTitle(senderName), NoticeBody(m), DefaultIcon)];
      }
      beeps := beeps + 1;
      BumpKeepsKeysUnique(unreadCounts, m.chat);
      unreadCounts := Bump(unreadCounts, m.chat);
      totalUnread := Sum(unreadCounts);
    }

    /** `clearUnread` and the summing effect after it. */
    method ClearUnread(chatId: ObjectId)
      requires Valid()
      modifies this
      ensures Valid() && permission == old(permission) && beeps == old(beeps) && shown == old(shown)
      ensures unreadCounts == Cleared(old(unreadCounts), chatId)
      ensures totalUnread == old(totalUnread) - Get(old(unreadCounts), chatId)
    {
      ClearedKeepsKeysUnique(unreadCounts, chatId);
      ClearedTotal(unreadCounts, chatId);
      unreadCounts := Cleared(unreadCounts, chatId);
      totalUnread := Sum(unreadCounts);
    }
  }
}
