/**
 * The status routes: create with its broadcast, the listing that groups
 * live statuses by author, mark-seen, and the owner-only delete.
 *
 * The Status collection is a sequence in insertion order with unique ids;
 * `io.emit('new-status', ...)` appends to `broadcasts`. A store failure
 * (`dbOk` false) is a 500 raised before anything is written; a store call
 * that throws after a write is not modelled.
 */
module StatusRoutes {
  import opened Common
  import opened StatusModel

  /** 24 hours in milliseconds. */
  const DayMs: int := 24 * 60 * 60 * 1000

  predicate Truthy(s: Option<string>) {
    s.Some? && s.value != ""
  }

  function CreatedAt(st: Status): int {
    st.createdAt
  }

  /** `.sort({ createdAt: -1 })`: newest first. */
  predicate NewestFirst(s: seq<Status>) {
    SortedDesc(s, CreatedAt)
  }

  function LiveAt(now: Millis): Status -> bool {
    (st: Status) => st.expiresAt > now
  }

  /** `Status.find({ expiresAt: { $gt: now } }).sort({ createdAt: -1 })`. */
  function Live(statuses: seq<Status>, now: Millis): (r: seq<Status>)
    ensures NewestFirst(r)
    ensures multiset(r) == multiset(Filter(statuses, LiveAt(now)))
    ensures forall st :: st in r <==> st in statuses && st.expiresAt > now
  {
    var live := Filter(statuses, LiveAt(now));
    SortDescPermutes(live, CreatedAt);
    SortDesc(live, CreatedAt)
  }

  /** One author's entry in the listing. */
  datatype Group = Group(user: ObjectId, statuses: seq<Status>, hasUnseen: bool)

  /** Whether `me` is among a status's viewers (`seenBy.some(...)`). */
  predicate SeenBy(st: Status, me: ObjectId) {
    me in Viewers(st.seenBy)
  }

  /** The statuses of author `u`, in listing order. */
  function GroupOf(sts: seq<Status>, u: ObjectId): (r: seq<Status>)
    ensures |r| <= |sts|
  {
    if sts == [] then []
    else GroupOf(sts[..|sts| - 1], u) + (if sts[|sts| - 1].user == u then [sts[|sts| - 1]] else [])
  }

  /** Whether some status of `u` in the listing is unseen by `me`, `me`'s own statuses never counting. */
  function Unseen(sts: seq<Status>, u: ObjectId, me: ObjectId): bool {
    if sts == [] then false
    else
      var x := sts[|sts| - 1];
      Unseen(sts[..|sts| - 1], u, me) || (x.user == u && u != me && !SeenBy(x, me))
  }

  /** The authors of the listing, each once, in order of first appearance (the object's key order). */
  function Authors(sts: seq<Status>): (r: seq<ObjectId>)
    ensures NoDuplicates(r)
    ensures forall u :: u in r <==> exists k :: 0 <= k < |sts| && sts[k].user == u
  {
    if sts == [] then []
    else
      var init := sts[..|sts| - 1];
      var prev := Authors(init);
      var u := sts[|sts| - 1].user;
      assert forall k :: 0 <= k < |init| ==> init[k] == sts[k];
      if u in prev then prev
      else
        var r := prev + [u];
        assert forall a :: 0 <= a < |prev| ==> r[a] == prev[a];
        r
  }

  /** A status's author's group holds it, and no other group does. */
  lemma {:induction false} GroupOfMembers(sts: seq<Status>, u: ObjectId)
    ensures forall st :: st in GroupOf(sts, u) <==> st in sts && st.user == u
  {
    if sts != [] {
      var init := sts[..|sts| - 1];
      GroupOfMembers(init, u);
      assert sts == init + [sts[|sts| - 1]];
    }
  }

  lemma {:induction false} GroupOfEmpty(sts: seq<Status>, u: ObjectId)
    requires forall st :: st in sts ==> st.user != u
    ensures GroupOf(sts, u) == []
  {
    if sts != [] {
      var init := sts[..|sts| - 1];
      assert forall st :: st in init ==> st in sts;
      GroupOfEmpty(init, u);
    }
  }

  /** A group is a subsequence of the listing, so it stays newest first. */
  lemma {:induction false} GroupOfNewestFirst(sts: seq<Status>, u: ObjectId)
    requires NewestFirst(sts)
    ensures NewestFirst(GroupOf(sts, u))
  {
    if sts != [] {
      var init := sts[..|sts| - 1];
      var x := sts[|sts| - 1];
      assert NewestFirst(init);
      GroupOfNewestFirst(init, u);
      GroupOfMembers(init, u);
      var g := GroupOf(init, u);
      if x.user == u {
        forall k | 0 <= k < |g| ensures g[k].createdAt >= x.createdAt {
          assert g[k] in init;
          var j :| 0 <= j < |init| && init[j] == g[k];
          assert sts[j] == init[j];
        }
      }
    }
  }

  /** `hasUnseen` holds exactly when the group is not `me`'s and one of its statuses lacks `me` in `seenBy`. */
  lemma {:induction false} UnseenMeaning(sts: seq<Status>, u: ObjectId, me: ObjectId)
    ensures Unseen(sts, u, me) <==> u != me && exists st :: st in GroupOf(sts, u) && !SeenBy(st, me)
  {
    if sts != [] {
      var init := sts[..|sts| - 1];
      var x := sts[|sts| - 1];
      UnseenMeaning(init, u, me);
      if Unseen(init, u, me) {
        var st :| st in GroupOf(init, u) && !SeenBy(st, me);
        assert st in GroupOf(sts, u);
      }
      if u != me && x.user == u && !SeenBy(x, me) {
        assert x in GroupOf(sts, u);
      }
      if u != me && exists st :: st in GroupOf(sts, u) && !SeenBy(st, me) {
        var st :| st in GroupOf(sts, u) && !SeenBy(st, me);
        if st !in GroupOf(init, u) {
          assert st == x;
        }
      }
    }
  }

  /** One step of the grouping loop. */
  lemma GroupStep(sts: seq<Status>, i: nat, u: ObjectId, me: ObjectId)
    requires i < |sts|
    ensures GroupOf(sts[..i + 1], u) == GroupOf(sts[..i], u) + (if sts[i].user == u then [sts[i]] else [])
    ensures Unseen(sts[..i + 1], u, me) == (Unseen(sts[..i], u, me) || (sts[i].user == u && u != me && !SeenBy(sts[i], me)))
    ensures Authors(sts[..i + 1]) == Authors(sts[..i]) + (if sts[i].user in Authors(sts[..i]) then [] else [sts[i].user])
  {
    assert sts[..i + 1][..i] == sts[..i];
  }

  /** The `grouped` object the loop builds: each author's group, with its keys in insertion order. */
  ghost predicate Grouped(sts: seq<Status>, me: ObjectId, keys: seq<ObjectId>, grouped: map<ObjectId, Group>) {
    keys == Authors(sts)
    && (forall u :: u in grouped <==> u in keys)
    && (forall u :: u in grouped ==> grouped[u] == Group(u, GroupOf(sts, u), Unseen(sts, u, me)))
  }

  /** One iteration of the grouping loop takes the object for a prefix to the object for one more status. */
  lemma GroupedStep(sts: seq<Status>, i: nat, me: ObjectId, keys: seq<ObjectId>, grouped: map<ObjectId, Group>, g: Group)
    requires i < |sts| && Grouped(sts[..i], me, keys, grouped)
    requires var u := sts[i].user;
      var base := if u in grouped then grouped[u] else Group(u, [], false);
      g == Group(u, base.statuses + [sts[i]], base.hasUnseen || (u != me && !SeenBy(sts[i], me)))
    ensures Grouped(sts[..i + 1], me, if sts[i].user in grouped then keys else keys + [sts[i].user], grouped[sts[i].user := g])
  {
    var u := sts[i].user;
    var keys' := if u in grouped then keys else keys + [u];
    var grouped' := grouped[u := g];
    GroupStep(sts, i, u, me);
    assert keys' == Authors(sts[..i + 1]);
    assert forall v :: v in grouped' <==> v in keys';
    forall v | v in grouped'
      ensures grouped'[v] == Group(v, GroupOf(sts[..i + 1], v), Unseen(sts[..i + 1], v, me))
    {
      GroupStep(sts, i, v, me);
      if v == u && u !in grouped {
        NewAuthor(sts[..i], u, me);
      }
    }
  }

  /** An author not yet among the keys has an empty group with nothing unseen. */
  lemma NewAuthor(sts: seq<Status>, u: ObjectId, me: ObjectId)
    requires u !in Authors(sts)
    ensures GroupOf(sts, u) == [] && !Unseen(sts, u, me)
  {
    forall st | st in sts ensures st.user != u {
      var k :| 0 <= k < |sts| && sts[k] == st;
    }
    GroupOfEmpty(sts, u);
    UnseenMeaning(sts, u, me);
  }

  /** `statuses.forEach(...)`: the grouping loop of the listing. */
  method GroupByAuthor(sts: seq<Status>, me: ObjectId) returns (keys: seq<ObjectId>, grouped: map<ObjectId, Group>)
    ensures Grouped(sts, me, keys, grouped)
  {
    keys, grouped := [], map[];
    var i := 0;
    while i < |sts|
      invariant 0 <= i <= |sts|
      invariant Grouped(sts[..i], me, keys, grouped)
    {
      var st := sts[i];
      var u := st.user;
      var g := if u in grouped then grouped[u] else Group(u, [], false);
      g := g.(statuses := g.statuses + [st]);
      if !SeenBy(st, me) && u != me {
        g := g.(hasUnseen := true);
      }
      GroupedStep(sts, i, me, keys, grouped, g);
      if u !in grouped {
        keys := keys + [u];
      }
      grouped := grouped[u := g];
      i := i + 1;
    }
    assert sts[..i] == sts;
  }

  /** `Object.values(grouped)` after `delete grouped[me]`: the other authors' groups in key order. */
  function ContactGroups(keys: seq<ObjectId>, grouped: map<ObjectId, Group>, me: ObjectId): (r: seq<Group>)
    requires forall u :: u in keys ==> u in grouped
    ensures |r| <= |keys|
    ensures forall g :: g in r ==> exists u :: u in keys && u != me && g == grouped[u]
  {
    if keys == [] then []
    else
      var init := keys[..|keys| - 1];
      var u := keys[|keys| - 1];
      assert forall v :: v in init ==> v in keys;
      ContactGroups(init, grouped, me) + (if u == me then [] else [grouped[u]])
  }

  function NotMe(me: ObjectId): ObjectId -> bool {
    (u: ObjectId) => u != me
  }

  /** The keys left after `delete grouped[me]`, in their order. */
  function Others(keys: seq<ObjectId>, me: ObjectId): (r: seq<ObjectId>)
    ensures forall u :: u in r <==> u in keys && u != me
    ensures Subsequence(r, keys)
    ensures NoDuplicates(keys) ==> NoDuplicates(r)
  {
    FilterIsSubsequence(keys, NotMe(me));
    if NoDuplicates(keys) then
      FilterKeepsNoDuplicates(keys, NotMe(me));
      Filter(keys, NotMe(me))
    else Filter(keys, NotMe(me))
  }

  /** The contact groups are the groups of the remaining keys, position by position. */
  lemma {:induction false} ContactGroupsAt(keys: seq<ObjectId>, grouped: map<ObjectId, Group>, me: ObjectId)
    requires forall u :: u in keys ==> u in grouped
    ensures var o := Others(keys, me); var r := ContactGroups(keys, grouped, me);
      |r| == |o| && forall k :: 0 <= k < |o| ==> o[k] in grouped && r[k] == grouped[o[k]]
  {
    if keys != [] {
      var init := keys[..|keys| - 1];
      var u := keys[|keys| - 1];
      assert keys == init + [u];
      assert forall v :: v in init ==> v in keys;
      ContactGroupsAt(init, grouped, me);
      FilterSnoc(init, u, NotMe(me));
    }
  }

  /** Pushes `me` onto `seenBy` unless `me` is already there. */
  function MarkSeen(st: Status, me: ObjectId, now: Millis): (r: Status)
    ensures SeenBy(r, me)
    ensures SeenBy(st, me) ==> r == st
    ensures !SeenBy(st, me) ==> r == st.(seenBy := st.seenBy + [Seen(me, now)])
  {
    if SeenBy(st, me) then st
    else
      var sb := st.seenBy + [Seen(me, now)];
      assert Viewers(sb)[|sb| - 1] == me;
      st.(seenBy := sb)
  }

  lemma {:induction false} ViewersAppend(a: seq<Seen>, b: seq<Seen>)
    ensures Viewers(a + b) == Viewers(a) + Viewers(b)
  {
    if a != [] {
      assert (a + b)[1..] == a[1..] + b;
      ViewersAppend(a[1..], b);
    }
  }

  /** Marking seen twice is marking seen once, and `me` never appears in `seenBy` more than once. */
  lemma MarkSeenOnce(st: Status, me: ObjectId, t1: Millis, t2: Millis)
    ensures MarkSeen(MarkSeen(st, me, t1), me, t2) == MarkSeen(st, me, t1)
    ensures Count(Viewers(st.seenBy), me) <= 1 ==> Count(Viewers(MarkSeen(st, me, t1).seenBy), me) <= 1
  {
    if !SeenBy(st, me) {
      var v := Viewers(st.seenBy);
      ViewersAppend(st.seenBy, [Seen(me, t1)]);
      CountAppend(v, [me], me);
      assert Viewers([Seen(me, t1)]) == [me];
      assert Count([me], me) == 1;
      assert Count(v, me) == 0;
    }
  }

  lemma {:induction false} CountAppend(a: seq<ObjectId>, b: seq<ObjectId>, x: ObjectId)
    ensures Count(a + b, x) == Count(a, x) + Count(b, x)
  {
    if a == [] {
      assert a + b == b;
    } else {
      assert (a + b)[0] == a[0] && (a + b)[1..] == a[1..] + b;
      CountAppend(a[1..], b, x);
    }
  }

  /** The position of the status with this id, if it is stored. */
  function Find(statuses: seq<Status>, id: ObjectId): (k: Option<nat>)
    ensures k.Some? ==> k.value < |statuses| && statuses[k.value].id == id
    ensures k.None? ==> forall j :: 0 <= j < |statuses| ==> statuses[j].id != id
  {
    if statuses == [] then None
    else if statuses[|statuses| - 1].id == id then Some(|statuses| - 1)
    else Find(statuses[..|statuses| - 1], id)
  }

  class StatusApi {
    var statuses: seq<Status>
    var nextId: ObjectId
    var broadcasts: seq<Status>

    ghost predicate Valid()
      reads this
    {
      forall k :: 0 <= k < |statuses| ==> statuses[k].id < nextId
    }

    constructor ()
      ensures Valid() && statuses == [] && nextId == 0 && broadcasts == []
    {
      statuses, nextId, broadcasts := [], 0, [];
    }

    /**
     * `POST /status`: 400 without a type or with neither content nor media;
     * 500 for an unknown type; otherwise the status is stored expiring in
     * 24 hours and broadcast to every connected client (201).
     */
    method Create(me: ObjectId, typeName: Option<string>, content: Option<string>, mediaUrl: Option<string>,
                  background: Option<string>, now: Millis, dbOk: bool) returns (code: nat, created: Option<Status>)
      requires Valid()
      modifies this
      ensures Valid()
      ensures !Truthy(typeName) || (!Truthy(content) && !Truthy(mediaUrl)) ==>
        code == 400 && created.None? && statuses == old(statuses) && broadcasts == old(broadcasts)
      ensures Truthy(typeName) && (Truthy(content) || Truthy(mediaUrl)) ==>
        var rec := CreateStatus(old(nextId), Some(me), typeName, Some(content.GetOr("")), Some(mediaUrl.GetOr("")),
                                Some(if Truthy(background) then background.value else DefaultBackground),
                                Some(now + DayMs), now);
        if !dbOk || rec.None? then
          code == 500 && created.None? && statuses == old(statuses) && broadcasts == old(broadcasts)
          && nextId == old(nextId)
        else
          code == 201 && created == rec && statuses == old(statuses) + [rec.value]
          && broadcasts == old(broadcasts) + [rec.value] && rec.value.expiresAt == now + DayMs
          && nextId == old(nextId) + 1
      ensures !Truthy(typeName) || (!Truthy(content) && !Truthy(mediaUrl)) ==> nextId == old(nextId)
    {
      if !Truthy(typeName) || (!Truthy(content) && !Truthy(mediaUrl)) {
        return 400, None;
      }
      var rec := CreateStatus(nextId, Some(me), typeName, Some(content.GetOr("")), Some(mediaUrl.GetOr("")),
                              Some(if Truthy(background) then background.value else DefaultBackground),
                              Some(now + DayMs), now);
      if !dbOk || rec.None? {
        return 500, None;
      }
      statuses := statuses + [rec.value];
      nextId := nextId + 1;
      broadcasts := broadcasts + [rec.value];
      code, created := 201, rec;
    }

    /**
     * `GET /status`: the live statuses newest first, grouped by author;
     * `me`'s group (or an empty one) is returned apart, and the others in
     * order of their newest status.
     */
    method List(me: ObjectId, now: Millis) returns (mine: Group, contacts: seq<Group>)
      ensures var live := Live(statuses, now);
        mine == Group(me, GroupOf(live, me), false)
        && (forall g :: g in contacts ==>
              g.user != me && g == Group(g.user, GroupOf(live, g.user), Unseen(live, g.user, me)))
        && |contacts| == |Authors(live)| - (if me in Authors(live) then 1 else 0)
      ensures var live := Live(statuses, now); var others := Others(Authors(live), me);
        NoDuplicates(others) && |contacts| == |others|
        && forall k :: 0 <= k < |others| ==>
             contacts[k] == Group(others[k], GroupOf(live, others[k]), Unseen(live, others[k], me))
    {
      var live := Live(statuses, now);
      var keys, grouped := GroupByAuthor(live, me);
      if me in grouped {
        mine := grouped[me];
        assert !Unseen(live, me, me) by { UnseenMeaning(live, me, me); }
      } else {
        mine := Group(me, [], false);
        forall st | st in live ensures st.user != me {
          var k :| 0 <= k < |live| && live[k] == st;
        }
        GroupOfEmpty(live, me);
      }
      contacts := ContactGroups(keys, grouped, me);
      ContactCount(keys, grouped, me);
      ContactGroupsAt(keys, grouped, me);
    }

    /** `PUT /status/seen/:id`: 404 for an unknown status; otherwise `me` is added to `seenBy` once. */
    method MarkSeenRoute(me: ObjectId, id: ObjectId, now: Millis, dbOk: bool) returns (code: nat)
      requires Valid()
      modifies this
      ensures Valid()
      ensures !dbOk ==> code == 500 && statuses == old(statuses)
      ensures dbOk && Find(old(statuses), id).None? ==> code == 404 && statuses == old(statuses)
      ensures dbOk && Find(old(statuses), id).Some? ==> var k := Find(old(statuses), id).value;
        code == 200 && statuses == old(statuses)[k := MarkSeen(old(statuses)[k], me, now)]
      ensures nextId == old(nextId) && broadcasts == old(broadcasts)
    {
      if !dbOk {
        return 500;
      }
      var k := Find(statuses, id);
      if k.None? {
        return 404;
      }
      statuses := statuses[k.value := MarkSeen(statuses[k.value], me, now)];
      code := 200;
    }

    /** `DELETE /status/:id`: 404 for an unknown status, 403 unless `me` posted it; otherwise it is removed. */
    method Delete(me: ObjectId, id: ObjectId, dbOk: bool) returns (code: nat)
      requires Valid()
      modifies this
      ensures Valid()
      ensures !dbOk ==> code == 500 && statuses == old(statuses)
      ensures dbOk && Find(old(statuses), id).None? ==> code == 404 && statuses == old(statuses)
      ensures dbOk && Find(old(statuses), id).Some? && old(statuses)[Find(old(statuses), id).value].user != me ==>
        code == 403 && statuses == old(statuses)
      ensures dbOk && Find(old(statuses), id).Some? && old(statuses)[Find(old(statuses), id).value].user == me ==>
        var k := Find(old(statuses), id).value;
        code == 200 && statuses == old(statuses)[..k] + old(statuses)[k + 1..]
      ensures nextId == old(nextId) && broadcasts == old(broadcasts)
    {
      if !dbOk {
        return 500;
      }
      var k := Find(statuses, id);
      if k.None? {
        return 404;
      }
      if statuses[k.value].user != me {
        return 403;
      }
      statuses := statuses[..k.value] + statuses[k.value + 1..];
      code := 200;
    }
  }

  /** Without `me`'s key, there is one contact group per remaining author. */
  lemma {:induction false} ContactCount(keys: seq<ObjectId>, grouped: map<ObjectId, Group>, me: ObjectId)
    requires forall u :: u in keys ==> u in grouped
    requires NoDuplicates(keys)
    ensures |ContactGroups(keys, grouped, me)| == |keys| - (if me in keys then 1 else 0)
  {
    if keys != [] {
      var init := keys[..|keys| - 1];
      assert forall v :: v in init ==> v in keys;
      assert keys == init + [keys[|keys| - 1]];
      ContactCount(init, grouped, me);
    }
  }
}
