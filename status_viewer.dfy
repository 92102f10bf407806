/**
 * The full-screen status viewer: one status of a person's group at a
 * time, a progress bar per status, automatic advance after five seconds,
 * manual back and forward, seen marking for other people's statuses and
 * deletion of one's own.
 *
 * The group is the snapshot the viewer was opened with. The 50 ms
 * progress interval is `Tick(elapsed)`, one firing with the time since
 * the current status appeared; `ticking` says whether it still runs.
 * `onClose` is counted in `closeCalls`; the seen and delete requests are
 * recorded, and neither changes the snapshot (both swallow their errors).
 */
module StatusViewer {
  import opened Common
  import opened StatusModel

  /** What the viewer's body shows for a status. */
  datatype Media = ImageMedia(src: string) | VideoMedia(src: string)
  datatype Body = Body(background: Option<string>, text: Option<string>, media: Option<Media>, caption: Option<string>)

  /** `STATUS_DURATION`: how long each status stays, in milliseconds. */
  const Duration: nat := 5000
  const ServerOrigin: string := "http://localhost:5000"

  /** `Math.min((elapsed / STATUS_DURATION) * 100, 100)`, in exact arithmetic. */
  function Pct(elapsed: nat): (r: real)
    ensures 0.0 <= r <= 100.0
    ensures r == 100.0 <==> elapsed >= Duration
  {
    if elapsed >= Duration then 100.0 else (elapsed as real / Duration as real) * 100.0
  }

  /** The width, in percent, of bar `i`: full before the current one, the progress on it, empty after. */
  function BarWidth(i: nat, current: nat, progress: real): (r: real)
    ensures i < current ==> r == 100.0
    ensures i == current ==> r == progress
    ensures i > current ==> r == 0.0
  {
    if i < current then 100.0 else if i == current then progress else 0.0
  }

  /** With the progress in range, the bars never grow from left to right. */
  lemma BarsDescend(i: nat, j: nat, current: nat, progress: real)
    requires 0.0 <= progress <= 100.0 && i <= j
    ensures BarWidth(i, current, progress) >= BarWidth(j, current, progress)
  {
  }

  /** `goNext`: the next index, or `None` (the viewer closes) on the last status. */
  function Next(idx: nat, count: nat): (r: Option<nat>)
    ensures r.Some? <==> idx + 1 < count
    ensures r.Some? ==> r.value == idx + 1
  {
    if idx + 1 < count then Some(idx + 1) else None
  }

  /** `goPrev`: one back, except on the first status, which stays. */
  function Prev(idx: nat): (r: nat)
    ensures idx > 0 ==> r == idx - 1
    ensures idx == 0 ==> r == 0
  {
    if idx > 0 then idx - 1 else idx
  }

  /** Back and then forward returns to the same status. */
  lemma PrevThenNext(idx: nat, count: nat)
    requires 0 < idx < count
    ensures Next(Prev(idx), count) == Some(idx)
  {
  }

  /** Forward and then back returns to the same status. */
  lemma NextThenPrev(idx: nat, count: nat)
    requires idx + 1 < count
    ensures Prev(Next(idx, count).value) == idx
  {
  }

  /**
   * The body: a text status on its background colour; an image or video
   * from the server, with its content as a caption when there is one.
   */
  function BodyOf(s: Status): (r: Body)
    ensures s.statusType == TextStatus ==>
      r == Body(Some(s.backgroundColor), Some(s.content), None, None)
    ensures s.statusType != TextStatus ==>
      r.background.None? && r.text.None? && r.media.Some? && r.media.value.src == ServerOrigin + s.mediaUrl
      && (r.media.value.VideoMedia? <==> s.statusType == VideoStatus)
      && r.caption == (if s.content != "" then Some(s.content) else None)
  {
    match s.statusType
    case TextStatus => Body(Some(s.backgroundColor), Some(s.content), None, None)
    case ImageStatus =>
      Body(None, None, Some(ImageMedia(ServerOrigin + s.mediaUrl)), if s.content != "" then Some(s.content) else None)
    case VideoStatus =>
      Body(None, None, Some(VideoMedia(ServerOrigin + s.mediaUrl)), if s.content != "" then Some(s.content) else None)
  }

  class StatusViewerState {
    /** `statusGroup.statuses || []`. */
    const statuses: seq<Status>
    /** `isMyStatus`: the group's author is the viewer. */
    const mine: bool

    var currentIdx: nat
    var progress: real
    var ticking: bool
    var showSeenBy: bool
    var closeCalls: nat
    /** Every `markSeen`, by status id. */
    var seenRequests: seq<ObjectId>
    /** Every `deleteStatus`, by status id. */
    var deleteRequests: seq<ObjectId>

    ghost predicate Valid()
      reads this
    {
      (statuses == [] ==> currentIdx == 0) && (statuses != [] ==> currentIdx < |statuses|)
      && 0.0 <= progress <= 100.0
    }

    /** Whether anything renders (`if (!current) return null`). */
    function Visible(): (r: bool)
      reads this
      requires Valid()
      ensures r <==> statuses != []
    {
      currentIdx < |statuses|
    }

    /** Opening the viewer on the first status, which is marked seen unless it is the viewer's own. */
    constructor (group: Option<seq<Status>>, author: ObjectId, me: Option<ObjectId>)
      ensures Valid() && statuses == group.GetOr([]) && (mine <==> me == Some(author))
      ensures currentIdx == 0 && progress == 0.0 && ticking && !showSeenBy && closeCalls == 0
      ensures seenRequests == (if statuses != [] && !mine then [statuses[0].id] else [])
      ensures deleteRequests == []
    {
      statuses := group.GetOr([]);
      mine := me == Some(author);
      currentIdx, progress, ticking, showSeenBy, closeCalls := 0, 0.0, true, false, 0;
      seenRequests := if group.GetOr([]) != [] && me != Some(author) then [group.GetOr([])[0].id] else [];
      deleteRequests := [];
    }

    /** The effect on every new index: progress restarts, and another person's status is marked seen. */
    method Arrive()
      requires Valid()
      modifies this
      ensures Valid() && currentIdx == old(currentIdx) && progress == 0.0 && ticking
      ensures statuses != [] ==> seenRequests == old(seenRequests) + (if !mine then [statuses[currentIdx].id] else [])
      ensures statuses == [] ==> seenRequests == old(seenRequests)
      ensures showSeenBy == old(showSeenBy) && closeCalls == old(closeCalls) && deleteRequests == old(deleteRequests)
    {
      progress, ticking := 0.0, true;
      if currentIdx < |statuses| && !mine {
        seenRequests := seenRequests + [statuses[currentIdx].id];
      }
    }

    /** `goNext`: the next status, or closing on the last one. */
    method GoNext()
      requires Valid()
      modifies this
      ensures Valid() && showSeenBy == old(showSeenBy) && deleteRequests == old(deleteRequests)
      ensures Next(old(currentIdx), |statuses|).None? ==>
        closeCalls == old(closeCalls) + 1 && currentIdx == old(currentIdx) && progress == old(progress)
        && ticking == old(ticking) && seenRequests == old(seenRequests)
      ensures Next(old(currentIdx), |statuses|).Some? ==>
        closeCalls == old(closeCalls) && currentIdx == old(currentIdx) + 1 && progress == 0.0 && ticking
        && seenRequests == old(seenRequests) + (if !mine then [statuses[currentIdx].id] else [])
    {
      var next := Next(currentIdx, |statuses|);
      if next.None? {
        closeCalls := closeCalls + 1;
      } else {
        currentIdx := next.value;
        Arrive();
      }
    }

    /** `goPrev`: the previous status; nothing on the first. */
    method GoPrev()
      requires Valid()
      modifies this
      ensures Valid() && closeCalls == old(closeCalls) && showSeenBy == old(showSeenBy)
      ensures deleteRequests == old(deleteRequests) && currentIdx == Prev(old(currentIdx))
      ensures old(currentIdx) == 0 ==>
        progress == old(progress) && ticking == old(ticking) && seenRequests == old(seenRequests)
      ensures old(currentIdx) > 0 ==>
        progress == 0.0 && ticking && seenRequests == old(seenRequests) + (if !mine then [statuses[currentIdx].id] else [])
    {
      if currentIdx > 0 {
        currentIdx := currentIdx - 1;
        Arrive();
      }
    }

    /** One firing of the progress interval: the bar follows the time, and at five seconds the interval stops and the viewer moves on. */
    method Tick(elapsed: nat)
      requires Valid() && ticking
      modifies this
      ensures Valid() && showSeenBy == old(showSeenBy) && deleteRequests == old(deleteRequests)
      ensures elapsed < Duration ==>
        progress == Pct(elapsed) && ticking && currentIdx == old(currentIdx)
        && closeCalls == old(closeCalls) && seenRequests == old(seenRequests)
      ensures elapsed >= Duration && Next(old(currentIdx), |statuses|).None? ==>
        !ticking && progress == 100.0 && closeCalls == old(closeCalls) + 1 && currentIdx == old(currentIdx)
        && seenRequests == old(seenRequests)
      ensures elapsed >= Duration && Next(old(currentIdx), |statuses|).Some? ==>
        ticking && progress == 0.0 && currentIdx == old(currentIdx) + 1 && closeCalls == old(closeCalls)
        && seenRequests == old(seenRequests) + (if !mine then [statuses[currentIdx].id] else [])
    {
      progress := Pct(elapsed);
      if progress >= 100.0 {
        ticking := false;
        GoNext();
      }
    }

    /** The seen-by button on one's own status. */
    method ToggleSeenBy()
      requires Valid() && mine
      modifies this
      ensures Valid() && showSeenBy == !old(showSeenBy) && currentIdx == old(currentIdx)
      ensures progress == old(progress) && ticking == old(ticking) && closeCalls == old(closeCalls)
      ensures seenRequests == old(seenRequests) && deleteRequests == old(deleteRequests)
    {
      showSeenBy := !showSeenBy;
    }

    /**
     * `handleDelete` on one's own status: the current status is deleted,
     * then the viewer closes when the group had at most one status and
     * moves on otherwise, closing on the last.
     */
    method Delete()
      requires Valid() && mine
      modifies this
      ensures Valid() && showSeenBy == old(showSeenBy) && seenRequests == old(seenRequests)
      ensures statuses == [] ==> deleteRequests == old(deleteRequests) && closeCalls == old(closeCalls)
      ensures statuses != [] ==> deleteRequests == old(deleteRequests) + [statuses[old(currentIdx)].id]
      ensures |statuses| == 1 ==> closeCalls == old(closeCalls) + 1 && currentIdx == old(currentIdx)
      ensures |statuses| > 1 ==>
        currentIdx == (if old(currentIdx) + 1 < |statuses| then old(currentIdx) + 1 else old(currentIdx))
        && closeCalls == old(closeCalls) + (if old(currentIdx) + 1 < |statuses| then 0 else 1)
      ensures |statuses| > 1 && old(currentIdx) + 1 < |statuses| ==> progress == 0.0 && ticking
      ensures |statuses| <= 1 || old(currentIdx) + 1 >= |statuses| ==>
        progress == old(progress) && ticking == old(ticking) && currentIdx == old(currentIdx)
    {
      if currentIdx < |statuses| {
        deleteRequests := deleteRequests + [statuses[currentIdx].id];
        if |statuses| <= 1 {
          closeCalls := closeCalls + 1;
        } else {
          GoNext();
        }
      }
    }
  }
}
