/**
 * The in-memory per-phone limiter in front of the OTP routes: a fixed
 * window of 10 minutes allowing 5 requests, and the periodic sweep that
 * forgets windows that have ended.
 */
module RateLimit {
  import opened Common

  const MaxRequests: nat := 5
  const WindowMs: nat := 600000
  const CleanupEveryMs: nat := 1800000

  /** `{ count, resetTime }` for one phone. */
  datatype Window = Window(count: nat, resetTime: Millis)

  datatype Verdict = Allowed | PhoneRequired | TooMany(retryAfterSeconds: int)

  function Code(v: Verdict): nat {
    match v
    case Allowed => 200
    case PhoneRequired => 400
    case TooMany(_) => 429
  }

  /** `Math.ceil(ms / 1000)` for a whole number of milliseconds. */
  function CeilSeconds(ms: int): (r: int)
    ensures (r - 1) * 1000 < ms <= r * 1000
  {
    (ms + 999) / 1000
  }

  /** The decision and the new window for a present phone whose window is `w` (if it has one). */
  function Decide(w: Option<Window>, now: Millis): (r: (Verdict, Window))
    ensures w.None? ==> r == (Allowed, Window(1, now + WindowMs))
    ensures w.Some? && now > w.value.resetTime ==> r == (Allowed, Window(1, now + WindowMs))
    ensures w.Some? && now <= w.value.resetTime && w.value.count >= MaxRequests ==>
      r.1 == w.value && r.0.TooMany? && r.0.retryAfterSeconds >= 0
      && r.0.retryAfterSeconds == CeilSeconds(w.value.resetTime - now)
    ensures w.Some? && now <= w.value.resetTime && w.value.count < MaxRequests ==>
      r == (Allowed, Window(w.value.count + 1, w.value.resetTime))
  {
    if w.None? then (Allowed, Window(1, now + WindowMs))
    else if now > w.value.resetTime then (Allowed, Window(1, now + WindowMs))
    else if w.value.count >= MaxRequests then (TooMany(CeilSeconds(w.value.resetTime - now)), w.value)
    else (Allowed, w.value.(count := w.value.count + 1))
  }

  /** How many of the requests at `times` (in order) a phone whose window is `w` gets through. */
  function AllowedCount(w: Option<Window>, times: seq<Millis>): nat
    decreases |times|
  {
    if times == [] then 0
    else
      var (v, w') := Decide(w, times[0]);
      (if v == Allowed then 1 else 0) + AllowedCount(Some(w'), times[1..])
  }

  /** No window ever holds more than 5. */
  lemma DecideKeepsCount(w: Option<Window>, now: Millis)
    requires w.Some? ==> w.value.count <= MaxRequests
    ensures 1 <= Decide(w, now).1.count <= MaxRequests
  {
  }

  /**
   * While the clock stays within a window, the phone gets through at most
   * as many requests as the window has left.
   */
  lemma {:induction false} WithinWindowCap(w: Window, times: seq<Millis>)
    requires w.count <= MaxRequests
    requires forall k :: 0 <= k < |times| ==> times[k] <= w.resetTime
    ensures AllowedCount(Some(w), times) <= MaxRequests - w.count
    decreases |times|
  {
    if times != [] {
      var (v, w') := Decide(Some(w), times[0]);
      assert w'.resetTime == w.resetTime;
      WithinWindowCap(w', times[1..]);
    }
  }

  /**
   * From a phone's first request at `start`, at most 5 of the requests up
   * to `start + 600000` (the window's end, inclusive) are allowed.
   */
  lemma AtMostFivePerWindow(start: Millis, times: seq<Millis>)
    requires forall k :: 0 <= k < |times| ==> times[k] <= start + WindowMs
    ensures AllowedCount(None, [start] + times) <= MaxRequests
  {
    var first := Window(1, start + WindowMs);
    assert Decide(None, start) == (Allowed, first);
    assert ([start] + times)[1..] == times;
    assert AllowedCount(None, [start] + times) == 1 + AllowedCount(Some(first), times);
    WithinWindowCap(first, times);
  }

  /** The sixth request inside one window is refused, with the time left rounded up to seconds. */
  lemma SixthIsRefused(start: Millis)
    ensures var w := Decide(Some(Window(5, start + WindowMs)), start + WindowMs);
      w.0 == TooMany(0) && w.1 == Window(5, start + WindowMs)
    ensures Decide(Some(Window(5, start + WindowMs)), start + WindowMs + 1) == (Allowed, Window(1, start + WindowMs + 1 + WindowMs))
  {
  }

  class Limiter {
    /** `otpLimits`. */
    var limits: map<string, Window>

    constructor ()
      ensures limits == map[]
    {
      limits := map[];
    }

    /**
     * `rateLimitOtp`: a missing or empty phone is refused with 400 and
     * nothing changes; otherwise the phone's window decides (see `Decide`).
     */
    method Request(phone: Option<string>, now: Millis) returns (v: Verdict)
      modifies this
      ensures phone.None? || phone.value == "" ==> v == PhoneRequired && limits == old(limits)
      ensures phone.Some? && phone.value != "" ==>
        var p := phone.value;
        var r := Decide(if p in old(limits) then Some(old(limits)[p]) else None, now);
        v == r.0 && limits == old(limits)[p := r.1]
    {
      if phone.None? || phone.value == "" {
        return PhoneRequired;
      }
      var p := phone.value;
      if p in limits {
        var existing := limits[p];
        if now > existing.resetTime {
          limits := limits[p := Window(1, now + WindowMs)];
          return Allowed;
        }
        if existing.count >= MaxRequests {
          return TooMany(CeilSeconds(existing.resetTime - now));
        }
        limits := limits[p := existing.(count := existing.count + 1)];
      } else {
        limits := limits[p := Window(1, now + WindowMs)];
      }
      v := Allowed;
    }

    /** The periodic sweep: deletes exactly the windows that ended before `now`. */
    method Cleanup(now: Millis)
      modifies this
      ensures forall p :: p in limits <==> p in old(limits) && !(now > old(limits)[p].resetTime)
      ensures forall p :: p in limits ==> limits[p] == old(limits)[p]
    {
      var pending := limits.Keys;
      while pending != {}
        invariant pending <= old(limits).Keys
        invariant forall p :: p in limits <==>
          p in old(limits) && (p in pending || !(now > old(limits)[p].resetTime))
        invariant forall p :: p in limits ==> limits[p] == old(limits)[p]
        decreases |pending|
      {
        var p :| p in pending;
        if now > limits[p].resetTime {
          limits := limits - {p};
        }
        pending := pending - {p};
      }
    }
  }
}
