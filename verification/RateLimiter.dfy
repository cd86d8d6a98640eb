/**
 The rate limiter: calls queue on a lock, each takes the next slot, and slots are at
 least one interval apart. Times are clock readings in nanoseconds.
 */
module RateLimiters {
  import opened Arithmetic

  class RateLimiter {
    const interval: nat
    var lastExecution: int

    constructor (interval: nat, now: int)
      ensures this.interval == interval && lastExecution == now - interval
    {
      this.interval, lastExecution := interval, now - interval;
    }

    /** Called at clock reading `now`, with the lock held; a sleep may overshoot. */
    method Wait(now: int, overshoot: nat) returns (resumed: int)
      modifies this`lastExecution
      ensures lastExecution == Slot(old(lastExecution), interval, now)
      ensures now <= resumed && lastExecution <= resumed <= lastExecution + overshoot
      ensures now >= old(lastExecution) + interval ==> resumed == now
    {
      var nextAllowed := lastExecution + interval;
      if now < nextAllowed {
        resumed := nextAllowed + overshoot;
        lastExecution := nextAllowed;
      } else {
        resumed := now;
        lastExecution := now;
      }
    }

    /** Whether a call would be let through at once; it takes no slot. */
    predicate IsAllowed(now: int)
      reads this
      ensures IsAllowed(now) <==> Slot(lastExecution, interval, now) == now
    {
      now >= lastExecution + interval
    }
  }

  /** The slot a call takes at clock reading `now`. */
  function Slot(last: int, interval: nat, now: int): int {
    if now < last + interval then last + interval else now
  }

  /** A slot is the earliest time that is neither before the call nor within an interval of the last slot. */
  lemma SlotIsEarliest(last: int, interval: nat, now: int, t: int)
    ensures t >= Slot(last, interval, now) <==> t >= now && t >= last + interval
  {
  }

  /** The slot of call `k` (counting from 0) of a limiter created at `creation`. */
  function SlotOf(creation: int, interval: nat, nows: seq<int>, k: nat): int
    requires k < |nows|
  {
    Slot(if k == 0 then creation - interval else SlotOf(creation, interval, nows, k - 1), interval, nows[k])
  }

  /** A history of calls: when each read the clock and when it resumed, never before its slot. */
  ghost predicate IsHistory(creation: int, interval: nat, nows: seq<int>, resumed: seq<int>) {
    && |nows| == |resumed|
    && forall k: nat | k < |nows| :: resumed[k] >= SlotOf(creation, interval, nows, k)
  }

  /** A limiter created at `creation` and called at the clock readings makes such a history. */
  method Serve(creation: int, interval: nat, nows: seq<int>, overshoots: seq<nat>) returns (resumed: seq<int>)
    requires |overshoots| == |nows|
    ensures IsHistory(creation, interval, nows, resumed)
  {
    var limiter := new RateLimiter(interval, creation);
    resumed := [];
    for i := 0 to |nows|
      invariant limiter.interval == interval && IsHistory(creation, interval, nows[..i], resumed)
      invariant limiter.lastExecution == if i == 0 then creation - interval else SlotOf(creation, interval, nows, i - 1)
    {
      var at := limiter.Wait(nows[i], overshoots[i]);
      forall k: nat | k <= i
        ensures SlotOf(creation, interval, nows[..i + 1], k) == SlotOf(creation, interval, nows, k)
      {
        SlotsOfPrefix(creation, interval, nows, i + 1, k);
      }
      forall k: nat | k < i ensures SlotOf(creation, interval, nows[..i], k) == SlotOf(creation, interval, nows, k) {
        SlotsOfPrefix(creation, interval, nows, i, k);
      }
      resumed := resumed + [at];
    }
    assert nows[..|nows|] == nows;
  }

  /** Later calls do not change earlier slots. */
  lemma {:induction false} SlotsOfPrefix(creation: int, interval: nat, nows: seq<int>, n: nat, k: nat)
    requires k < n <= |nows|
    ensures SlotOf(creation, interval, nows[..n], k) == SlotOf(creation, interval, nows, k)
  {
    if k > 0 { SlotsOfPrefix(creation, interval, nows, n, k - 1); }
  }

  /** Slots are spaced: `d` calls later is at least `d` intervals later. */
  lemma {:induction false} SlotsAreSpaced(creation: int, interval: nat, nows: seq<int>, j: nat, k: nat)
    requires j <= k < |nows|
    ensures SlotOf(creation, interval, nows, k) >= SlotOf(creation, interval, nows, j) + (k - j) * interval
  {
    if j < k {
      SlotsAreSpaced(creation, interval, nows, j, k - 1);
      assert (k - 1 - j) * interval + interval == (k - j) * interval;
    }
  }

  lemma SlotLowerBound(creation: int, interval: nat, nows: seq<int>, k: nat)
    requires k < |nows|
    ensures SlotOf(creation, interval, nows, k) >= creation + k * interval
  {
    SlotsAreSpaced(creation, interval, nows, 0, k);
  }

  /** The calls that have resumed by time `t`. */
  ghost function ResumedBy(resumed: seq<int>, t: int): set<nat> {
    set k: nat | k < |resumed| && resumed[k] <= t
  }

  lemma {:induction false} BoundedSetSize(s: set<nat>, n: nat)
    requires forall k | k in s :: k < n
    ensures |s| <= n
  {
    if n > 0 {
      var rest := s - {n - 1};
      BoundedSetSize(rest, n - 1);
      assert s <= rest + {n - 1};
      assert s == (if n - 1 in s then rest + {n - 1} else rest);
    }
  }

  lemma QuotientBound(k: nat, interval: nat, length: nat)
    requires interval > 0 && k * interval <= length
    ensures k <= length / interval
  {
    var q := length / interval;
    assert length < (q + 1) * interval;
    if q + 1 <= k {
      MulMonotone(q + 1, k, interval);
    }
  }

  /** Rate bound: by time `t` at most `(t - creation) / interval + 1` calls have resumed, none before creation. */
  lemma RateBound(creation: int, interval: nat, nows: seq<int>, resumed: seq<int>, t: int)
    requires IsHistory(creation, interval, nows, resumed) && interval > 0
    ensures |ResumedBy(resumed, t)| <= if t < creation then 0 else (t - creation) / interval + 1
  {
    var bound := if t < creation then 0 else (t - creation) / interval + 1;
    forall k | k in ResumedBy(resumed, t) ensures k < bound {
      SlotLowerBound(creation, interval, nows, k);
      assert k * interval <= t - creation;
      QuotientBound(k, interval, t - creation);
    }
    BoundedSetSize(ResumedBy(resumed, t), bound);
  }

  /** Sliding window: the calls from `j` to `k`, with slots within `width`, are at most `width / interval + 1`. */
  lemma WindowBound(creation: int, interval: nat, nows: seq<int>, j: nat, k: nat, width: nat)
    requires j <= k < |nows| && interval > 0
    requires SlotOf(creation, interval, nows, k) <= SlotOf(creation, interval, nows, j) + width
    ensures k - j + 1 <= width / interval + 1
  {
    SlotsAreSpaced(creation, interval, nows, j, k);
    QuotientBound(k - j, interval, width);
  }
}
