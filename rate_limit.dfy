/**
 * The per-connection sliding-window rate limiter. A limiter keeps the clock readings
 * of the requests it admitted; `check` first forgets the readings that have left the
 * window and then admits the request only while fewer than `maxRequests` remain.
 * The clock (`Date.now()`) is the parameter `now`.
 */
module RateLimit {

  /** The readings of `ts` still inside the window at time `now`, in order (the `filter`). */
  function InWindow(ts: seq<int>, now: int, windowMs: int): seq<int> {
    if |ts| == 0 then []
    else (if now - ts[0] < windowMs then [ts[0]] else []) + InWindow(ts[1..], now, windowMs)
  }

  /** Whether `check` at time `now` admits the request. */
  predicate Admits(ts: seq<int>, now: int, maxRequests: int, windowMs: int) {
    |InWindow(ts, now, windowMs)| < maxRequests
  }

  /** The stored readings after `check` at time `now`. */
  function After(ts: seq<int>, now: int, maxRequests: int, windowMs: int): seq<int> {
    var kept := InWindow(ts, now, windowMs);
    if |kept| >= maxRequests then kept else kept + [now]
  }

  /** Outcomes of successive `check` calls at the clock readings `times`, starting from `ts`. */
  function Run(ts: seq<int>, times: seq<int>, maxRequests: int, windowMs: int): seq<bool>
    decreases |times|
  {
    if |times| == 0 then []
    else
      [Admits(ts, times[0], maxRequests, windowMs)]
      + Run(After(ts, times[0], maxRequests, windowMs), times[1..], maxRequests, windowMs)
  }

  /** `n` copies of `x`. */
  function Repeat<T>(x: T, n: nat): (r: seq<T>)
    ensures |r| == n && forall i :: 0 <= i < n ==> r[i] == x
  {
    seq(n, i => x)
  }

  ghost predicate Ascending(s: seq<int>) {
    forall i, j :: 0 <= i < j < |s| ==> s[i] <= s[j]
  }

  /** The filter keeps exactly the readings less than `windowMs` old, and no more of them. */
  lemma {:induction false} InWindowMembers(ts: seq<int>, now: int, windowMs: int)
    ensures |InWindow(ts, now, windowMs)| <= |ts|
    ensures forall t :: t in InWindow(ts, now, windowMs) <==> t in ts && now - t < windowMs
    ensures forall i :: 0 <= i < |InWindow(ts, now, windowMs)| ==>
      InWindow(ts, now, windowMs)[i] in ts && now - InWindow(ts, now, windowMs)[i] < windowMs
  {
    if |ts| > 0 {
      InWindowMembers(ts[1..], now, windowMs);
      assert ts == [ts[0]] + ts[1..];
    }
  }

  /** The filter keeps the readings in their stored order. */
  lemma {:induction false} InWindowAscending(ts: seq<int>, now: int, windowMs: int)
    requires Ascending(ts)
    ensures Ascending(InWindow(ts, now, windowMs))
  {
    if |ts| > 0 {
      InWindowAscending(ts[1..], now, windowMs);
      InWindowMembers(ts[1..], now, windowMs);
      var rest := InWindow(ts[1..], now, windowMs);
      forall j | 0 <= j < |rest|
        ensures ts[0] <= rest[j]
      {
        assert rest[j] in rest;
      }
    }
  }

  /** Filtering a second time at the same clock reading removes nothing more. */
  lemma {:induction false} InWindowIdempotent(ts: seq<int>, now: int, windowMs: int)
    ensures InWindow(InWindow(ts, now, windowMs), now, windowMs) == InWindow(ts, now, windowMs)
  {
    if |ts| > 0 {
      InWindowIdempotent(ts[1..], now, windowMs);
      var rest := InWindow(ts[1..], now, windowMs);
      if now - ts[0] < windowMs {
        assert InWindow(ts, now, windowMs) == [ts[0]] + rest;
        assert ([ts[0]] + rest)[1..] == rest;
      } else {
        assert InWindow(ts, now, windowMs) == rest;
      }
    }
  }

  /**
   * A refusal stores no reading, so with the clock standing still every later
   * check is refused too and the stored readings no longer change.
   */
  lemma {:induction false} RefusedStaysRefused(ts: seq<int>, now: int, n: nat, maxRequests: int, windowMs: int)
    requires !Admits(ts, now, maxRequests, windowMs)
    decreases n
    ensures After(After(ts, now, maxRequests, windowMs), now, maxRequests, windowMs) == After(ts, now, maxRequests, windowMs)
    ensures Run(After(ts, now, maxRequests, windowMs), Repeat(now, n), maxRequests, windowMs) == Repeat(false, n)
  {
    var kept := After(ts, now, maxRequests, windowMs);
    InWindowIdempotent(ts, now, windowMs);
    assert !Admits(kept, now, maxRequests, windowMs);
    if n > 0 {
      RefusedStaysRefused(kept, now, n - 1, maxRequests, windowMs);
      assert Repeat(now, n)[1..] == Repeat(now, n - 1);
      assert Repeat(false, n) == [false] + Repeat(false, n - 1);
    }
  }

  /** After a check every stored reading lies inside the window, and none is new but `now`. */
  lemma WindowBound(ts: seq<int>, now: int, maxRequests: int, windowMs: int)
    requires windowMs > 0
    ensures forall t :: t in After(ts, now, maxRequests, windowMs) ==> now - t < windowMs
    ensures forall t :: t in After(ts, now, maxRequests, windowMs) ==> t in ts || t == now
  {
    InWindowMembers(ts, now, windowMs);
  }

  /** The number of stored readings never exceeds `maxRequests`. */
  lemma CountBounded(ts: seq<int>, now: int, maxRequests: int, windowMs: int)
    requires |ts| <= maxRequests || ts == []
    ensures |After(ts, now, maxRequests, windowMs)| <= maxRequests || After(ts, now, maxRequests, windowMs) == []
  {
    InWindowMembers(ts, now, windowMs);
    if ts == [] {
      assert InWindow(ts, now, windowMs) == [];
    }
  }

  /** Once every stored reading is at least `windowMs` old, the next check is admitted. */
  lemma {:induction false} AdmitsAfterQuietPeriod(ts: seq<int>, now: int, maxRequests: int, windowMs: int)
    requires maxRequests > 0
    requires forall i :: 0 <= i < |ts| ==> now - ts[i] >= windowMs
    ensures Admits(ts, now, maxRequests, windowMs)
    ensures After(ts, now, maxRequests, windowMs) == [now]
  {
    if |ts| > 0 {
      AdmitsAfterQuietPeriod(ts[1..], now, maxRequests, windowMs);
    }
  }

  /** Under a clock that never goes back, the stored readings stay in ascending order. */
  lemma KeepsAscending(ts: seq<int>, now: int, maxRequests: int, windowMs: int)
    requires Ascending(ts)
    requires forall i :: 0 <= i < |ts| ==> ts[i] <= now
    ensures Ascending(After(ts, now, maxRequests, windowMs))
    ensures forall t :: t in After(ts, now, maxRequests, windowMs) ==> t <= now
  {
    InWindowAscending(ts, now, windowMs);
    InWindowMembers(ts, now, windowMs);
    var kept := InWindow(ts, now, windowMs);
    assert forall i :: 0 <= i < |kept| ==> kept[i] <= now;
  }

  /** Readings all taken at `now` stay in a window of positive width. */
  lemma {:induction false} InWindowOfRepeat(now: int, k: nat, windowMs: int)
    requires windowMs > 0
    ensures InWindow(Repeat(now, k), now, windowMs) == Repeat(now, k)
  {
    if k > 0 {
      InWindowOfRepeat(now, k - 1, windowMs);
      assert Repeat(now, k)[1..] == Repeat(now, k - 1);
      assert Repeat(now, k) == [now] + Repeat(now, k - 1);
    }
  }

  /** With the clock standing still, a limiter holding `k` readings admits `maxRequests - k` more requests and then refuses. */
  lemma {:induction false} FixedClockFrom(now: int, k: nat, maxRequests: nat, windowMs: int)
    requires windowMs > 0 && k <= maxRequests
    ensures Run(Repeat(now, k), Repeat(now, maxRequests - k + 1), maxRequests, windowMs)
      == Repeat(true, maxRequests - k) + [false]
    decreases maxRequests - k
  {
    var ts := Repeat(now, k);
    var times := Repeat(now, maxRequests - k + 1);
    InWindowOfRepeat(now, k, windowMs);
    if k == maxRequests {
      assert times[1..] == [];
    } else {
      assert After(ts, now, maxRequests, windowMs) == Repeat(now, k + 1);
      assert times[1..] == Repeat(now, maxRequests - (k + 1) + 1);
      FixedClockFrom(now, k + 1, maxRequests, windowMs);
      assert Repeat(true, maxRequests - k) == [true] + Repeat(true, maxRequests - (k + 1));
    }
  }

  /** With the clock standing still, a fresh limiter admits exactly its first `maxRequests` requests. */
  lemma FixedClockBurst(now: int, maxRequests: nat, windowMs: int)
    requires windowMs > 0
    ensures Run([], Repeat(now, maxRequests + 1), maxRequests, windowMs) == Repeat(true, maxRequests) + [false]
  {
    FixedClockFrom(now, 0, maxRequests, windowMs);
    assert Repeat(now, 0) == [];
  }

  /** A sliding-window limiter admitting `maxRequests` requests per `windowMs` milliseconds. */
  class RateLimiter {
    var timestamps: seq<int>
    const maxRequests: int
    const windowMs: int

    /** The stored readings never outnumber the limit. */
    ghost predicate Valid()
      reads this
    {
      |timestamps| <= maxRequests || timestamps == []
    }

    constructor (maxRequests: int, windowMs: int)
      ensures this.maxRequests == maxRequests && this.windowMs == windowMs
      ensures timestamps == [] && Valid()
    {
      this.maxRequests := maxRequests;
      this.windowMs := windowMs;
      timestamps := [];
    }

    /** `check()` at clock reading `now`: true when the request is allowed. */
    method Check(now: int) returns (allowed: bool)
      requires Valid()
      modifies this
      ensures Valid()
      ensures allowed <==> |InWindow(old(timestamps), now, windowMs)| < maxRequests
      ensures timestamps == After(old(timestamps), now, maxRequests, windowMs)
      ensures allowed ==> timestamps == InWindow(old(timestamps), now, windowMs) + [now]
      ensures !allowed ==> timestamps == InWindow(old(timestamps), now, windowMs)
      ensures windowMs > 0 ==> forall i :: 0 <= i < |timestamps| ==> now - timestamps[i] < windowMs
    {
      CountBounded(timestamps, now, maxRequests, windowMs);
      InWindowMembers(timestamps, now, windowMs);
      timestamps := InWindow(timestamps, now, windowMs);
      if |timestamps| >= maxRequests {
        return false;
      }
      timestamps := timestamps + [now];
      return true;
    }
  }
}
