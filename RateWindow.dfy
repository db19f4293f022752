/** The sliding-window admission rule that both in-memory rate limiters
    use (`checkRateLimit` in src/lib/validations.ts and
    `RateLimitStore.isAllowed` in src/lib/apiMiddleware.ts): keep the
    timestamps younger than the window, refuse when `maxRequests` of them
    remain, else record `now`. Times are milliseconds. */
module RateWindow {
  import opened Common

  predicate InWindow(t: int, now: int, windowMs: int) {
    now - t < windowMs
  }

  /** `times.filter((t) => now - t < windowMs)`. */
  function Recent(times: seq<int>, now: int, windowMs: int): (r: seq<int>)
    ensures |r| <= |times|
    ensures forall t :: t in r <==> t in times && InWindow(t, now, windowMs)
  {
    Filter_Mem_All(times, now, windowMs);
    Filter(t => InWindow(t, now, windowMs), times)
  }

  lemma Filter_Mem_All(times: seq<int>, now: int, windowMs: int)
    ensures forall t :: t in Filter(t => InWindow(t, now, windowMs), times) <==> t in times && InWindow(t, now, windowMs)
  {
    forall t {
      Filter_Mem(t => InWindow(t, now, windowMs), times, t);
    }
  }

  /** The decision for one request: `None` when refused (nothing is
      recorded), else the list to store. */
  function Admit(times: seq<int>, now: int, maxRequests: int, windowMs: int): (r: Option<seq<int>>)
    ensures r.None? <==> |Recent(times, now, windowMs)| >= maxRequests
    ensures r.Some? ==> r.value == Recent(times, now, windowMs) + [now]
    ensures r.Some? ==> |r.value| <= maxRequests
  {
    var recent := Recent(times, now, windowMs);
    if |recent| >= maxRequests then None else Some(recent + [now])
  }

  /** How many of `nows`, made one after another, are admitted. */
  function Admitted(times: seq<int>, nows: seq<int>, maxRequests: int, windowMs: int): nat
    decreases |nows|
  {
    if nows == [] then 0
    else
      match Admit(times, nows[0], maxRequests, windowMs)
      case None => Admitted(times, nows[1..], maxRequests, windowMs)
      case Some(t) => 1 + Admitted(t, nows[1..], maxRequests, windowMs)
  }

  /** A stored timestamp that stays inside the window for every request
      still to come. */
  predicate Lasting(t: int, nows: seq<int>, windowMs: int) {
    forall n :: n in nows ==> InWindow(t, n, windowMs)
  }

  function LastingCount(times: seq<int>, nows: seq<int>, windowMs: int): nat {
    Count(t => Lasting(t, nows, windowMs), times)
  }

  lemma {:induction false} Count_Le_Filter(times: seq<int>, nows: seq<int>, now: int, windowMs: int)
    requires now in nows
    ensures LastingCount(times, nows, windowMs) <= |Recent(times, now, windowMs)|
  {
    if times != [] {
      var k := |times| - 1;
      var init := times[..k];
      assert times == init + [times[k]];
      Count_Le_Filter(init, nows, now, windowMs);
      Count_Append(t => Lasting(t, nows, windowMs), init, [times[k]]);
      Filter_Append(t => InWindow(t, now, windowMs), init, [times[k]]);
    }
  }

  lemma {:induction false} Count_Shrink(times: seq<int>, nows: seq<int>, windowMs: int)
    requires nows != []
    ensures LastingCount(times, nows[1..], windowMs) >= LastingCount(times, nows, windowMs)
  {
    if times != [] {
      var k := |times| - 1;
      var init := times[..k];
      assert times == init + [times[k]];
      Count_Shrink(init, nows, windowMs);
      Count_Append(t => Lasting(t, nows, windowMs), init, [times[k]]);
      Count_Append(t => Lasting(t, nows[1..], windowMs), init, [times[k]]);
      assert Lasting(times[k], nows, windowMs) ==> Lasting(times[k], nows[1..], windowMs) by {
        assert forall n :: n in nows[1..] ==> n in nows;
      }
    }
  }

  lemma {:induction false} Count_Recent(times: seq<int>, nows: seq<int>, windowMs: int)
    requires nows != []
    ensures LastingCount(Recent(times, nows[0], windowMs), nows[1..], windowMs)
         >= LastingCount(times, nows, windowMs)
  {
    if times != [] {
      var k := |times| - 1;
      var init := times[..k];
      var now := nows[0];
      assert times == init + [times[k]];
      Count_Recent(init, nows, windowMs);
      Filter_Append(t => InWindow(t, now, windowMs), init, [times[k]]);
      Count_Append(t => Lasting(t, nows, windowMs), init, [times[k]]);
      var r := Recent(init, now, windowMs);
      var tail := Filter(t => InWindow(t, now, windowMs), [times[k]]);
      Count_Append(t => Lasting(t, nows[1..], windowMs), r, tail);
      assert Lasting(times[k], nows, windowMs) ==> tail == [times[k]] && Lasting(times[k], nows[1..], windowMs) by {
        assert nows[0] in nows;
        assert forall n :: n in nows[1..] ==> n in nows;
      }
    }
  }

  /** The generalised burst bound: every timestamp that lasts through the
      remaining requests takes one of the `maxRequests` places. */
  lemma {:induction false} Admitted_Lasting(times: seq<int>, nows: seq<int>, maxRequests: int, windowMs: int, base: int)
    requires forall n :: n in nows ==> base <= n < base + windowMs
    ensures Admitted(times, nows, maxRequests, windowMs) <= Max(0, maxRequests - LastingCount(times, nows, windowMs))
    decreases |nows|
  {
    if nows != [] {
      var now := nows[0];
      var rest := nows[1..];
      assert forall n :: n in rest ==> n in nows;
      assert now in nows;
      Count_Le_Filter(times, nows, now, windowMs);
      match Admit(times, now, maxRequests, windowMs)
      case None =>
        Admitted_Lasting(times, rest, maxRequests, windowMs, base);
        Count_Shrink(times, nows, windowMs);
      case Some(t) =>
        Admitted_Lasting(t, rest, maxRequests, windowMs, base);
        var recent := Recent(times, now, windowMs);
        Count_Recent(times, nows, windowMs);
        Count_Append(x => Lasting(x, rest, windowMs), recent, [now]);
        assert Lasting(now, rest, windowMs);
    }
  }

  /** However many requests arrive inside one window, at most
      `maxRequests` of them are admitted. */
  lemma Admitted_Burst(times: seq<int>, nows: seq<int>, maxRequests: int, windowMs: int, base: int)
    requires maxRequests >= 0
    requires forall n :: n in nows ==> base <= n < base + windowMs
    ensures Admitted(times, nows, maxRequests, windowMs) <= maxRequests
  {
    Admitted_Lasting(times, nows, maxRequests, windowMs, base);
  }

  /** `Math.max(0, maxRequests - validTimes.length)`. */
  function Remaining(times: seq<int>, now: int, maxRequests: int, windowMs: int): (n: nat)
    ensures n == 0 <==> Admit(times, now, maxRequests, windowMs).None?
    ensures n <= Max(0, maxRequests)
  {
    Max(0, maxRequests - |Recent(times, now, windowMs)|)
  }
}
