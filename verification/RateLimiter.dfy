/** The limiter that caps renderer console errors per window (electron/diagnostics.ts). */
module RateLimiter {

  datatype Window = Window(start: int, count: nat, dropped: nat)

  datatype Verdict = Verdict(allow: bool, droppedBefore: nat)

  const OPENED := Window(0, 0, 0)

  /** What one `take(now)` does to the window. */
  function Take(w: Window, limit: nat, windowMs: int, now: int): (Window, Verdict) {
    var closes := now - w.start >= windowMs;
    var v := if closes then Window(now, 0, 0) else w;
    var before := if closes then w.dropped else 0;
    if v.count < limit then (v.(count := v.count + 1), Verdict(true, before))
    else (v.(dropped := v.dropped + 1), Verdict(false, before))
  }

  class RateLimiter {
    const limit: nat
    const windowMs: int
    var windowStart: int
    var count: nat
    var dropped: nat

    constructor (limit: nat, windowMs: int)
      ensures this.limit == limit && this.windowMs == windowMs && View() == OPENED
    {
      this.limit, this.windowMs := limit, windowMs;
      windowStart, count, dropped := 0, 0, 0;
    }

    ghost function View(): Window
      reads this
    {
      Window(windowStart, count, dropped)
    }

    method TakeNow(now: int) returns (v: Verdict)
      modifies this
      ensures (View(), v) == Take(old(View()), limit, windowMs, now)
    {
      var droppedBefore := 0;
      if now - windowStart >= windowMs {
        droppedBefore := dropped;
        windowStart, count, dropped := now, 0, 0;
      }
      if count < limit {
        count := count + 1;
        return Verdict(true, droppedBefore);
      }
      dropped := dropped + 1;
      return Verdict(false, droppedBefore);
    }
  }

  // --- Whole runs ------------------------------------------------------------------

  /** The window after the first `k` calls, made at `times`. */
  function After(limit: nat, windowMs: int, times: seq<int>, k: nat): Window
    requires k <= |times|
  {
    if k == 0 then OPENED else Take(After(limit, windowMs, times, k - 1), limit, windowMs, times[k - 1]).0
  }

  /** What call number `k` is told. */
  function Told(limit: nat, windowMs: int, times: seq<int>, k: nat): Verdict
    requires k < |times|
  {
    Take(After(limit, windowMs, times, k), limit, windowMs, times[k]).1
  }

  /** How many of the first `k` calls were allowed at a time in `[from, from + windowMs)`. */
  function AllowedIn(limit: nat, windowMs: int, times: seq<int>, from: int, k: nat): nat
    requires k <= |times|
  {
    if k == 0 then 0
    else
      AllowedIn(limit, windowMs, times, from, k - 1) +
      if Told(limit, windowMs, times, k - 1).allow && from <= times[k - 1] < from + windowMs then 1 else 0
  }

  function Refused(limit: nat, windowMs: int, times: seq<int>, k: nat): nat
    requires k <= |times|
  {
    if k == 0 then 0
    else Refused(limit, windowMs, times, k - 1) + if Told(limit, windowMs, times, k - 1).allow then 0 else 1
  }

  function Reported(limit: nat, windowMs: int, times: seq<int>, k: nat): nat
    requires k <= |times|
  {
    if k == 0 then 0
    else Reported(limit, windowMs, times, k - 1) + Told(limit, windowMs, times, k - 1).droppedBefore
  }

  ghost predicate NonDecreasing(times: seq<int>) {
    forall i, j :: 0 <= i <= j < |times| ==> times[i] <= times[j]
  }

  /** Where the calls counted in the interval can sit: all in the open window, in it and the one
      before, or already behind it. */
  ghost predicate Spread(w: Window, limit: nat, windowMs: int, from: int, allowed: nat) {
    || allowed <= w.count
    || (from <= w.start && allowed <= limit + w.count)
    || (from + windowMs <= w.start && allowed <= 2 * limit)
  }

  lemma {:induction false} SpreadKept(limit: nat, windowMs: int, times: seq<int>, from: int, k: nat)
    requires NonDecreasing(times) && k <= |times|
    ensures var w := After(limit, windowMs, times, k);
            var n := AllowedIn(limit, windowMs, times, from, k);
            && Spread(w, limit, windowMs, from, n)
            && w.count <= limit
            && (n > 0 ==> k > 0 && from <= times[k - 1])
            && (w.start != 0 ==> k > 0 && w.start <= times[k - 1])
            && (n > w.count ==> k > 0 && w.start <= times[k - 1])
  {
    if k > 0 {
      SpreadKept(limit, windowMs, times, from, k - 1);
    }
  }

  /** No half-open interval one window long sees more than twice the limit. */
  lemma BurstBound(limit: nat, windowMs: int, times: seq<int>, from: int)
    requires NonDecreasing(times)
    ensures AllowedIn(limit, windowMs, times, from, |times|) <= 2 * limit
  {
    SpreadKept(limit, windowMs, times, from, |times|);
  }

  lemma {:induction false} WindowHoldsItsCount(limit: nat, windowMs: int, times: seq<int>, from: int, k: nat)
    requires NonDecreasing(times) && k <= |times|
    requires forall i :: 0 <= i < k ==> 0 <= times[i] < from + windowMs
    requires from <= After(limit, windowMs, times, k).start
    ensures AllowedIn(limit, windowMs, times, from, k) >= After(limit, windowMs, times, k).count
  {
    if k > 0 {
      SpreadKept(limit, windowMs, times, from, k);
      assert After(limit, windowMs, times, k).start <= times[k - 1];
      if from <= After(limit, windowMs, times, k - 1).start {
        WindowHoldsItsCount(limit, windowMs, times, from, k - 1);
      }
    }
  }

  /** A call is refused only when `limit` calls less than one window old were allowed before it. */
  lemma RefusedOnlyWhenFull(limit: nat, windowMs: int, times: seq<int>, k: nat)
    requires NonDecreasing(times) && k < |times| && windowMs > 0
    requires forall i :: 0 <= i < |times| ==> times[i] >= 0
    requires !Told(limit, windowMs, times, k).allow
    ensures AllowedIn(limit, windowMs, times, times[k] - windowMs + 1, k) >= limit
  {
    if limit > 0 {
      WindowHoldsItsCount(limit, windowMs, times, times[k] - windowMs + 1, k);
    }
  }

  /** Every refusal is reported once or still waiting to be. */
  lemma {:induction false} RefusalsAccounted(limit: nat, windowMs: int, times: seq<int>, k: nat)
    requires k <= |times|
    ensures Reported(limit, windowMs, times, k) + After(limit, windowMs, times, k).dropped
            == Refused(limit, windowMs, times, k)
  {
    if k > 0 {
      RefusalsAccounted(limit, windowMs, times, k - 1);
    }
  }
}
