/**
 * `WebhookService.RateLimiter`: a sliding-window limiter. It keeps the
 * admission times that are still inside the window, oldest first; each
 * call drops the times strictly older than `now - period` from the front,
 * then admits (and records `now`) only if fewer than `maxRequests` remain.
 *
 * The clock (`System.nanoTime`) is the parameter `now`; times are unbounded
 * integers, so `long` overflow is not modelled.
 */
module RateLimit {

  const NanosPerSecond: int := 1_000_000_000

  function Max(a: int, b: int): int {
    if a < b then b else a
  }

  function Min(a: int, b: int): int {
    if a < b then a else b
  }

  predicate Sorted(q: seq<int>) {
    forall i, j :: 0 <= i < j < |q| ==> q[i] <= q[j]
  }

  /**
   * The eviction loop: drops the longest prefix of times strictly below
   * `cutoff`. An entry exactly at the cutoff stops it and stays, as does
   * everything behind it.
   */
  function Evict(q: seq<int>, cutoff: int): (r: seq<int>)
    ensures |r| <= |q|
    ensures r == [] || r[0] >= cutoff
  {
    if q != [] && q[0] < cutoff then Evict(q[1..], cutoff) else q
  }

  /**
   * What eviction keeps: a suffix of the queue whose first time is at or
   * after the cutoff, and what it drops: only times before the cutoff.
   */
  lemma {:induction false} EvictKeepsSuffix(q: seq<int>, cutoff: int)
    ensures var r := Evict(q, cutoff);
      && |r| <= |q| && r == q[|q| - |r|..]
      && (forall i :: 0 <= i < |q| - |r| ==> q[i] < cutoff)
      && (r == [] || r[0] >= cutoff)
  {
    if q != [] && q[0] < cutoff {
      EvictKeepsSuffix(q[1..], cutoff);
    }
  }

  /** The decision of one `tryAcquire` and the window it leaves. */
  datatype Decision = Decision(admitted: bool, window: seq<int>)

  /** `tryAcquire` at time `now`, as a function of the window before the call. */
  function Acquire(maxRequests: int, periodNanos: int, q: seq<int>, now: int): (d: Decision)
    // a call is denied only when the window left after eviction is full
    ensures !d.admitted ==> |d.window| >= maxRequests
    // an admission never overfills the window and records `now` last
    ensures d.admitted ==> 1 <= |d.window| <= maxRequests && d.window[|d.window| - 1] == now
  {
    var kept := Evict(q, now - periodNanos);
    if |kept| < maxRequests then Decision(true, kept + [now]) else Decision(false, kept)
  }

  /** The window never holds more than `max(0, maxRequests)` times. */
  lemma AcquireBounded(maxRequests: int, periodNanos: int, q: seq<int>, now: int)
    requires |q| <= Max(0, maxRequests)
    ensures |Acquire(maxRequests, periodNanos, q, now).window| <= Max(0, maxRequests)
  {
    EvictKeepsSuffix(q, now - periodNanos);
  }

  /** A limit of zero or less denies every call. */
  lemma NonPositiveLimitDenies(maxRequests: int, periodNanos: int, q: seq<int>, now: int)
    requires maxRequests <= 0
    ensures !Acquire(maxRequests, periodNanos, q, now).admitted
  {
  }

  /**
   * On denial nothing is recorded: the window is what is left of the old one
   * after expired times were dropped from its front. On admission exactly
   * `now` is added at the back.
   */
  lemma DenialRecordsNothing(maxRequests: int, periodNanos: int, q: seq<int>, now: int)
    ensures var d := Acquire(maxRequests, periodNanos, q, now);
      && (!d.admitted ==> |d.window| <= |q| && d.window == q[|q| - |d.window|..])
      && (d.admitted ==> 1 <= |d.window| <= |q| + 1 && d.window == q[|q| - |d.window| + 1..] + [now])
  {
    EvictKeepsSuffix(q, now - periodNanos);
  }

  /** With a non-decreasing clock the window stays sorted. */
  lemma AcquireKeepsSorted(maxRequests: int, periodNanos: int, q: seq<int>, now: int)
    requires Sorted(q) && (q == [] || q[|q| - 1] <= now)
    ensures Sorted(Acquire(maxRequests, periodNanos, q, now).window)
  {
    EvictKeepsSuffix(q, now - periodNanos);
  }

  /**
   * Eviction keeps every time at or after the cutoff, in place: an entry
   * exactly `periodNanos` old survives, whatever precedes it.
   */
  lemma RecentEntrySurvives(q: seq<int>, cutoff: int, i: int)
    requires 0 <= i < |q| && q[i] >= cutoff
    ensures var r := Evict(q, cutoff);
      i >= |q| - |r| && r[i - (|q| - |r|)] == q[i]
  {
    EvictKeepsSuffix(q, cutoff);
  }

  /**
   * An example of the closed window: with a limit of one, a time exactly
   * `periodNanos` ago is still counted, so the full window stays full at
   * that instant.
   */
  lemma EntryAtCutoffStays(maxRequests: int, periodNanos: int, t: int)
    requires maxRequests == 1
    ensures Acquire(maxRequests, periodNanos, [t], t + periodNanos) == Decision(false, [t])
  {
  }

  /**
   * Once every recorded time is strictly older than `now - periodNanos`, the
   * window empties and a positive limit admits again.
   */
  lemma AdmitsAfterQuietPeriod(maxRequests: int, periodNanos: int, q: seq<int>, now: int)
    requires maxRequests >= 1
    requires forall i :: 0 <= i < |q| ==> q[i] < now - periodNanos
    ensures Acquire(maxRequests, periodNanos, q, now) == Decision(true, [now])
  {
    EvictKeepsSuffix(q, now - periodNanos);
  }

  // ---- The sliding-window guarantee over a whole run ----

  /** The times a limiter has admitted so far, and its current window. */
  datatype History = History(admitted: seq<int>, window: seq<int>)

  /** One `tryAcquire` at `now`, recorded in the history. */
  function Record(maxRequests: int, periodNanos: int, h: History, now: int): History {
    var d := Acquire(maxRequests, periodNanos, h.window, now);
    History(if d.admitted then h.admitted + [now] else h.admitted, d.window)
  }

  /** A fresh limiter called once at each time in `clock`, in order. */
  function Replay(maxRequests: int, periodNanos: int, clock: seq<int>): History
    decreases |clock|
  {
    if clock == [] then History([], [])
    else Record(maxRequests, periodNanos, Replay(maxRequests, periodNanos, clock[..|clock| - 1]), clock[|clock| - 1])
  }

  predicate NonDecreasing(clock: seq<int>) {
    forall i, j :: 0 <= i < j < |clock| ==> clock[i] <= clock[j]
  }

  /** How many times in `s` fall in the closed interval [lo, lo + span]. */
  function CountWithin(s: seq<int>, lo: int, span: int): nat {
    if s == [] then 0
    else CountWithin(s[..|s| - 1], lo, span) + (if lo <= s[|s| - 1] <= lo + span then 1 else 0)
  }

  lemma {:induction false} CountWithinAppend(a: seq<int>, b: seq<int>, lo: int, span: int)
    ensures CountWithin(a + b, lo, span) == CountWithin(a, lo, span) + CountWithin(b, lo, span)
    decreases |b|
  {
    if b == [] {
      assert a + b == a;
    } else {
      assert (a + b)[..|a + b| - 1] == a + b[..|b| - 1];
      CountWithinAppend(a, b[..|b| - 1], lo, span);
    }
  }

  lemma {:induction false} CountWithinBounds(s: seq<int>, lo: int, span: int)
    ensures CountWithin(s, lo, span) <= |s|
    ensures (forall i :: 0 <= i < |s| ==> s[i] < lo) ==> CountWithin(s, lo, span) == 0
  {
    if s != [] {
      CountWithinBounds(s[..|s| - 1], lo, span);
    }
  }

  /** `w` is the tail of `a`. */
  predicate EndsWith(a: seq<int>, w: seq<int>) {
    |w| <= |a| && forall i :: 0 <= i < |w| ==> a[|a| - |w| + i] == w[i]
  }

  /** If the first `n` times fall before `lo`, at most the other `|s| - n` are counted. */
  lemma {:induction false} CountWithinTail(s: seq<int>, n: nat, lo: int, span: int)
    requires n <= |s|
    requires forall i :: 0 <= i < n ==> s[i] < lo
    ensures CountWithin(s, lo, span) <= |s| - n
  {
    if |s| == n {
      CountWithinBounds(s, lo, span);
    } else {
      CountWithinTail(s[..|s| - 1], n, lo, span);
    }
  }

  /**
   * What holds of a run whose latest call was at or before `last`: the
   * window is the tail of the admitted times, every admitted time before
   * it is older than `last - periodNanos`, no admitted time is after `last`,
   * and no closed interval of length `periodNanos` holds more than
   * `max(0, maxRequests)` admitted times.
   */
  ghost predicate RunInvariant(maxRequests: int, periodNanos: int, h: History, last: int) {
    && EndsWith(h.admitted, h.window)
    && (forall i :: 0 <= i < |h.admitted| - |h.window| ==> h.admitted[i] < last - periodNanos)
    && (forall i :: 0 <= i < |h.admitted| ==> h.admitted[i] <= last)
    && (forall x :: CountWithin(h.admitted, x, periodNanos) <= Max(0, maxRequests))
  }

  /**
   * Eviction at `now` splits the admitted times in two: those older than the
   * new cutoff, and the window that survives.
   */
  lemma EvictSplitsHistory(maxRequests: int, periodNanos: int, h: History, now: int)
    requires RunInvariant(maxRequests, periodNanos, h, now)
    ensures var kept := Evict(h.window, now - periodNanos);
      && EndsWith(h.admitted, kept)
      && (forall i :: 0 <= i < |h.admitted| - |kept| ==> h.admitted[i] < now - periodNanos)
  {
    var cutoff := now - periodNanos;
    var a, w := h.admitted, h.window;
    var kept := Evict(w, cutoff);
    EvictKeepsSuffix(w, cutoff);
    forall i | 0 <= i < |kept| ensures a[|a| - |kept| + i] == kept[i] {
      assert kept[i] == w[|w| - |kept| + i];
    }
    forall i | |a| - |w| <= i < |a| - |kept| ensures a[i] < cutoff {
      assert a[i] == w[i - (|a| - |w|)];
    }
  }

  /** Admitting `now` cannot overfill an interval, whether or not it contains `now`. */
  lemma CountAfterAdmit(maxRequests: int, periodNanos: int, a: seq<int>, kept: seq<int>, now: int, x: int)
    requires |kept| <= |a| && (forall i :: 0 <= i < |a| - |kept| ==> a[i] < now - periodNanos)
    requires |kept| < maxRequests
    requires CountWithin(a, x, periodNanos) <= Max(0, maxRequests)
    ensures CountWithin(a + [now], x, periodNanos) <= Max(0, maxRequests)
  {
    assert (a + [now])[..|a + [now]| - 1] == a;
    if x <= now <= x + periodNanos {
      CountWithinTail(a, |a| - |kept|, x, periodNanos);
    }
  }

  /** One more call, no earlier than the last one, keeps the run invariant. */
  lemma RecordKeepsInvariant(maxRequests: int, periodNanos: int, h: History, now: int)
    requires RunInvariant(maxRequests, periodNanos, h, now)
    ensures RunInvariant(maxRequests, periodNanos, Record(maxRequests, periodNanos, h, now), now)
  {
    var a := h.admitted;
    var kept := Evict(h.window, now - periodNanos);
    EvictSplitsHistory(maxRequests, periodNanos, h, now);
    if |kept| < maxRequests {
      var h' := History(a + [now], kept + [now]);
      assert Record(maxRequests, periodNanos, h, now) == h';
      forall i | 0 <= i < |kept| + 1 ensures h'.admitted[|h'.admitted| - |h'.window| + i] == h'.window[i] {
        if i < |kept| {
          assert h'.admitted[|a| - |kept| + i] == a[|a| - |kept| + i];
        }
      }
      forall x ensures CountWithin(h'.admitted, x, periodNanos) <= Max(0, maxRequests) {
        CountAfterAdmit(maxRequests, periodNanos, a, kept, now, x);
      }
    } else {
      assert Record(maxRequests, periodNanos, h, now) == History(a, kept);
    }
  }

  /**
   * The sliding-window guarantee: with a non-decreasing clock, a limiter
   * that started empty never has more than `max(0, maxRequests)` admissions
   * in any closed interval of length `periodNanos`.
   */
  lemma {:induction false} ReplayInvariant(maxRequests: int, periodNanos: int, clock: seq<int>, last: int)
    requires NonDecreasing(clock)
    requires forall i :: 0 <= i < |clock| ==> clock[i] <= last
    ensures RunInvariant(maxRequests, periodNanos, Replay(maxRequests, periodNanos, clock), last)
    decreases |clock|
  {
    if clock != [] {
      var now := clock[|clock| - 1];
      var prefix := clock[..|clock| - 1];
      ReplayInvariant(maxRequests, periodNanos, prefix, now);
      RecordKeepsInvariant(maxRequests, periodNanos, Replay(maxRequests, periodNanos, prefix), now);
    }
  }

  lemma AtMostMaxPerWindow(maxRequests: int, periodNanos: int, clock: seq<int>, from: int)
    requires NonDecreasing(clock)
    ensures CountWithin(Replay(maxRequests, periodNanos, clock).admitted, from, periodNanos) <= Max(0, maxRequests)
  {
    if clock == [] {
    } else {
      ReplayInvariant(maxRequests, periodNanos, clock, clock[|clock| - 1]);
    }
  }

  /**
   * Over a run with a non-decreasing clock the window stays sorted, never
   * holds more than `max(0, maxRequests)` times, and holds no time after the
   * latest call.
   */
  lemma {:induction false} ReplayWindow(maxRequests: int, periodNanos: int, clock: seq<int>, last: int)
    requires NonDecreasing(clock)
    requires forall i :: 0 <= i < |clock| ==> clock[i] <= last
    ensures var w := Replay(maxRequests, periodNanos, clock).window;
      && Sorted(w) && |w| <= Max(0, maxRequests)
      && (forall i :: 0 <= i < |w| ==> w[i] <= last)
    decreases |clock|
  {
    if clock != [] {
      var now := clock[|clock| - 1];
      var prefix := clock[..|clock| - 1];
      ReplayWindow(maxRequests, periodNanos, prefix, now);
      var w := Replay(maxRequests, periodNanos, prefix).window;
      AcquireBounded(maxRequests, periodNanos, w, now);
      AcquireKeepsSorted(maxRequests, periodNanos, w, now);
      EvictKeepsSuffix(w, now - periodNanos);
    }
  }

  /**
   * A burst of `n` calls at one instant, with a non-negative period: the
   * first `max(0, maxRequests)` are admitted and the rest denied.
   */
  lemma {:induction false} BurstAdmitsExactlyMax(maxRequests: int, periodNanos: int, t: int, n: nat)
    requires periodNanos >= 0
    ensures var h := Replay(maxRequests, periodNanos, seq(n, _ => t));
      && |h.admitted| == Min(n, Max(0, maxRequests))
      && h.window == h.admitted
      && (forall i :: 0 <= i < |h.admitted| ==> h.admitted[i] == t)
  {
    if n > 0 {
      var clock := seq(n, _ => t);
      assert clock[..n - 1] == seq(n - 1, _ => t);
      BurstAdmitsExactlyMax(maxRequests, periodNanos, t, n - 1);
      var h := Replay(maxRequests, periodNanos, seq(n - 1, _ => t));
      assert h.window == [] || h.window[0] >= t - periodNanos;
      assert Evict(h.window, t - periodNanos) == h.window;
    }
  }

  /** `RateLimiter`: its limit and period are fixed, its queue of times changes in place. */
  class RateLimiter {
    const maxRequests: int
    const periodNanos: int
    var timestamps: seq<int>

    ghost predicate Valid()
      reads this
    {
      |timestamps| <= Max(0, maxRequests)
    }

    /** `new RateLimiter(maxRequests, period, TimeUnit.SECONDS)`: an empty window. */
    constructor (maxRequests: int, periodSeconds: int)
      ensures Valid()
      ensures this.maxRequests == maxRequests && periodNanos == periodSeconds * NanosPerSecond
      ensures timestamps == []
    {
      this.maxRequests := maxRequests;
      this.periodNanos := periodSeconds * NanosPerSecond;
      timestamps := [];
    }

    /** `tryAcquire()`, with the clock reading `now` passed in. */
    method TryAcquire(now: int) returns (ok: bool)
      requires Valid()
      modifies this
      ensures Valid()
      ensures Decision(ok, timestamps) == Acquire(maxRequests, periodNanos, old(timestamps), now)
      ensures ok <==> |Evict(old(timestamps), now - periodNanos)| < maxRequests
      ensures Sorted(old(timestamps)) && (old(timestamps) == [] || old(timestamps)[|old(timestamps)| - 1] <= now)
        ==> Sorted(timestamps)
    {
      ghost var q0 := timestamps;
      var cutoff := now - periodNanos;
      while timestamps != [] && timestamps[0] < cutoff
        invariant Evict(timestamps, cutoff) == Evict(q0, cutoff)
        invariant |timestamps| <= |q0|
        decreases |timestamps|
      {
        timestamps := timestamps[1..];
      }
      assert timestamps == Evict(q0, cutoff);
      AcquireBounded(maxRequests, periodNanos, q0, now);
      if |timestamps| < maxRequests {
        timestamps := timestamps + [now];
        ok := true;
      } else {
        ok := false;
      }
      if Sorted(q0) && (q0 == [] || q0[|q0| - 1] <= now) {
        AcquireKeepsSorted(maxRequests, periodNanos, q0, now);
      }
    }
  }
}
