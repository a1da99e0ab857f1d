/** The hub's rate limiter (src/hub/rate-limit.ts), which forgets old calls, against a log that never forgets. */
module RateLimit {

  datatype Call = Call(key: string, t: int)
  datatype Limits = Limits(max: int, windowMs: int)

  // ----- The specification: a log of everything -----

  // A call is allowed when fewer than `max` calls of its key were allowed in the last `windowMs` milliseconds.

  function CountSince(times: seq<int>, lo: int): nat {
    if times == [] then 0
    else CountSince(times[..|times| - 1], lo) + if times[|times| - 1] >= lo then 1 else 0
  }

  /** The times at which calls of `key` were allowed. */
  function Allowed(l: Limits, calls: seq<Call>, key: string): seq<int>
    decreases |calls|, 0
  {
    if calls == [] then []
    else
      var before, c := calls[..|calls| - 1], calls[|calls| - 1];
      Allowed(l, before, key) + if c.key == key && Accepts(l, before, c) then [c.t] else []
  }

  predicate Accepts(l: Limits, calls: seq<Call>, c: Call)
    decreases |calls|, 1
  {
    CountSince(Allowed(l, calls, c.key), c.t - l.windowMs) < l.max
  }

  /** How long a caller is told to wait. */
  function Retry(l: Limits, calls: seq<Call>, key: string, t: int): int
    requires l.max >= 1
  {
    var a := Allowed(l, calls, key);
    if |a| < l.max then 0
    else
      var wait := a[|a| - l.max] + l.windowMs - t;
      if wait > 0 then wait else 0
  }

  ghost predicate Asked(calls: seq<Call>, key: string) {
    exists i :: 0 <= i < |calls| && calls[i].key == key
  }

  /** The clock never runs backwards. */
  ghost predicate Monotone(calls: seq<Call>) {
    forall i, j :: 0 <= i < j < |calls| ==> calls[i].t <= calls[j].t
  }

  ghost predicate NotBefore(calls: seq<Call>, t: int) {
    forall i :: 0 <= i < |calls| ==> calls[i].t <= t
  }

  ghost predicate Sorted(a: seq<int>) {
    forall i, j :: 0 <= i <= j < |a| ==> a[i] <= a[j]
  }

  lemma {:induction false} AllowedSorted(l: Limits, calls: seq<Call>, key: string, t: int)
    requires Monotone(calls) && NotBefore(calls, t)
    ensures Sorted(Allowed(l, calls, key))
    ensures forall i :: 0 <= i < |Allowed(l, calls, key)| ==> Allowed(l, calls, key)[i] <= t
  {
    if calls != [] {
      var before, c := calls[..|calls| - 1], calls[|calls| - 1];
      AllowedSorted(l, before, key, c.t);
    }
  }

  /** In sorted times, counting from `lo` is finding where `lo` would go. */
  lemma {:induction false} CountFrom(a: seq<int>, lo: int, k: nat)
    requires k <= |a|
    requires forall i :: 0 <= i < k ==> a[i] < lo
    requires forall i :: k <= i < |a| ==> a[i] >= lo
    ensures CountSince(a, lo) == |a| - k
  {
    if a != [] {
      CountFrom(a[..|a| - 1], lo, if k == |a| then k - 1 else k);
    }
  }

  /** A sorted log holds `max` times at or after `lo` exactly when the `max`-th last one is. */
  lemma {:induction false} CountReaches(a: seq<int>, lo: int, max: nat)
    requires Sorted(a) && max >= 1
    ensures CountSince(a, lo) >= max <==> |a| >= max && a[|a| - max] >= lo
    decreases a, max
  {
    if a != [] {
      var p := a[..|a| - 1];
      if max == 1 {
        CountNonNegative(p, lo, a[|a| - 1]);
      } else {
        CountReaches(p, lo, max - 1);
        CountNonNegative(p, lo, a[|a| - 1]);
      }
    }
  }

  lemma {:induction false} CountNonNegative(p: seq<int>, lo: int, last: int)
    requires Sorted(p + [last])
    ensures last < lo ==> CountSince(p, lo) == 0
  {
    if last < lo {
      forall i | 0 <= i < |p|
        ensures p[i] < lo
      {
        assert (p + [last])[i] <= (p + [last])[|p|];
      }
      CountFrom(p, lo, |p|);
    }
  }

  lemma AllowedStep(l: Limits, was: seq<Call>, c: Call, key: string)
    ensures Allowed(l, was + [c], key)
         == Allowed(l, was, key) + if c.key == key && Accepts(l, was, c) then [c.t] else []
  {
    assert (was + [c])[..|was|] == was;
  }

  // ----- Whole runs -----

  lemma {:induction false} SpacedOut(l: Limits, calls: seq<Call>, key: string, i: nat)
    requires l.max >= 1 && Monotone(calls) && i + l.max < |Allowed(l, calls, key)|
    ensures Allowed(l, calls, key)[i + l.max] - Allowed(l, calls, key)[i] > l.windowMs
    decreases |calls|
  {
    var before, c := calls[..|calls| - 1], calls[|calls| - 1];
    var a := Allowed(l, before, key);
    if i + l.max < |a| {
      SpacedOut(l, before, key, i);
    } else {
      AllowedSorted(l, before, key, c.t);
      CountReaches(a, c.t - l.windowMs, l.max);
    }
  }

  function CountIn(times: seq<int>, lo: int, hi: int): nat {
    if times == [] then 0
    else CountIn(times[..|times| - 1], lo, hi) + if lo <= times[|times| - 1] <= hi then 1 else 0
  }

  /** At most `max` calls of a key are allowed in any closed window of `windowMs`, over any run. */
  lemma AtMostMaxPerWindow(l: Limits, calls: seq<Call>, key: string, lo: int)
    requires l.max >= 0 && Monotone(calls)
    ensures CountIn(Allowed(l, calls, key), lo, lo + l.windowMs) <= l.max
  {
    if l.max == 0 {
      NothingAllowed(l, calls, key);
    } else {
      hide Allowed, CountIn;
      if calls != [] {
        AllowedSorted(l, calls, key, calls[|calls| - 1].t);
      } else {
        NothingYet(l, key);
      }
      forall i | 0 <= i && i + l.max < |Allowed(l, calls, key)|
        ensures Allowed(l, calls, key)[i + l.max] - Allowed(l, calls, key)[i] > l.windowMs
      {
        SpacedOut(l, calls, key, i);
      }
      FewInWindow(Allowed(l, calls, key), lo, l.windowMs, l.max);
    }
  }

  lemma NothingYet(l: Limits, key: string)
    ensures Allowed(l, [], key) == []
  {
  }

  /** Without a quota nothing is ever allowed. */
  lemma {:induction false} NothingAllowed(l: Limits, calls: seq<Call>, key: string)
    requires l.max <= 0
    ensures Allowed(l, calls, key) == []
  {
    if calls != [] {
      NothingAllowed(l, calls[..|calls| - 1], key);
    }
  }

  lemma {:induction false} FewInWindow(a: seq<int>, lo: int, w: int, max: nat)
    requires Sorted(a) && max >= 1
    requires forall i :: 0 <= i && i + max < |a| ==> a[i + max] - a[i] > w
    ensures CountIn(a, lo, lo + w) <= max
  {
    if a != [] {
      var p, n := a[..|a| - 1], |a| - 1;
      if lo <= a[n] <= lo + w {
        AllBelow(p, lo, lo + w);
        CountReaches(p, lo, max);
      } else {
        FewInWindow(p, lo, w, max);
      }
    }
  }

  lemma {:induction false} AllBelow(a: seq<int>, lo: int, hi: int)
    ensures CountIn(a, lo, hi) <= CountSince(a, lo)
  {
    if a != [] {
      AllBelow(a[..|a| - 1], lo, hi);
    }
  }

  /**
   * The announced wait is exact: told to wait r > 0 at time t, and with no call in between, a call of
   * the key is refused at every time up to and including t + r and allowed at every later one.
   */
  lemma RetryIsExact(l: Limits, calls: seq<Call>, key: string, t: int, later: int)
    requires l.max >= 1 && Monotone(calls) && NotBefore(calls, t) && t <= later
    requires Retry(l, calls, key, t) > 0
    ensures Accepts(l, calls, Call(key, later)) <==> later > t + Retry(l, calls, key, t)
  {
    AllowedSorted(l, calls, key, t);
    CountReaches(Allowed(l, calls, key), later - l.windowMs, l.max);
  }

  /**
   * A wait of 0 promises nothing at one single instant, the one at which the oldest call that counts
   * is exactly `windowMs` old; at every other time it means the call is allowed.
   */
  lemma NoWaitExact(l: Limits, calls: seq<Call>, key: string, t: int)
    requires l.max >= 1 && Monotone(calls) && NotBefore(calls, t)
    requires Retry(l, calls, key, t) == 0
    ensures
      var a := Allowed(l, calls, key);
      Accepts(l, calls, Call(key, t)) <==> !(|a| >= l.max && a[|a| - l.max] + l.windowMs == t)
  {
    AllowedSorted(l, calls, key, t);
    CountReaches(Allowed(l, calls, key), t - l.windowMs, l.max);
  }

  /** The instant exists: one call per second, asked again exactly one second later. */
  lemma NoWaitYetRefused()
    ensures
      var l, calls := Limits(1, 1000), [Call("k", 0)];
      Retry(l, calls, "k", 1000) == 0 && !Accepts(l, calls, Call("k", 1000))
  {
    var l := Limits(1, 1000);
    AllowedStep(l, [], Call("k", 0), "k");
    assert [] + [Call("k", 0)] == [Call("k", 0)];
    CountFrom([], 0, 0);
    assert [] + [0] == [0];
    CountFrom([0], 0, 0);
  }

  // ----- The limiter, which forgets -----

  /** `a` is `full` without some of its oldest times, all of them before `cutoff`. */
  ghost predicate Forgets(a: seq<int>, full: seq<int>, cutoff: int) {
    && |a| <= |full| && a == full[|full| - |a|..]
    && forall i :: 0 <= i < |full| - |a| ==> full[i] < cutoff
  }

  lemma ForgetMore(a: seq<int>, full: seq<int>, cutoff: int, later: int, k: nat)
    requires Forgets(a, full, cutoff) && cutoff <= later
    requires k <= |a| && forall i :: 0 <= i < k ==> a[i] < later
    ensures Forgets(a[k..], full, later)
  {
    forall i | 0 <= i < |full| - |a[k..]|
      ensures full[i] < later
    {
      if i >= |full| - |a| {
        assert full[i] == a[i - (|full| - |a|)];
      }
    }
  }

  /** After dropping the stale times, what is left is what the whole log counts. */
  lemma CountKept(a: seq<int>, full: seq<int>, cutoff: int)
    requires Forgets(a, full, cutoff) && Sorted(full) && (a != [] ==> a[0] >= cutoff)
    ensures CountSince(full, cutoff) == |a|
  {
    var k := |full| - |a|;
    forall i | k <= i < |full|
      ensures full[i] >= cutoff
    {
      assert a[0] == full[k];
    }
    CountFrom(full, cutoff, k);
  }

  function At(hits: map<string, seq<int>>, key: string): seq<int> {
    if key in hits then hits[key] else []
  }

  lemma ForgetsAppend(a: seq<int>, full: seq<int>, cutoff: int, t: int)
    requires Forgets(a, full, cutoff)
    ensures Forgets(a + [t], full + [t], cutoff)
  {
  }

  /** What the limiter remembers of each key is right, as far as calls after `cutoff` can tell. */
  ghost predicate Faithful(l: Limits, hits: map<string, seq<int>>, calls: seq<Call>, cutoff: int) {
    forall key :: Forgets(At(hits, key), Allowed(l, calls, key), cutoff)
  }

  lemma FaithfulAt(l: Limits, hits: map<string, seq<int>>, calls: seq<Call>, cutoff: int, key: string)
    requires Faithful(l, hits, calls, cutoff)
    ensures Forgets(At(hits, key), Allowed(l, calls, key), cutoff)
  {
  }

  lemma MonotoneAppend(calls: seq<Call>, c: Call)
    requires Monotone(calls) && NotBefore(calls, c.t)
    ensures Monotone(calls + [c]) && (calls != [] ==> calls[|calls| - 1].t <= c.t)
  {
  }

  /** As time passes, what was forgotten stays forgotten rightly. */
  lemma {:induction false} CutoffMoves(l: Limits, hits: map<string, seq<int>>, calls: seq<Call>, cutoff: int,
                                       later: int)
    requires Faithful(l, hits, calls, cutoff) && (calls != [] ==> cutoff <= later)
    ensures Faithful(l, hits, calls, later)
  {
    hide Forgets;
    forall key
      ensures Forgets(At(hits, key), Allowed(l, calls, key), later)
    {
      var a, full := At(hits, key), Allowed(l, calls, key);
      assert Forgets(a, full, cutoff);
      if calls == [] {
        ForgetsNothing(a, cutoff, later);
      } else {
        ForgetMore(a, full, cutoff, later, 0);
        assert a[0..] == a;
      }
    }
  }

  lemma ForgetsNothing(a: seq<int>, cutoff: int, later: int)
    requires Forgets(a, [], cutoff)
    ensures Forgets(a, [], later)
  {
  }

  /** A call adds to the log of its own key when it is allowed, and leaves the other keys alone. */
  lemma OneMoreCall(l: Limits, hits: map<string, seq<int>>, was: seq<Call>, c: Call, arr: seq<int>, cutoff: int)
    requires Faithful(l, hits, was, cutoff) && Forgets(arr, Allowed(l, was, c.key), cutoff)
    ensures Faithful(l, hits[c.key := if Accepts(l, was, c) then arr + [c.t] else arr], was + [c], cutoff)
  {
    hide Forgets, Accepts, Allowed;
    var next := if Accepts(l, was, c) then arr + [c.t] else arr;
    forall key
      ensures Forgets(At(hits[c.key := next], key), Allowed(l, was + [c], key), cutoff)
    {
      assert Forgets(At(hits, key), Allowed(l, was, key), cutoff);
      AllowedStep(l, was, c, key);
      ForgetsAppend(arr, Allowed(l, was, c.key), cutoff, c.t);
      assert Allowed(l, was, key) + [] == Allowed(l, was, key);
    }
  }

  /** Pruning one key, and dropping it when nothing is left, changes nothing that can be seen. */
  lemma {:induction false} PruneKey(l: Limits, hits: map<string, seq<int>>, calls: seq<Call>, cutoff: int, k: string,
                                    f: nat, next: map<string, seq<int>>)
    requires Faithful(l, hits, calls, cutoff) && k in hits && f <= |hits[k]|
    requires forall i :: 0 <= i < f ==> hits[k][i] < cutoff
    requires At(next, k) == hits[k][f..] && forall key :: key != k ==> At(next, key) == At(hits, key)
    ensures Faithful(l, next, calls, cutoff)
  {
    hide Forgets, Allowed;
    forall key
      ensures Forgets(At(next, key), Allowed(l, calls, key), cutoff)
    {
      assert Forgets(At(hits, key), Allowed(l, calls, key), cutoff);
      ForgetMore(At(hits, k), Allowed(l, calls, k), cutoff, cutoff, f);
    }
  }

  lemma AskedSnoc(calls: seq<Call>, c: Call)
    ensures forall key :: Asked(calls + [c], key) <==> Asked(calls, key) || c.key == key
  {
    var all := calls + [c];
    assert all[|calls|] == c && forall i :: 0 <= i < |calls| ==> all[i] == calls[i];
    forall key
      ensures Asked(all, key) <==> Asked(calls, key) || c.key == key
    {
      if Asked(calls, key) {
        var i :| 0 <= i < |calls| && calls[i].key == key;
        assert all[i].key == key;
      }
    }
  }

  /** What is kept of a key once its stale times are dropped: all that the whole log counts. */
  lemma {:induction false} KeptOf(l: Limits, hits: map<string, seq<int>>, calls: seq<Call>, cutoff: int, key: string,
                                  t: int, first: nat)
    requires Monotone(calls) && NotBefore(calls, t) && Faithful(l, hits, calls, cutoff)
    requires calls != [] ==> cutoff <= t - l.windowMs
    requires
      var arr := At(hits, key);
      && first <= |arr| && (forall i :: 0 <= i < first ==> arr[i] < t - l.windowMs)
      && (first < |arr| ==> arr[first] >= t - l.windowMs)
    ensures Faithful(l, hits, calls, t - l.windowMs)
    ensures
      var kept := At(hits, key)[first..];
      && Forgets(kept, Allowed(l, calls, key), t - l.windowMs)
      && (|kept| < l.max <==> Accepts(l, calls, Call(key, t)))
  {
    hide Forgets, Allowed, Faithful, CountSince, Sorted;
    var arr, full, cut := At(hits, key), Allowed(l, calls, key), t - l.windowMs;
    CutoffMoves(l, hits, calls, cutoff, cut);
    AllowedSorted(l, calls, key, t);
    FaithfulAt(l, hits, calls, cut, key);
    ForgetMore(arr, full, cut, cut, first);
    CountKept(arr[first..], full, cut);
  }

  class RateLimiter {
    const l: Limits
    var hits: map<string, seq<int>>
    var lastSweepAt: int
    /** Every call there was, and the latest cutoff that was applied. */
    ghost var calls: seq<Call>
    ghost var cutoff: int

    ghost predicate Valid()
      reads this
    {
      Remembers() && (l.max < 1 ==> forall key :: key in hits <==> Asked(calls, key))
    }

    ghost predicate Remembers()
      reads this
    {
      && Monotone(calls)
      && (calls != [] ==> cutoff == calls[|calls| - 1].t - l.windowMs)
      && Faithful(l, hits, calls, cutoff)
      && ShortOrEmpty()
    }

    ghost predicate ShortOrEmpty()
      reads this
    {
      forall key :: key in hits ==> |hits[key]| <= l.max || hits[key] == []
    }

    constructor (max: int, windowMs: int)
      ensures Valid() && calls == [] && l == Limits(max, windowMs)
    {
      l := Limits(max, windowMs);
      hits := map[];
      lastSweepAt := 0;
      calls, cutoff := [], 0;
    }

    /** Allowed exactly when the log of everything says so; the sweep never shows. */
    method Allow(key: string, t: int) returns (r: bool)
      requires Valid() && NotBefore(calls, t)
      modifies this
      ensures Valid() && calls == old(calls) + [Call(key, t)]
      ensures r == Accepts(l, old(calls), Call(key, t))
    {
      hide Forgets, Allowed, Faithful, Asked, Accepts;
      ghost var was := calls;
      var cutoffT := t - l.windowMs;
      MonotoneAppend(was, Call(key, t));
      var arr := if key in hits then hits[key] else [];
      var first := StaleCount(arr, cutoffT);
      KeptOf(l, hits, was, cutoff, key, t, first);
      arr := arr[first..];
      OneMoreCall(l, hits, was, Call(key, t), arr, cutoffT);
      AskedSnoc(was, Call(key, t));
      calls, cutoff := was + [Call(key, t)], cutoffT;
      if |arr| >= l.max {
        hits := hits[key := arr];
        return false;
      }
      arr := arr + [t];
      hits := hits[key := arr];
      if t - lastSweepAt > l.windowMs * 10 {
        lastSweepAt := t;
        Sweep(cutoffT);
      }
      return true;
    }

    /** Drops the stale times of every key, and the keys that have none left. */
    method Sweep(cut: int)
      requires Remembers() && cut == cutoff
      modifies `hits
      ensures Remembers()
    {
      hide Forgets, Faithful;
      var keys := hits.Keys;
      while keys != {}
        invariant Remembers() && keys <= hits.Keys
        decreases keys
      {
        var k :| k in keys;
        keys := keys - {k};
        var f := StaleCount(hits[k], cut);
        var v := hits[k][f..];
        var next := if |v| == 0 then hits - {k} else hits[k := v];
        PruneKey(l, hits, calls, cutoff, k, f, next);
        hits := next;
      }
    }

    /**
     * How long until a refused caller can be allowed again, from what is remembered alone. Without a quota, a key that
     * ever called is told to wait as if its oldest call had been at time 0.
     */
    method RetryAfterMs(key: string, t: int) returns (r: int)
      requires Valid() && NotBefore(calls, t)
      ensures r >= 0 && (l.max >= 1 ==> r == Retry(l, calls, key, t))
      ensures l.max < 1 ==>
                r == if Asked(calls, key) && l.windowMs > t then l.windowMs - t else 0
    {
      ghost var a, full := At(hits, key), Allowed(l, calls, key);
      assert Forgets(a, full, cutoff);
      assert calls != [] ==> calls[|calls| - 1].t <= t;
      if key !in hits || |hits[key]| < l.max {
        return 0;
      }
      var arr := hits[key];
      var oldest := if arr == [] then 0 else arr[0];
      var ready := oldest + l.windowMs;
      return if ready - t > 0 then ready - t else 0;
    }
  }

  method StaleCount(arr: seq<int>, cutoff: int) returns (first: nat)
    ensures first <= |arr|
    ensures forall i :: 0 <= i < first ==> arr[i] < cutoff
    ensures first < |arr| ==> arr[first] >= cutoff
  {
    first := 0;
    while first < |arr| && arr[first] < cutoff
      invariant first <= |arr|
      invariant forall i :: 0 <= i < first ==> arr[i] < cutoff
    {
      first := first + 1;
    }
  }
}
