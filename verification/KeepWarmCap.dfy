/**
 * How often a session may be pinged with nobody around (src/hub/keep-warm.ts): the limit on the pings of one enabled
 * period, and what a forgetting in the middle of the period does to it.
 */
module KeepWarmCap {
  import opened KeepWarm
  import opened Options
  import opened Text

  // ----- The past of one enabled period -----

  /** In this stretch the session was neither enabled nor disabled. */
  ghost predicate OnePeriod(w: seq<Event>) {
    forall i :: 0 <= i < |w| ==> w[i].Pinged? || w[i].Forgotten?
  }

  ghost predicate ForgottenSincePing(w: seq<Event>) {
    exists a, b :: 0 <= a < b < |w| && w[a].Pinged? && w[b].Forgotten?
  }

  ghost predicate ForgottenBetween(w: seq<Event>) {
    exists a, f, b :: 0 <= a < f < b < |w| && w[a].Pinged? && w[f].Forgotten? && w[b].Pinged?
  }

  function Limit(c: Config): nat {
    if c.maxConsecutivePings < 0 then 0 else c.maxConsecutivePings
  }

  /** Without a forgetting since its first ping, a period ends in nothing but its pings. */
  lemma {:induction false} PingsAtEnd(w: seq<Event>) returns (k: nat)
    requires OnePeriod(w) && !ForgottenSincePing(w)
    ensures k <= |w| && OnlyPings(w[k..]) && Pings(w) == w[k..]
  {
    k := 0;
    if w != [] {
      var p, e := w[..|w| - 1], w[|w| - 1];
      assert w == p + [e];
      OneMoreEvent(p, e);
      NoneSincePing(p, e);
      hide Pings, ForgottenSincePing;
      k := PingsAtEnd(p);
      if e.Forgotten? {
        if k < |p| {
          PingThenForgotten(p, e, k);
        }
        k := |w|;
      } else {
        assert w[k..] == p[k..] + [e];
      }
    }
  }

  lemma PingThenForgotten(p: seq<Event>, e: Event, k: nat)
    requires e.Forgotten? && k < |p| && OnlyPings(p[k..])
    ensures ForgottenSincePing(p + [e])
  {
    var w := p + [e];
    assert w[k] == p[k..][0] && w[|p|] == e;
  }

  lemma SincePing(w: seq<Event>, a: nat, b: nat)
    requires a < b < |w| && w[a].Pinged? && w[b].Forgotten?
    ensures ForgottenSincePing(w)
  {
  }

  lemma NoneSincePing(p: seq<Event>, e: Event)
    requires OnePeriod(p + [e])
    ensures OnePeriod(p)
    ensures ForgottenSincePing(p) ==> ForgottenSincePing(p + [e])
    ensures e.Pinged? && ForgottenSincePing(p + [e]) ==> ForgottenSincePing(p)
    ensures e.Pinged? && ForgottenSincePing(p) ==> ForgottenBetween(p + [e])
    ensures ForgottenBetween(p) ==> ForgottenBetween(p + [e])
  {
    var w := p + [e];
    assert w[|p|] == e && forall i :: 0 <= i < |p| ==> w[i] == p[i];
    if ForgottenBetween(p) {
      var a, f, b :| 0 <= a < f < b < |p| && p[a].Pinged? && p[f].Forgotten? && p[b].Pinged?;
      assert w[a].Pinged? && w[f].Forgotten? && w[b].Pinged?;
    }
    if ForgottenSincePing(p) {
      var a, b :| 0 <= a < b < |p| && p[a].Pinged? && p[b].Forgotten?;
      assert w[a].Pinged? && w[b].Forgotten?;
    }
  }

  lemma PingsPrefix(p: seq<Event>, e: Event)
    requires Unprompted(Pings(p + [e]))
    ensures Unprompted(Pings(p))
  {
    OneMoreEvent(p, e);
    var a, b := Pings(p), Pings(p + [e]);
    hide Pings;
    assert |a| <= |b| && forall i :: 0 <= i < |a| ==> a[i] == b[i];
  }

  /**
   * In a lawful past the unprompted pings of a period keep to the limit, unless something was forgotten between two.
   */
  lemma {:induction false} LawfulPeriod(c: Config, h: seq<Event>, i: nat, j: nat)
    requires Lawful(c, h) && i <= j <= |h|
    requires OnePeriod(h[i..j]) && Unprompted(Pings(h[i..j])) && !ForgottenBetween(h[i..j])
    ensures |Pings(h[i..j])| <= Limit(c)
    decreases j
  {
    hide Lawful, Pings, Unprompted, ForgottenBetween, ForgottenSincePing, OnePeriod, OnlyPings;
    var w := h[i..j];
    if i == j {
      NoPings(w);
    } else {
      var p, e := h[i..j - 1], h[j - 1];
      assert w == p + [e];
      OneMoreEvent(p, e);
      NoneSincePing(p, e);
      PingsPrefix(p, e);
      if e.Pinged? {
        var k := PingsAtEnd(w);
        assert w[k..] == h[i + k..j];
        LawfulStretch(c, h, i + k, j);
      } else {
        LawfulPeriod(c, h, i, j - 1);
      }
    }
  }

  // ----- Every run -----

  /**
   * No enabled period has more pings than the limit with no newer user prompt between them, if nothing is forgotten
   * between two of them.
   */
  lemma {:induction false} AbandonedCap(c: Config, inputs: seq<Input>, key: string, i: nat, j: nat)
    requires i <= j <= |Past(Run(c, inputs), key)|
    requires
      var w := Past(Run(c, inputs), key)[i..j];
      OnePeriod(w) && Unprompted(Pings(w)) && !ForgottenBetween(w)
    ensures |Pings(Past(Run(c, inputs), key)[i..j])| <= Limit(c)
  {
    RunKeeps(c, inputs);
    hide Run;
    assert KeyOk(c, Run(c, inputs), key);
    LawfulPeriod(c, Past(Run(c, inputs), key), i, j);
  }

  /** The inputs `more` forget nothing, and after them the period that began at place i exceeds the limit. */
  ghost predicate Exceeds(c: Config, inputs: seq<Input>, more: seq<Input>, key: string, i: nat, j: nat) {
    var g := Past(Run(c, inputs + more), key);
    NoneForgets(more) && i <= j <= |g| && OnePeriod(g[i..j]) && Unprompted(Pings(g[i..j]))
        && |Pings(g[i..j])| > Limit(c)
  }

  /** An enabled session, and its period so far, with nobody around. */
  ghost predicate InPeriod(s: State, key: string, i: nat) {
    && key in s.items && i <= |Past(s, key)|
    && OnePeriod(Past(s, key)[i..]) && Unprompted(Pings(Past(s, key)[i..]))
  }

  /**
   * The limit, exactly: when nothing more is forgotten, a period with nobody around can come to exceed the limit if
   * and only if something was forgotten since its first ping.
   */
  lemma {:induction false} LimitIffRemembered(c: Config, inputs: seq<Input>, key: string, i: nat)
    requires InPeriod(Run(c, inputs), key, i)
    ensures (exists more: seq<Input>, j: nat :: Exceeds(c, inputs, more, key, i, j)) <==>
            ForgottenSincePing(Past(Run(c, inputs), key)[i..])
  {
    hide Run, Exceeds, Pings;
    if ForgottenSincePing(Past(Run(c, inputs), key)[i..]) {
      GoesOver(c, inputs, key, i);
    } else {
      forall more: seq<Input>, j: nat
        ensures !Exceeds(c, inputs, more, key, i, j)
      {
        NeverOver(c, inputs, more, key, i, j);
      }
    }
  }

  lemma {:induction false} NeverOver(c: Config, inputs: seq<Input>, more: seq<Input>, key: string, i: nat, j: nat)
    requires InPeriod(Run(c, inputs), key, i) && !ForgottenSincePing(Past(Run(c, inputs), key)[i..])
    ensures !Exceeds(c, inputs, more, key, i, j)
  {
    if Exceeds(c, inputs, more, key, i, j) {
      RunGrows(c, inputs, more, key);
      hide Run, Pings, Unprompted;
      StillNone(Past(Run(c, inputs), key), Past(Run(c, inputs + more), key), i, j);
      AbandonedCap(c, inputs + more, key, i, j);
    }
  }

  lemma StillNone(h: seq<Event>, g: seq<Event>, i: nat, j: nat)
    requires Grew(h, g) && i <= |h| && i <= j <= |g| && !ForgottenSincePing(h[i..])
    ensures !ForgottenBetween(g[i..j])
  {
    var w := g[i..j];
    forall a, f | 0 <= a < f < |w| && w[a].Pinged?
      ensures !w[f].Forgotten?
    {
      if i + f < |h| {
        assert w[a] == h[i..][a] && w[f] == h[i..][f];
      } else {
        assert w[f] == g[|h|..][i + f - |h|];
      }
    }
  }

  // ----- One ping more -----

  /** After a forgetting the streak is shorter than the pings of the period. */
  lemma {:induction false} StreakIsShort(h: seq<Event>, i: nat)
    requires i <= |h| && OnePeriod(h[i..]) && ForgottenSincePing(h[i..])
    ensures Unattended(h) < |Pings(h[i..])|
    decreases |h|
  {
    TwoEvents(h[i..]);
    var p, e := h[..|h| - 1], h[|h| - 1];
    var w, v := h[i..], p[i..];
    assert w == v + [e] && h == p + [e];
    OneMoreEvent(v, e);
    NoneSincePing(v, e);
    StreakSnoc(p, e);
    FirstIsPinged(w);
    assert e.Pinged? || e.Forgotten? by { assert w[|v|] == e; }
    hide Pings, Unattended, OnePeriod, ForgottenSincePing;
    if e.Pinged? {
      StreakIsShort(p, i);
    }
  }

  lemma TwoEvents(w: seq<Event>)
    requires ForgottenSincePing(w)
    ensures |w| >= 2
  {
  }

  lemma FirstIsPinged(w: seq<Event>)
    requires ForgottenSincePing(w)
    ensures Pings(w) != []
  {
    var a, b :| 0 <= a < b < |w| && w[a].Pinged? && w[b].Forgotten?;
    SomePing(w, a);
  }

  lemma StreakSnoc(h: seq<Event>, e: Event)
    ensures Unattended(h + [e]) <= if e.Pinged? then Unattended(h) + 1 else 0
  {
    assert (h + [e])[..|h + [e]| - 1] == h;
  }

  lemma {:induction false} SomePing(w: seq<Event>, a: nat)
    requires a < |w| && w[a].Pinged?
    ensures Pings(w) != []
  {
    var p := w[..|w| - 1];
    if a < |p| {
      SomePing(p, a);
    }
  }

  /** A session that was last prompted at the time `prompt` and is otherwise ready for a ping at time t. */
  function IdleSince(c: Config, t: int, prompt: int): Session {
    Session(t - c.intervalMs, AwaitingInput, false, true, true, prompt)
  }

  lemma AfterPing(c: Config, s: State, timer: nat, t: int, prompt: int)
    requires s.timers.CanFire(timer, t) && s.timers.armed[timer].owner in s.items
    requires
      var key := s.timers.armed[timer].owner;
      && (key in s.lastPingAt ==> t - s.lastPingAt[key] >= c.recheckMs)
      && Streak(s, key, IdleSince(c, t, prompt)) + 1 <= c.maxConsecutivePings
    ensures
      var key := s.timers.armed[timer].owner;
      var n := Step(c, s, Fire(timer, Some(IdleSince(c, t, prompt)), t, true, t));
      key in n.items && Past(n, key) == Past(s, key) + [Pinged(t, IdleSince(c, t, prompt))]
  {
    hide Streak;
    var key := s.timers.armed[timer].owner;
    SameStreak(s, s.(timers := s.timers.Disarm(timer)), key, IdleSince(c, t, prompt));
  }

  function LastAt(pings: seq<Event>): int
    requires pings != [] && Unprompted(pings)
  {
    pings[|pings| - 1].at
  }

  /** Once something was forgotten since the first ping of the period, the next timer can ping again at the limit. */
  lemma {:induction false} PingedOnce(c: Config, inputs: seq<Input>, key: string, i: nat) returns (x: Input, e: Event)
    requires
      var h := Past(Run(c, inputs), key);
      InPeriod(Run(c, inputs), key, i) && ForgottenSincePing(h[i..]) && |Pings(h[i..])| <= Limit(c)
    ensures
      var s, n := Run(c, inputs), Run(c, inputs + [x]);
      && !Forgets(x) && e.Pinged? && key in n.items && Past(n, key) == Past(s, key) + [e]
      && Unprompted(Pings(Past(s, key)[i..]) + [e])
  {
    var s := Run(c, inputs);
    var h := Past(s, key);
    RunKeeps(c, inputs);
    ItemsMatchTimers(c, inputs);
    hide Run, Step, Pings, ForgottenSincePing;
    assert KeyOk(c, s, key);
    StreakIsShort(h, i);
    var timer, pings := s.items[key].timer.value, Pings(h[i..]);
    FirstIsPinged(h[i..]);
    var due := s.timers.armed[timer].due;
    var t := if key in s.lastPingAt then Max(due, s.lastPingAt[key] + c.recheckMs) else due;
    var prompt := LastAt(pings);
    assert Streak(s, key, IdleSince(c, t, prompt)) <= if key in s.lastPingAt then Unattended(h) else 0;
    hide Streak, KeyOk, Unattended, Inv;
    AfterPing(c, s, timer, t, prompt);
    x := Fire(timer, Some(IdleSince(c, t, prompt)), t, true, t);
    e := Pinged(t, IdleSince(c, t, prompt));
    RunSnoc(c, inputs, x);
  }

  lemma {:induction false} GoesOver(c: Config, inputs: seq<Input>, key: string, i: nat)
    requires InPeriod(Run(c, inputs), key, i) && ForgottenSincePing(Past(Run(c, inputs), key)[i..])
    ensures exists more: seq<Input>, j: nat :: Exceeds(c, inputs, more, key, i, j)
    decreases Limit(c) + 1 - |Pings(Past(Run(c, inputs), key)[i..])|
  {
    hide Run, Pings, ForgottenSincePing, Exceeds, Unprompted, OnePeriod, Past;
    if |Pings(Past(Run(c, inputs), key)[i..])| > Limit(c) {
      AlreadyOver(c, inputs, key, i);
    } else {
      var x := OneStepOn(c, inputs, key, i);
      GoesOver(c, inputs + [x], key, i);
      var more: seq<Input>, j: nat :| Exceeds(c, inputs + [x], more, key, i, j);
      OneInputMore(c, inputs, x, more, key, i, j);
    }
  }

  lemma AlreadyOver(c: Config, inputs: seq<Input>, key: string, i: nat)
    requires InPeriod(Run(c, inputs), key, i) && |Pings(Past(Run(c, inputs), key)[i..])| > Limit(c)
    ensures exists more: seq<Input>, j: nat :: Exceeds(c, inputs, more, key, i, j)
  {
    var h := Past(Run(c, inputs), key);
    assert inputs + [] == inputs && h[i..|h|] == h[i..];
    hide Pings, Run, OnePeriod, Unprompted, Past;
    assert Exceeds(c, inputs, [], key, i, |h|);
  }

  lemma {:induction false} OneStepOn(c: Config, inputs: seq<Input>, key: string, i: nat) returns (x: Input)
    requires
      var h := Past(Run(c, inputs), key);
      InPeriod(Run(c, inputs), key, i) && ForgottenSincePing(h[i..]) && |Pings(h[i..])| <= Limit(c)
    ensures !Forgets(x) && InPeriod(Run(c, inputs + [x]), key, i)
    ensures
      var w, v := Past(Run(c, inputs), key)[i..], Past(Run(c, inputs + [x]), key)[i..];
      ForgottenSincePing(v) && |Pings(v)| == |Pings(w)| + 1
  {
    hide Run, Pings, ForgottenSincePing, Unprompted, OnePeriod, Past;
    var e;
    x, e := PingedOnce(c, inputs, key, i);
    var w := Past(Run(c, inputs), key)[i..];
    assert Past(Run(c, inputs + [x]), key)[i..] == w + [e];
    OneMoreEvent(w, e);
    LaterToo(w, e);
  }

  lemma LaterToo(w: seq<Event>, e: Event)
    requires OnePeriod(w) && ForgottenSincePing(w) && e.Pinged?
    ensures OnePeriod(w + [e]) && ForgottenSincePing(w + [e])
  {
    NoneSincePing(w, e);
    hide ForgottenSincePing;
  }

  lemma OneInputMore(c: Config, inputs: seq<Input>, x: Input, more: seq<Input>, key: string, i: nat, j: nat)
    requires Exceeds(c, inputs + [x], more, key, i, j) && !Forgets(x)
    ensures Exceeds(c, inputs, [x] + more, key, i, j)
  {
    hide Run, Pings, OnePeriod, Unprompted;
    assert inputs + ([x] + more) == inputs + [x] + more;
  }

  // ----- When something can be forgotten within a period -----

  /** A disabling on all hosts, of an id that is read from the key but is not the session's own. */
  predicate Mistakes(s: State, i: Input, key: string) {
    && key in s.items && key in s.lastPingAt
    && i.Disable? && i.host.None? && i.forget && i.sid == SidOfKey(key) && i.sid != s.items[key].sid
  }

  /** Only such a step forgets the last ping of a session and leaves it enabled. */
  lemma {:induction false} ForgottenWhileEnabled(c: Config, s: State, i: Input, key: string)
    requires key in s.items
    ensures Past(Step(c, s, i), key) == Past(s, key) + [Forgotten] <==> Mistakes(s, i, key)
    ensures Mistakes(s, i, key) ==> key in Step(c, s, i).items && Step(c, s, i).items[key] == s.items[key]
  {
    var h := Past(s, key);
    hide KeyFor, SidOfKey;
    if Forgets(i) {
      hide TimersOf;
      assert (h + [Disabled])[|h|] == Disabled && (h + [Disabled] + [Forgotten])[|h|] == Disabled;
    } else {
      assert h[|h|..] == [];
      StepGrows(c, s, i, h, key);
      hide Step;
      assert (h + [Forgotten])[|h|..] == [Forgotten];
      assert [Forgotten][0].Forgotten?;
    }
  }

  predicate PlainHost(host: Option<string>) {
    host.None? || '|' !in host.value
  }

  /** If the host has no separator in it, no step is a mistake. */
  lemma PlainIsNoMistake(c: Config, s: State, i: Input, key: string)
    requires Inv(c, s) && key in s.items && PlainHost(s.items[key].host)
    ensures !Mistakes(s, i, key)
  {
    SidOfKeyExact(s.items[key].sid, s.items[key].host);
    hide Counted, SidOfKey;
    assert KeyFor(s.items[key].sid, s.items[key].host) == key;
  }

  ghost predicate ForgottenDisabled(h: seq<Event>) {
    forall k :: 0 <= k < |h| && h[k].Forgotten? ==> !IsEnabled(h[..k])
  }

  lemma StillDisabled(h: seq<Event>, g: seq<Event>)
    requires ForgottenDisabled(h) && Grew(h, g)
    ensures ForgottenDisabled(g)
  {
    hide IsEnabled;
    assert forall k :: |h| <= k < |g| ==> g[k] == g[|h|..][k - |h|];
    assert forall k :: 0 <= k < |h| ==> g[k] == h[k] && g[..k] == h[..k];
  }

  lemma OneForgotten(h: seq<Event>)
    requires ForgottenDisabled(h) && !IsEnabled(h)
    ensures ForgottenDisabled(h + [Forgotten])
  {
    hide IsEnabled;
    var g := h + [Forgotten];
    assert g[..|h|] == h && forall k :: 0 <= k < |h| ==> g[..k] == h[..k] && g[k] == h[k];
  }

  /** A session is enabled under the key only with a host that has no separator in it. */
  predicate EnablesPlain(i: Input, key: string) {
    i.Enable? && KeyFor(i.sid, i.host) == key ==> PlainHost(i.host)
  }

  ghost predicate PlainOk(s: State, key: string) {
    ForgottenDisabled(Past(s, key)) && (key in s.items ==> PlainHost(s.items[key].host))
  }

  lemma GrewNot(h: seq<Event>)
    ensures Grew(h, h)
  {
    assert h[|h|..] == [];
  }

  lemma {:induction false} ForgettingPlain(c: Config, s: State, i: Input, key: string)
    requires Inv(c, s) && PlainOk(s, key) && Forgets(i)
    ensures PlainOk(Step(c, s, i), key)
  {
    var keys := EnabledKeys(s, i.sid, i.host);
    var t := Removing(s, keys);
    KeysAreEnabled(s, i.sid, i.host);
    RemovingKeeps(c, s, {}, keys);
    assert {} - keys == {};
    GrewNot(Past(s, key));
    RemovingGrows(s, keys, Past(s, key), key);
    StillDisabled(Past(s, key), Past(t, key));
    if key in s.items {
      PlainIsNoMistake(c, s, i, key);
    }
    RemovedItems(s, keys);
    RemovedFloors(s, keys);
    EnabledOk(c, t, key);
    hide ForgottenDisabled, IsEnabled, SidOfKey, Inv, Removing, KeyFor;
    var gone := ForgottenKeys(t, i.sid, i.host);
    ForgottenPast(t, gone, key);
    if key in gone {
      OneForgotten(Past(t, key));
    }
    hide Past;
  }

  lemma KeysAreEnabled(s: State, sid: string, host: Option<string>)
    ensures EnabledKeys(s, sid, host) <= s.items.Keys
  {
  }

  lemma RemovedFloors(s: State, keys: set<string>)
    ensures Removing(s, keys).lastPingAt == s.lastPingAt
  {
  }

  lemma EnabledOk(c: Config, s: State, key: string)
    requires Inv(c, s)
    ensures IsEnabled(Past(s, key)) == (key in s.items)
  {
    hide Matched, Lawful, IsEnabled;
    assert KeyOk(c, s, key);
  }

  lemma ForgottenPast(s: State, gone: set<string>, key: string)
    ensures Past(Forgetting(s, gone), key) == Past(s, key) + if key in gone then [Forgotten] else []
  {
  }

  lemma {:induction false} OtherPlain(c: Config, s: State, i: Input, key: string)
    requires Inv(c, s) && PlainOk(s, key) && !Forgets(i) && EnablesPlain(i, key)
    ensures PlainOk(Step(c, s, i), key)
  {
    var h := Past(s, key);
    GrewNot(h);
    StepGrows(c, s, i, h, key);
    StillDisabled(h, Past(Step(c, s, i), key));
    HostsStayPlain(c, s, i, key);
    hide Step, Inv, ForgottenDisabled, Past, Grew;
  }

  lemma {:induction false} HostsStayPlain(c: Config, s: State, i: Input, key: string)
    requires (key in s.items ==> PlainHost(s.items[key].host)) && EnablesPlain(i, key)
    ensures key in Step(c, s, i).items ==> PlainHost(Step(c, s, i).items[key].host)
  {
    hide KeyFor, Noted, TimersOf, ForgottenKeys, EnabledKeys, Streak, Checked, PlainHost;
    if i.Fire? && s.timers.CanFire(i.timer, i.now) {
      var d := s.(timers := s.timers.Disarm(i.timer));
      CheckedHosts(c, d, s.timers.armed[i.timer].owner, i.session, i.now, i.ok, i.after, key);
    }
    PlainIsPlain(i);
  }

  lemma PlainIsPlain(i: Input)
    ensures i.Enable? && PlainHost(i.host) ==>
              PlainHost(if i.host.Some? && i.host.value != "" then i.host else None)
  {
  }

  lemma {:induction false} CheckedHosts(c: Config, s: State, k: string, session: Option<Session>, now: int, ok: bool,
                                        after: int, key: string)
    ensures
      var t := Checked(c, s, k, session, now, ok, after);
      key in t.items ==> key in s.items && t.items[key].host == s.items[key].host
  {
    hide Noted, TimersOf, Streak, Rearmed, Removing;
    if k in s.items {
      var item := s.items[k].(timer := None, lastSkipReason := None, failed := false);
      RemovedItems(s.(items := s.items[k := item]), {k});
      forall t: State, j: Item, ms: int
        ensures Rearmed(t, k, j, after, ms).items.Keys == t.items.Keys + {k}
        ensures forall x :: x in t.items || x == k ==>
                  Rearmed(t, k, j, after, ms).items[x].host == if x == k then j.host else t.items[x].host
      {
        RearmedHosts(t, k, j, after, ms);
      }
    }
  }

  lemma RearmedHosts(s: State, key: string, item: Item, now: int, ms: int)
    ensures
      var t := Rearmed(s, key, item, now, ms);
      && t.items.Keys == s.items.Keys + {key}
      && forall x :: x in s.items || x == key ==> t.items[x].host == if x == key then item.host else s.items[x].host
  {
  }

  lemma {:induction false} RunPlain(c: Config, inputs: seq<Input>, key: string)
    requires forall n :: 0 <= n < |inputs| ==> EnablesPlain(inputs[n], key)
    ensures PlainOk(Run(c, inputs), key)
  {
    if inputs != [] {
      var before, i := inputs[..|inputs| - 1], inputs[|inputs| - 1];
      RunPlain(c, before, key);
      RunKeeps(c, before);
      hide PlainOk, Inv, Step;
      if Forgets(i) {
        ForgettingPlain(c, Run(c, before), i, key);
      } else {
        OtherPlain(c, Run(c, before), i, key);
      }
    }
  }

  lemma {:induction false} StaysEnabled(h: seq<Event>, a: nat, f: nat)
    requires a <= f <= |h| && IsEnabled(h[..a]) && OnePeriod(h[a..f])
    ensures IsEnabled(h[..f])
    decreases f
  {
    if a < f {
      assert h[a..f][f - 1 - a] == h[f - 1] && h[a..f - 1] == h[a..f][..f - 1 - a];
      StaysEnabled(h, a, f - 1);
      assert h[..f][..f - 1] == h[..f - 1];
    }
  }

  /**
   * Under a key whose hosts have no separator in them, no enabled period has more pings than the limit with no newer
   * user prompt between them, whatever is forgotten and whenever.
   */
  lemma {:induction false} PlainCap(c: Config, inputs: seq<Input>, key: string, i: nat, j: nat)
    requires forall n :: 0 <= n < |inputs| ==> EnablesPlain(inputs[n], key)
    requires i <= j <= |Past(Run(c, inputs), key)|
    requires OnePeriod(Past(Run(c, inputs), key)[i..j]) && Unprompted(Pings(Past(Run(c, inputs), key)[i..j]))
    ensures |Pings(Past(Run(c, inputs), key)[i..j])| <= Limit(c)
  {
    RunPlain(c, inputs, key);
    RunKeeps(c, inputs);
    hide Run, Pings, Unprompted;
    var h := Past(Run(c, inputs), key);
    assert KeyOk(c, Run(c, inputs), key);
    hide KeyOk;
    NothingBetween(c, h, i, j);
    AbandonedCap(c, inputs, key, i, j);
  }

  lemma {:induction false} NothingBetween(c: Config, h: seq<Event>, i: nat, j: nat)
    requires Lawful(c, h) && ForgottenDisabled(h) && i <= j <= |h| && OnePeriod(h[i..j])
    ensures !ForgottenBetween(h[i..j])
  {
    var w := h[i..j];
    hide IsEnabled, Lawful, ForgottenDisabled;
    forall a, f | 0 <= a < f < |w| && w[a].Pinged?
      ensures !w[f].Forgotten?
    {
      NotForgottenYet(c, h, i, j, i + a, i + f);
    }
  }

  lemma {:induction false} NotForgottenYet(c: Config, h: seq<Event>, i: nat, j: nat, a: nat, f: nat)
    requires Lawful(c, h) && ForgottenDisabled(h) && i <= j <= |h| && OnePeriod(h[i..j])
    requires i <= a < f < j && h[a].Pinged?
    ensures !h[f].Forgotten?
  {
    hide IsEnabled;
    assert MayFollow(c, h[..a], h[a]);
    hide Lawful;
    PartOfPeriod(h, i, j, a, f);
    StaysEnabled(h, a, f);
  }

  lemma PartOfPeriod(h: seq<Event>, i: nat, j: nat, a: nat, f: nat)
    requires i <= a <= f <= j <= |h| && OnePeriod(h[i..j])
    ensures OnePeriod(h[a..f])
  {
    var w, v := h[i..j], h[a..f];
    assert forall k :: 0 <= k < |v| ==> v[k] == w[a - i + k];
  }

  // ----- A run that exceeds the limit -----

  /** Enabled on a host with a separator in its name and pinged; then another id is closed on no host in particular. */
  function Mistaken(c: Config, a: string, b: string, sid: string, t: int): seq<Input> {
    Again(c, INITIAL, sid, Some(a + "|" + b), t) + [Disable(b + "|" + sid, None, true)]
  }

  lemma {:induction false} AfterMistake(c: Config, a: string, b: string, sid: string, t: int)
    requires c.maxConsecutivePings >= 1 && '|' !in a
    ensures
      var s, key := Run(c, Mistaken(c, a, b, sid, t)), KeyFor(sid, Some(a + "|" + b));
      key in s.items && Past(s, key) == [Enabled, Pinged(t, IdleAt(c, t)), Forgotten]
  {
    var host, other := Some(a + "|" + b), b + "|" + sid;
    var first := Again(c, INITIAL, sid, host, t);
    var key, i := KeyFor(sid, host), Disable(other, None, true);
    assert Run(c, []) == INITIAL && [] + first == first;
    PingedAgain(c, [], sid, host, t);
    RunSnoc(c, first, i);
    hide Run, Step, Again;
    ReadsOther(a, b, sid);
    ForgottenWhileEnabled(c, Run(c, first), i, key);
  }

  lemma ReadsOther(a: string, b: string, sid: string)
    requires '|' !in a
    ensures SidOfKey(KeyFor(sid, Some(a + "|" + b))) == b + "|" + sid && |b + "|" + sid| > |sid|
  {
    var key := KeyFor(sid, Some(a + "|" + b));
    assert key == a + "|" + (b + "|" + sid);
    assert key[|a|] == '|' && forall k :: 0 <= k < |a| ==> key[k] == a[k];
    assert IndexOf(key, '|') == |a|;
  }

  /** So the limit can be exceeded under every configuration that pings at all. */
  lemma {:induction false} MistakeGoesOver(c: Config, a: string, b: string, sid: string, t: int)
    requires c.maxConsecutivePings >= 1 && '|' !in a
    ensures exists more: seq<Input>, j: nat ::
              Exceeds(c, Mistaken(c, a, b, sid, t), more, KeyFor(sid, Some(a + "|" + b)), 1, j)
  {
    var inputs, key := Mistaken(c, a, b, sid, t), KeyFor(sid, Some(a + "|" + b));
    AfterMistake(c, a, b, sid, t);
    hide Run, Mistaken, KeyFor, Exceeds;
    var h := Past(Run(c, inputs), key);
    OnePingForgotten(h[1..], Pinged(t, IdleAt(c, t)));
    hide Pings, ForgottenSincePing, OnePeriod, Unprompted;
    assert InPeriod(Run(c, inputs), key, 1);
    GoesOver(c, inputs, key, 1);
  }

  lemma OnePingForgotten(w: seq<Event>, ping: Event)
    requires w == [ping, Forgotten] && ping.Pinged?
    ensures OnePeriod(w) && Unprompted(Pings(w)) && ForgottenSincePing(w)
  {
    NoPings([]);
    OneMoreEvent([], ping);
    OneMoreEvent([ping], Forgotten);
    assert [] + [ping] == [ping] && w == [ping] + [Forgotten];
    SincePing(w, 0, 1);
    hide Pings;
    assert Pings(w) == [ping];
  }
}
