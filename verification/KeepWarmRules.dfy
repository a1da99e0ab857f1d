/**
 * When a session is pinged, skipped or given up (src/hub/keep-warm.ts), told by its past: what every timer that fires
 * in any run comes to, and what enabling and disabling do.
 */
module KeepWarmRules {
  import opened KeepWarm
  import opened Options
  import opened Timers

  // ----- When a timer fires -----

  predicate IsGone(session: Option<Session>) {
    session.None? || !session.value.open
  }

  predicate IsIdle(c: Config, st: Session, now: int) {
    now - st.lastEventAt >= c.intervalMs
  }

  /** The last remembered ping is long enough ago. */
  predicate PastFloor(c: Config, h: seq<Event>, now: int) {
    LastPing(h).Some? ==> now - LastPing(h).value >= c.recheckMs
  }

  /** At its prompt, with or without background work, attached, and not at a question to the user. */
  predicate TakesPing(st: Session) {
    st.attached && (st.activity == AwaitingInput || st.activity == Background) && !st.awaitingUser
  }

  /** One more ping would exceed the limit with nobody around. */
  predicate TooMany(c: Config, h: seq<Event>, now: int, st: Session) {
    Unattended(h + [Pinged(now, st)]) > c.maxConsecutivePings
  }

  predicate WouldPing(c: Config, h: seq<Event>, now: int, st: Session) {
    IsIdle(c, st, now) && PastFloor(c, h, now) && TakesPing(st)
  }

  /** How long until the next check, and why there was no ping. */
  function NextCheck(c: Config, h: seq<Event>, now: int, st: Session, ok: bool): (int, Option<Reason>) {
    if !IsIdle(c, st, now) then (c.intervalMs - (now - st.lastEventAt), Some(NotIdle))
    else if !PastFloor(c, h, now) then (c.recheckMs - (now - LastPing(h).value), Some(RecentlyPinged))
    else if !st.attached then (c.recheckMs, Some(Detached))
    else if st.activity == Busy then (c.recheckMs, Some(IsBusy))
    else if st.awaitingUser then (c.recheckMs, Some(AwaitingUser))
    else if ok then (c.intervalMs, None)
    else (c.recheckMs, None)
  }

  /** The item waits for its next check, `ms` after the time `after` (at once, if that is negative). */
  ghost predicate ChecksIn(s: State, key: string, after: int, ms: int) {
    && key in s.items && s.items[key].timer.Some? && s.items[key].timer.value in s.timers.armed
    && s.timers.armed[s.items[key].timer.value] == Timer(key, after + Max(0, ms))
    && s.items[key].nextCheckAt == after + Max(0, ms)
  }

  /** The session stays enabled, and is pinged or not. */
  ghost predicate GoesOn(c: Config, t: State, key: string, h: seq<Event>, st: Session, now: int, ok: bool, after: int) {
    && ChecksIn(t, key, after, NextCheck(c, h, now, st, ok).0)
    && t.items[key].lastSkipReason == NextCheck(c, h, now, st, ok).1
    && t.items[key].failed == (WouldPing(c, h, now, st) && !ok)
    && Past(t, key) == if WouldPing(c, h, now, st) && ok then h + [Pinged(now, st)] else h
  }

  lemma FiredOwner(c: Config, inputs: seq<Input>, timer: nat)
    requires timer in Run(c, inputs).timers.armed
    ensures Inv(c, Run(c, inputs)) && Run(c, inputs).timers.armed[timer].owner in Run(c, inputs).items
  {
    RunKeeps(c, inputs);
    hide Run, Counted;
  }

  /** Floor and count of a key say the same as its past. */
  lemma CountersTell(c: Config, s: State, key: string, now: int, st: Session)
    requires Inv(c, s) && key in s.items
    ensures LastPing(Past(s, key)) == if key in s.lastPingAt then Some(s.lastPingAt[key]) else None
    ensures Unattended(Past(s, key) + [Pinged(now, st)]) == Streak(s, key, st) + 1
  {
    hide Matched, Lawful;
    assert KeyOk(c, s, key);
    var h, e := Past(s, key), Pinged(now, st);
    assert (h + [e])[..|h + [e]| - 1] == h;
  }

  /**
   * Exactly when a timer that fires pings its session: the session is open, attached, idle for the interval, at its
   * prompt (also with background work) and not at a question to the user, its last remembered ping is over the floor,
   * the limit of unattended pings is not reached, and the ping is delivered.
   */
  lemma {:induction false} PingedIff(c: Config, inputs: seq<Input>, timer: nat, session: Option<Session>, now: int,
                                     ok: bool, after: int)
    requires Run(c, inputs).timers.CanFire(timer, now)
    ensures
      var s, t := Run(c, inputs), Run(c, inputs + [Fire(timer, session, now, ok, after)]);
      var key := s.timers.armed[timer].owner;
      var h := Past(s, key);
      (exists st :: Past(t, key) == h + [Pinged(now, st)] && session == Some(st)) <==>
        !IsGone(session) && WouldPing(c, h, now, session.value) && !TooMany(c, h, now, session.value) && ok
  {
    CheckIs(c, inputs, timer, session, now, ok, after);
    hide Run, WouldPing, TooMany, NextCheck, ChecksIn, OthersStay, Past;
    var s, t := Run(c, inputs), Run(c, inputs + [Fire(timer, session, now, ok, after)]);
    var key := s.timers.armed[timer].owner;
    var h := Past(s, key);
    assert (h + [Disabled])[|h|] == Disabled;
    if session.Some? {
      assert (h + [Pinged(now, session.value)])[|h|] == Pinged(now, session.value);
    }
  }

  ghost predicate OthersStay(s: State, t: State, key: string) {
    forall k: string :: k != key ==>
      (k in t.items <==> k in s.items) && (k in t.items ==> t.items[k] == s.items[k]) && Past(t, k) == Past(s, k)
  }

  lemma RearmedTells(s: State, key: string, item: Item, now: int, ms: int)
    ensures
      var t := Rearmed(s, key, item, now, ms);
      && ChecksIn(t, key, now, ms) && OthersStay(s, t, key) && Past(t, key) == Past(s, key)
      && t.items[key].lastSkipReason == item.lastSkipReason && t.items[key].failed == item.failed
  {
  }

  lemma RemovedTells(s: State, key: string)
    ensures
      var t := Removing(s, {key});
      && key !in t.items && OthersStay(s, t, key) && Past(t, key) == Past(s, key) + [Disabled]
  {
  }

  lemma PingedTells(s: State, key: string, e: Event, last: map<string, int>, count: map<string, nat>)
    ensures
      var t := s.(lastPingAt := last, consecutivePings := count, past := Noted(s.past, {key}, e));
      OthersStay(s, t, key) && Past(t, key) == Past(s, key) + [e]
  {
  }

  lemma ItemTells(s: State, key: string, item: Item)
    ensures
      var t := s.(items := s.items[key := item]);
      OthersStay(s, t, key) && Past(t, key) == Past(s, key)
  {
  }

  lemma TellTwice(s: State, t: State, u: State, key: string)
    requires OthersStay(s, t, key) && OthersStay(t, u, key)
    ensures OthersStay(s, u, key)
  {
  }

  lemma {:induction false} CheckedTells(c: Config, s: State, key: string, session: Option<Session>, now: int, ok: bool,
                                        after: int)
    requires key in s.items
    requires LastPing(Past(s, key)) == if key in s.lastPingAt then Some(s.lastPingAt[key]) else None
    requires session.Some? ==>
               Unattended(Past(s, key) + [Pinged(now, session.value)]) == Streak(s, key, session.value) + 1
    ensures
      var t, h := Checked(c, s, key, session, now, ok, after), Past(s, key);
      && OthersStay(s, t, key)
      && if IsGone(session) || (WouldPing(c, h, now, session.value) && TooMany(c, h, now, session.value)) then
           key !in t.items && Past(t, key) == h + [Disabled]
         else
           GoesOn(c, t, key, h, session.value, now, ok, after)
  {
    hide Rearmed, Removing, Noted, Past, OthersStay, ChecksIn, LastPing, Unattended, Streak;
    var item := s.items[key].(timer := None, lastSkipReason := None, failed := false);
    var cleared := s.(items := s.items[key := item]);
    ItemTells(s, key, item);
    RemovedTells(cleared, key);
    TellTwice(s, cleared, Removing(cleared, {key}), key);
    forall skip: Option<Reason>, failed: bool, ms: int
      ensures
        var t := Rearmed(s, key, item.(lastSkipReason := skip, failed := failed), after, ms);
        && ChecksIn(t, key, after, ms) && OthersStay(s, t, key) && Past(t, key) == Past(s, key)
        && key in t.items && t.items[key].lastSkipReason == skip && t.items[key].failed == failed
    {
      RearmedTells(s, key, item.(lastSkipReason := skip, failed := failed), after, ms);
      ChecksKey(Rearmed(s, key, item.(lastSkipReason := skip, failed := failed), after, ms), key, after, ms);
    }
    if session.Some? {
      var st := session.value;
      var last, count := s.lastPingAt[key := now], s.consecutivePings[key := Streak(s, key, st) + 1];
      PingedTells(s, key, Pinged(now, st), last, count);
      var p := s.(lastPingAt := last, consecutivePings := count, past := Noted(s.past, {key}, Pinged(now, st)));
      RearmedTells(p, key, item, after, c.intervalMs);
      TellTwice(s, p, Rearmed(p, key, item, after, c.intervalMs), key);
    }
  }

  lemma ChecksKey(s: State, key: string, after: int, ms: int)
    requires ChecksIn(s, key, after, ms)
    ensures key in s.items
  {
  }

  /** What a timer that fires comes to: the item is removed, or waits for its next check, pinged or not. */
  lemma {:induction false} CheckIs(c: Config, inputs: seq<Input>, timer: nat, session: Option<Session>, now: int,
                                   ok: bool, after: int)
    requires Run(c, inputs).timers.CanFire(timer, now)
    ensures
      var s, t := Run(c, inputs), Run(c, inputs + [Fire(timer, session, now, ok, after)]);
      var key := s.timers.armed[timer].owner;
      var h := Past(s, key);
      if IsGone(session) || (WouldPing(c, h, now, session.value) && TooMany(c, h, now, session.value)) then
        key !in t.items && Past(t, key) == h + [Disabled]
      else
        GoesOn(c, t, key, h, session.value, now, ok, after)
    ensures
      var s, t := Run(c, inputs), Run(c, inputs + [Fire(timer, session, now, ok, after)]);
      OthersStay(s, t, s.timers.armed[timer].owner)
  {
    hide Run, Inv, Step, Checked, LastPing, Unattended, Past, OthersStay, GoesOn, WouldPing, TooMany, Streak;
    RunSnoc(c, inputs, Fire(timer, session, now, ok, after));
    FiredOwner(c, inputs, timer);
    var s := Run(c, inputs);
    var key := s.timers.armed[timer].owner;
    var d := s.(timers := s.timers.Disarm(timer));
    FireIs(c, s, timer, session, now, ok, after);
    if session.Some? {
      CountersTell(c, s, key, now, session.value);
      SameStreak(s, d, key, session.value);
    } else {
      CountersTell(c, s, key, now, Session(0, Busy, false, false, false, 0));
    }
    CheckedTells(c, d, key, session, now, ok, after);
    OthersOf(d, s, Checked(c, d, key, session, now, ok, after), key);
  }

  lemma FireIs(c: Config, s: State, timer: nat, session: Option<Session>, now: int, ok: bool, after: int)
    requires s.timers.CanFire(timer, now)
    ensures
      var d := s.(timers := s.timers.Disarm(timer));
      && Step(c, s, Fire(timer, session, now, ok, after)) ==
         Checked(c, d, s.timers.armed[timer].owner, session, now, ok, after)
      && forall k: string :: Past(d, k) == Past(s, k)
  {
    hide Checked;
  }

  lemma OthersOf(d: State, s: State, t: State, key: string)
    requires OthersStay(d, t, key) && d.items == s.items && forall k: string :: Past(d, k) == Past(s, k)
    ensures OthersStay(s, t, key)
  {
    hide Past;
  }

  // ----- Enabling and disabling -----

  /** Enabling succeeds exactly while running, for an open session that is not enabled yet; it is checked when due. */
  lemma {:induction false} EnabledIff(c: Config, inputs: seq<Input>, sid: string, host: Option<string>,
                                      session: Option<Session>, now: int)
    ensures
      var s, t := Run(c, inputs), Run(c, inputs + [Enable(sid, host, session, now)]);
      var key := KeyFor(sid, host);
      if !s.stopped && key !in s.items && !IsGone(session) then
        var h := Past(s, key);
        var idle := session.value.lastEventAt + c.intervalMs;
        var due := if LastPing(h).Some? then Max(idle, LastPing(h).value + c.recheckMs) else idle;
        && Past(t, key) == h + [Enabled] && ChecksIn(t, key, now, due - now) && OthersStay(s, t, key)
        && t.items[key].sid == sid && t.items[key].host == (if host == Some("") then None else host)
        && t.items[key].lastSkipReason == None && !t.items[key].failed
      else t == s
  {
    RunSnoc(c, inputs, Enable(sid, host, session, now));
    RunKeeps(c, inputs);
    var s := Run(c, inputs);
    var key := KeyFor(sid, host);
    hide Run, Matched, LastPing, KeyFor;
    assert KeyOk(c, s, key);
    hide Counted;
  }

  /** Disabling removes the session of the host, or of every host, and forgets the last ping where it is asked to. */
  lemma {:induction false} DisabledIs(c: Config, inputs: seq<Input>, sid: string, host: Option<string>, forget: bool,
                                      key: string)
    ensures
      var s, t := Run(c, inputs), Run(c, inputs + [Disable(sid, host, forget)]);
      var goes := key in s.items && if host.Some? then key == KeyFor(sid, host) else s.items[key].sid == sid;
      var forgotten := forget && if host.Some? then key == KeyFor(sid, host)
                                 else SidOfKey(key) == sid && LastPing(Past(s, key)).Some?;
      && Past(t, key) == Past(s, key) + (if goes then [Disabled] else []) + (if forgotten then [Forgotten] else [])
      && (key in t.items <==> key in s.items && !goes)
      && (key in t.items ==> t.items[key] == s.items[key])
  {
    RunSnoc(c, inputs, Disable(sid, host, forget));
    RunKeeps(c, inputs);
    var s := Run(c, inputs);
    hide Run, Matched, LastPing, KeyFor, SidOfKey, TimersOf;
    assert KeyOk(c, s, key);
    hide Counted;
  }
}
