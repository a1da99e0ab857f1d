/**
 * When the timers of the mirror agent's client are due (src/mirror-agent/hub-client.ts), in all its runs: each a fixed
 * time after the input that armed it, and a reconnect the doubled delay after it was arranged.
 */
module HubClientTimes {
  import opened Options
  import opened Timers
  import opened ReconnectDelays
  import opened HubClient
  import opened HubClientRuns

  function NowOf(i: Input): int {
    if i.Stop? then 0 else i.now
  }

  lemma {:induction false} OneMoreStep(c: nat, before: seq<Input>, i: Input)
    ensures Run(c, before + [i]) == Step(c, Run(c, before), i) && Inv(Run(c, before)) && Inv(Run(c, before + [i]))
  {
    RunKeeps(c, before);
    RunKeeps(c, before + [i]);
    assert (before + [i])[..|before + [i]| - 1] == before;
  }

  // ----- What losing, starting and stopping arm -----

  /** A deadline armed at this time for a socket made since. */
  ghost predicate NewDeadline(c: nat, s: State, t: State, h: nat, now: int)
    requires h in t.timers.armed
  {
    var timer := t.timers.armed[h];
    timer.owner.Connect? && timer.due == now + c && s.sockets <= timer.owner.sock < t.sockets
  }

  /** Only deadlines of new sockets and reconnects are armed, and no event but reconnects happens, all at this time. */
  ghost predicate Replaces(c: nat, s: State, t: State, now: int) {
    && s.sockets <= t.sockets && t.ready == s.ready
    && (t.ws.Some? ==> t.ws == s.ws || t.ws.value >= s.sockets)
    && (forall h :: h in t.timers.armed ==>
          || (h in s.timers.armed && t.timers.armed[h] == s.timers.armed[h])
          || t.timers.armed[h].owner.Reconnect? || NewDeadline(c, s, t, h, now))
    && |s.past| <= |t.past| && t.past[..|s.past|] == s.past
    && forall j :: |s.past| <= j < |t.past| ==> t.past[j].Waiting? && t.past[j].at == now
  }

  lemma ReplacesTwice(c: nat, s: State, t: State, u: State, now: int)
    requires Replaces(c, s, t, now) && Replaces(c, t, u, now)
    ensures Replaces(c, s, u, now)
  {
    forall j | |s.past| <= j < |u.past|
      ensures u.past[j].Waiting? && u.past[j].at == now
    {
      if j < |t.past| {
        assert u.past[..|t.past|][j] == t.past[j];
      }
    }
    assert u.past[..|t.past|][..|s.past|] == u.past[..|s.past|];
  }

  lemma DroppedReplaces(c: nat, s: State, now: int)
    ensures Replaces(c, s, Dropped(s), now)
  {
  }

  lemma ScheduledReplaces(c: nat, s: State, now: int)
    ensures Replaces(c, s, Scheduled(s, now), now)
  {
  }

  lemma MadeReplaces(c: nat, s: State, now: int)
    ensures Replaces(c, s, Made(c, s, now), now)
  {
  }

  lemma {:induction false} OpenedOnceReplaces(c: nat, s: State, ok: bool, now: int)
    ensures Replaces(c, s, OpenedOnce(c, s, ok, now), now)
  {
    var d := Dropped(s);
    DroppedReplaces(c, s, now);
    ScheduledReplaces(c, d, now);
    MadeReplaces(c, d, now);
    hide Dropped, Scheduled, Made, Replaces;
    ReplacesTwice(c, s, d, OpenedOnce(c, s, ok, now), now);
  }

  lemma {:induction false} CallReplaces(c: nat, s: State, ok: bool, now: int)
    ensures Replaces(c, s, Starting(c, s, ok, now), now) && Replaces(c, s, Stopping(s), now)
  {
    var b := s.(closing := false, started := true);
    var a := s.(closing := true, timers := Unset(s.timers, s.reconnectTimer), reconnectTimer := None);
    assert Replaces(c, s, a, now) && Replaces(c, s, b, now);
    OpenedOnceReplaces(c, b, ok, now);
    DroppedReplaces(c, a, now);
    hide OpenedOnce, Dropped, Replaces;
    ReplacesTwice(c, s, b, Starting(c, s, ok, now), now);
    ReplacesTwice(c, s, a, Stopping(s), now);
  }

  lemma {:induction false} CallingReplaces(c: nat, s: State, calls: seq<Call>, now: int)
    ensures Replaces(c, s, Calling(c, s, calls, now), now)
  {
    if calls == [] {
      assert s.past[..|s.past|] == s.past;
    } else {
      var before, last := Calling(c, s, calls[..|calls| - 1], now), calls[|calls| - 1];
      CallingReplaces(c, s, calls[..|calls| - 1], now);
      CallReplaces(c, before, if last.CallStart? then last.ok else true, now);
      hide Starting, Stopping, Replaces;
      ReplacesTwice(c, s, before, Calling(c, s, calls, now), now);
    }
  }

  lemma {:induction false} AbandonedReplaces(c: nat, s: State, sock: nat, calls: seq<Call>, now: int)
    ensures Replaces(c, s, Abandoned(c, s, sock, calls, now), now)
  {
    if s.ws != Some(sock) {
      assert s.past[..|s.past|] == s.past;
    } else {
      var d := Dropped(s);
      var e := Calling(c, d, calls, now);
      DroppedReplaces(c, s, now);
      CallingReplaces(c, d, calls, now);
      ScheduledReplaces(c, e, now);
      hide Dropped, Calling, Scheduled, Replaces;
      ReplacesTwice(c, s, d, e, now);
      ReplacesTwice(c, s, e, Scheduled(e, now), now);
    }
  }

  /** The inputs that arm or postpone the watchdog of the held socket, or its pings. */
  predicate Hears(s: State, i: Input) {
    || (i.SockOpen? && s.ws == Some(i.sock) && i.sock !in s.ready)
    || (i.SockTraffic? && s.ws == Some(i.sock) && i.sock in s.ready)
  }

  predicate Pings(s: State, i: Input) {
    i.Fire? && s.timers.CanFire(i.timer, i.now) && s.timers.armed[i.timer].owner.Ping?
  }

  lemma {:induction false} OtherStepReplaces(c: nat, s: State, i: Input)
    requires Inv(s) && !i.SockOpen? && !Hears(s, i) && !Pings(s, i)
    ensures Replaces(c, s, Step(c, s, i), NowOf(i))
  {
    hide NoneStranded, SocketGuarded, NotWedged, TimersMatch;
    assert s.past[..|s.past|] == s.past;
    match i
    case Start(ok, now) =>
      CallReplaces(c, s, ok, now);
      hide Starting, Replaces;
    case Stop =>
      CallReplaces(c, s, true, 0);
      hide Stopping, Replaces;
    case SockTraffic(_, _) =>
    case SockClose(sock, calls, now) =>
      AbandonedReplaces(c, s, sock, calls, now);
      hide Abandoned, Replaces;
    case Fire(t, ok, calls, now) => FiredReplaces(c, s, i);
  }

  lemma {:induction false} FiredReplaces(c: nat, s: State, i: Input)
    requires i.Fire? && !Pings(s, i)
    ensures Replaces(c, s, Step(c, s, i), i.now)
  {
    assert s.past[..|s.past|] == s.past;
    if s.timers.CanFire(i.timer, i.now) {
      var d := s.(timers := s.timers.Disarm(i.timer));
      match s.timers.armed[i.timer].owner
      case Connect(sock) =>
        var e := d.(connectTimer := None);
        assert Replaces(c, s, e, i.now);
        AbandonedReplaces(c, e, sock, i.calls, i.now);
        hide Abandoned, Replaces;
        ReplacesTwice(c, s, e, Step(c, s, i), i.now);
      case Watchdog =>
        var e := d.(watchdogTimer := None);
        assert Replaces(c, s, e, i.now);
        if s.ws.Some? {
          AbandonedReplaces(c, e, s.ws.value, i.calls, i.now);
          hide Abandoned, Replaces;
          ReplacesTwice(c, s, e, Step(c, s, i), i.now);
        }
      case Reconnect =>
        var e := d.(reconnectTimer := None);
        assert Replaces(c, s, e, i.now);
        OpenedOnceReplaces(c, e, i.ok, i.now);
        hide OpenedOnce, Replaces;
        ReplacesTwice(c, s, e, Step(c, s, i), i.now);
    }
  }

  // ----- The reconnect -----

  /** The last reconnect that was arranged. */
  function LastWait(past: seq<Event>): Option<Event> {
    if past == [] then None
    else if past[|past| - 1].Waiting? then Some(past[|past| - 1])
    else LastWait(past[..|past| - 1])
  }

  lemma LastWaitSnoc(past: seq<Event>, e: Event)
    ensures LastWait(past + [e]) == if e.Waiting? then Some(e) else LastWait(past)
  {
    assert (past + [e])[..|past|] == past;
  }

  /** A pending reconnect is due when the last one that was arranged is over. */
  ghost predicate ReconnectDue(s: State) {
    s.reconnectTimer.Some? ==>
      && s.reconnectTimer.value in s.timers.armed && s.reconnectTimer.value < s.timers.next
      && LastWait(s.past).Some? && LastWait(s.past).value.Waiting?
      && s.timers.armed[s.reconnectTimer.value] ==
         Timer(Reconnect, LastWait(s.past).value.at + LastWait(s.past).value.delay)
  }

  /** The timer of this field is not the pending reconnect's. */
  predicate IsApart(s: State, f: Option<nat>) {
    f.Some? ==> f.value < s.timers.next && f != s.reconnectTimer
  }

  ghost predicate Dues(s: State) {
    ReconnectDue(s) && IsApart(s, s.connectTimer) && IsApart(s, s.watchdogTimer) && IsApart(s, s.pingTimer)
  }

  lemma DroppedDue(s: State)
    requires Dues(s)
    ensures Dues(Dropped(s))
  {
    hide LastWait;
  }

  lemma ScheduledDue(s: State, now: int)
    requires Dues(s)
    ensures Dues(Scheduled(s, now))
  {
    LastWaitSnoc(s.past, Waiting(s.reconnectDelay, now));
    hide LastWait;
  }

  lemma MadeDue(c: nat, s: State, now: int)
    requires Dues(s)
    ensures Dues(Made(c, s, now))
  {
    hide LastWait;
  }

  lemma {:induction false} OpenedOnceDue(c: nat, s: State, ok: bool, now: int)
    requires Dues(s)
    ensures Dues(OpenedOnce(c, s, ok, now))
  {
    DroppedDue(s);
    hide Dropped, Scheduled, Made, Dues;
    ScheduledDue(Dropped(s), now);
    MadeDue(c, Dropped(s), now);
  }

  lemma {:induction false} CallDue(c: nat, s: State, ok: bool, now: int)
    requires Dues(s)
    ensures Dues(Starting(c, s, ok, now)) && Dues(Stopping(s))
  {
    hide LastWait;
    OpenedOnceDue(c, s.(closing := false, started := true), ok, now);
    hide OpenedOnce;
    DroppedDue(s.(closing := true, timers := Unset(s.timers, s.reconnectTimer), reconnectTimer := None));
    hide Dropped;
  }

  lemma {:induction false} CallingDue(c: nat, s: State, calls: seq<Call>, now: int)
    requires Dues(s)
    ensures Dues(Calling(c, s, calls, now))
  {
    hide Dues, Starting, Stopping;
    if calls != [] {
      var last := calls[|calls| - 1];
      CallingDue(c, s, calls[..|calls| - 1], now);
      CallDue(c, Calling(c, s, calls[..|calls| - 1], now), if last.CallStart? then last.ok else true, now);
    }
  }

  lemma {:induction false} AbandonedDue(c: nat, s: State, sock: nat, calls: seq<Call>, now: int)
    requires Dues(s)
    ensures Dues(Abandoned(c, s, sock, calls, now))
  {
    hide Dues, Dropped, Scheduled, Calling;
    DroppedDue(s);
    CallingDue(c, Dropped(s), calls, now);
    ScheduledDue(Calling(c, Dropped(s), calls, now), now);
  }

  lemma {:induction false} HasOpenedDue(s: State, sock: nat, now: int)
    requires Dues(s)
    ensures Dues(HasOpened(s, sock, now))
  {
    LastWaitSnoc(s.past, Opened(now));
    hide LastWait;
  }

  lemma {:induction false} FiredDue(c: nat, s: State, t: nat, ok: bool, calls: seq<Call>, now: int)
    requires Dues(s) && TimersMatch(s)
    ensures Dues(Fired(c, s, t, ok, calls, now))
  {
    hide OpenedOnce, Abandoned, LastWait;
    if s.timers.CanFire(t, now) {
      match s.timers.armed[t].owner
      case Connect(sock) =>
        AbandonedDue(c, s.(timers := s.timers.Disarm(t), connectTimer := None), sock, calls, now);
      case Watchdog =>
        if s.ws.Some? {
          AbandonedDue(c, s.(timers := s.timers.Disarm(t), watchdogTimer := None), s.ws.value, calls, now);
        }
      case Ping =>
      case Reconnect => OpenedOnceDue(c, s.(timers := s.timers.Disarm(t), reconnectTimer := None), ok, now);
    }
  }

  lemma {:induction false} StepDue(c: nat, s: State, i: Input)
    requires Dues(s) && Inv(s)
    ensures Dues(Step(c, s, i))
  {
    hide Starting, Stopping, HasOpened, Abandoned, Fired, LastWait;
    match i
    case Start(ok, now) => CallDue(c, s, ok, now);
    case Stop => CallDue(c, s, true, 0);
    case SockOpen(sock, now) => HasOpenedDue(s.(ready := s.ready + {sock}), sock, now);
    case SockTraffic(_, _) =>
    case SockClose(sock, calls, now) => AbandonedDue(c, s, sock, calls, now);
    case Fire(t, ok, calls, now) => FiredDue(c, s, t, ok, calls, now);
  }

  lemma {:induction false} RunDue(c: nat, inputs: seq<Input>)
    ensures Dues(Run(c, inputs))
  {
    hide Step, Inv;
    if inputs != [] {
      hide Dues;
      RunDue(c, inputs[..|inputs| - 1]);
      RunKeeps(c, inputs[..|inputs| - 1]);
      StepDue(c, Run(c, inputs[..|inputs| - 1]), inputs[|inputs| - 1]);
    }
  }

  // ----- When things happened -----

  /** Step `k` of the run is the one in which the j-th event happened. */
  ghost predicate HappenedAt(c: nat, inputs: seq<Input>, j: nat, k: nat)
    requires k < |inputs|
  {
    |Run(c, inputs[..k]).past| <= j < |Run(c, inputs[..k + 1]).past|
  }

  /** A step adds to the events: an opening of the held socket, or reconnects, at the time of its input. */
  lemma {:induction false} StepEvents(c: nat, s: State, i: Input)
    requires Inv(s)
    ensures
      var t := Step(c, s, i);
      && |s.past| <= |t.past| && t.past[..|s.past|] == s.past
      && (forall j :: |s.past| <= j < |t.past| ==> t.past[j].at == NowOf(i))
      && (forall j :: |s.past| <= j < |t.past| && t.past[j].Opened? ==> Hears(s, i) && i.SockOpen?)
      && (Hears(s, i) && i.SockOpen? ==> t.past == s.past + [Opened(i.now)])
  {
    if !i.SockOpen? && !Hears(s, i) && !Pings(s, i) {
      OtherStepReplaces(c, s, i);
      hide Step, Inv;
    } else {
      hide TimersMatch, NotWedged;
      assert s.past[..|s.past|] == s.past;
    }
  }

  lemma EmptyHasNothing(c: nat, inputs: seq<Input>)
    ensures
      var s := Run(c, inputs);
      s.past != [] || s.watchdogTimer.Some? || s.pingTimer.Some? || s.connectTimer.Some? ==> inputs != []
  {
    hide Step;
  }

  lemma {:induction false} EventAt(c: nat, inputs: seq<Input>, j: nat)
    requires j < |Run(c, inputs).past|
    ensures
      exists k ::
        0 <= k < |inputs| && HappenedAt(c, inputs, j, k) && Run(c, inputs).past[j].at == NowOf(inputs[k])
  {
    hide Run, Step, Inv;
    EmptyHasNothing(c, inputs);
    var m := |inputs| - 1;
    var before, i := inputs[..m], inputs[m];
    assert inputs == before + [i];
    OneMoreStep(c, before, i);
    StepEvents(c, Run(c, before), i);
    if j < |Run(c, before).past| {
      EventAt(c, before, j);
      var k :| 0 <= k < m && HappenedAt(c, before, j, k) && Run(c, before).past[j].at == NowOf(before[k]);
      assert inputs[..k] == before[..k] && inputs[..k + 1] == before[..k + 1] && inputs[k] == before[k];
      assert Run(c, inputs).past[..|Run(c, before).past|][j] == Run(c, inputs).past[j];
      assert HappenedAt(c, inputs, j, k);
    } else {
      assert inputs[..m + 1] == inputs;
      assert HappenedAt(c, inputs, j, m);
    }
  }

  lemma {:induction false} LastWaitIs(past: seq<Event>)
    requires LastWait(past).Some?
    ensures exists j: nat :: IsLastWait(past, j) && past[j] == LastWait(past).value
  {
    var p := past[..|past| - 1];
    if past[|past| - 1].Waiting? {
      assert IsLastWait(past, |past| - 1);
    } else {
      LastWaitIs(p);
      var j: nat :| IsLastWait(p, j) && p[j] == LastWait(p).value;
      assert IsLastWait(past, j);
    }
  }

  predicate IsLastWait(past: seq<Event>, j: nat) {
    j < |past| && past[j].Waiting? && forall l :: j < l < |past| ==> past[l].Opened?
  }

  /**
   * In every run a pending reconnect is due 1000 * 2^n ms, up to 30000, after the step that arranged it, where n
   * reconnects had been arranged before since a socket last opened; so it never fires before.
   */
  lemma {:induction false} ReconnectSince(c: nat, inputs: seq<Input>)
    requires Run(c, inputs).reconnectTimer.Some?
    ensures
      var s := Run(c, inputs);
      && s.reconnectTimer.value in s.timers.armed
      && exists j: nat, k :: IsLastWait(s.past, j) && 0 <= k < |inputs| && HappenedAt(c, inputs, j, k)
                        && s.timers.armed[s.reconnectTimer.value] ==
                           Timer(Reconnect, NowOf(inputs[k]) + Min(1000 * Pow2(SinceOpen(s.past[..j])), 30000))
  {
    RunDue(c, inputs);
    hide Run, LastWait, SinceOpen, Pow2;
    var s := Run(c, inputs);
    LastWaitIs(s.past);
    var j: nat :| IsLastWait(s.past, j) && s.past[j] == LastWait(s.past).value;
    KthDelay(c, inputs, j);
    EventAt(c, inputs, j);
    hide HappenedAt;
    var k :| 0 <= k < |inputs| && HappenedAt(c, inputs, j, k) && s.past[j].at == NowOf(inputs[k]);
    assert IsLastWait(s.past, j) && HappenedAt(c, inputs, j, k);
  }

  // ----- Watchdog, pings and handshake -----

  /** The held socket was heard of at step `k` for the last time. */
  ghost predicate LastHeard(inputs: seq<Input>, sock: nat, k: nat) {
    && k < |inputs| && (inputs[k].SockOpen? || inputs[k].SockTraffic?) && inputs[k].sock == sock
    && forall j :: k < j < |inputs| ==> !(inputs[j].SockTraffic? && inputs[j].sock == sock)
  }

  lemma {:induction false} Heard(c: nat, s: State, i: Input)
    requires Inv(s) && Hears(s, i)
    ensures
      var t := Step(c, s, i);
      && t.ws == s.ws && t.watchdogTimer.Some? && t.watchdogTimer.value in t.timers.armed
      && t.timers.armed[t.watchdogTimer.value] == Timer(Watchdog, i.now + 31_000)
      && (i.SockOpen? ==>
            && t.pingTimer.Some? && t.pingTimer.value in t.timers.armed
            && t.timers.armed[t.pingTimer.value] == Timer(Ping, i.now + 5_000))
      && (i.SockTraffic? ==>
            && t.pingTimer == s.pingTimer
            && forall h :: h in s.timers.armed && s.timers.armed[h].owner.Ping? ==>
                 h in t.timers.armed && t.timers.armed[h] == s.timers.armed[h])
  {
    hide NoneStranded, NotWedged;
  }

  /** A watchdog or ping that is armed after any other step was armed before, for the same socket. */
  lemma {:induction false} StaysArmed(c: nat, s: State, i: Input, h: nat)
    requires Inv(s) && Inv(Step(c, s, i)) && !Hears(s, i) && !Pings(s, i)
    requires h in Step(c, s, i).timers.armed
    requires Step(c, s, i).timers.armed[h].owner in {Watchdog, Ping}
    ensures h in s.timers.armed && s.timers.armed[h] == Step(c, s, i).timers.armed[h]
    ensures Step(c, s, i).ws == s.ws && s.ws.Some? && s.ws.value in s.ready
  {
    var t := Step(c, s, i);
    if i.SockOpen? {
      OpenElsewhere(c, s, i);
    } else {
      OtherStepReplaces(c, s, i);
    }
    hide Step, NotWedged;
  }

  lemma OpenElsewhere(c: nat, s: State, i: Input)
    requires i.SockOpen? && !Hears(s, i) && Inv(s)
    ensures
      var t := Step(c, s, i);
      t == s.(ready := t.ready) && (s.ws.Some? && s.ws.value in t.ready ==> s.ws.value in s.ready)
  {
    hide TimersMatch, NotWedged;
  }

  /** What a step does to the watchdog: it is armed afresh, or was armed before for the same socket, which is silent. */
  lemma {:induction false} WatchdogStep(c: nat, s: State, i: Input)
    requires Inv(s) && Inv(Step(c, s, i)) && Step(c, s, i).watchdogTimer.Some?
    ensures
      var t := Step(c, s, i);
      var h := t.watchdogTimer.value;
      && t.ws.Some? && h in t.timers.armed
      && if Hears(s, i) then i.sock == t.ws.value && t.timers.armed[h] == Timer(Watchdog, i.now + 31_000)
         else
           && s.ws == t.ws && s.watchdogTimer == Some(h) && h in s.timers.armed
           && t.timers.armed[h] == s.timers.armed[h] && !(i.SockTraffic? && i.sock == t.ws.value)
  {
    var t := Step(c, s, i);
    var h := t.watchdogTimer.value;
    WatchdogIs(t);
    if Hears(s, i) {
      Heard(c, s, i);
    } else {
      if Pings(s, i) {
        PingedAgain(c, s, i, h);
      } else {
        StaysArmed(c, s, i, h);
      }
      TimerIs(s, h);
      WatchdogIs(s);
      WatchdogReady(s);
      NotHeard(c, s, i);
    }
    hide Step, Inv;
  }

  lemma WatchdogReady(s: State)
    requires Inv(s) && s.watchdogTimer.Some?
    ensures s.ws.Some? && s.ws.value in s.ready
  {
  }

  lemma HeardBefore(before: seq<Input>, i: Input, sock: nat, k: nat)
    requires LastHeard(before, sock, k) && !(i.SockTraffic? && i.sock == sock)
    ensures LastHeard(before + [i], sock, k) && (before + [i])[k] == before[k]
  {
  }

  lemma HeardNow(before: seq<Input>, i: Input, sock: nat)
    requires (i.SockOpen? || i.SockTraffic?) && i.sock == sock
    ensures LastHeard(before + [i], sock, |before|) && (before + [i])[|before|] == i
  {
  }

  /** In every run the watchdog is due 31 s after the held socket was last heard of. */
  lemma {:induction false} WatchdogSince(c: nat, inputs: seq<Input>)
    requires Run(c, inputs).watchdogTimer.Some?
    ensures
      var s := Run(c, inputs);
      && s.ws.Some? && s.watchdogTimer.value in s.timers.armed
      && exists k: nat :: LastHeard(inputs, s.ws.value, k)
                          && s.timers.armed[s.watchdogTimer.value] == Timer(Watchdog, NowOf(inputs[k]) + 31_000)
  {
    hide Run, Step, Inv;
    var m := |inputs| - 1;
    EmptyHasNothing(c, inputs);
    var before, i := inputs[..m], inputs[m];
    assert inputs == before + [i];
    OneMoreStep(c, before, i);
    var s, t := Run(c, before), Run(c, inputs);
    WatchdogStep(c, s, i);
    if Hears(s, i) {
      HeardNow(before, i, t.ws.value);
    } else {
      WatchdogSince(c, before);
      var k: nat :| LastHeard(before, s.ws.value, k)
                    && s.timers.armed[s.watchdogTimer.value] == Timer(Watchdog, NowOf(before[k]) + 31_000);
      HeardBefore(before, i, t.ws.value, k);
    }
  }

  lemma WatchdogIs(s: State)
    requires Inv(s) && s.watchdogTimer.Some?
    ensures s.ws.Some? && s.watchdogTimer.value in s.timers.armed
    ensures s.timers.armed[s.watchdogTimer.value].owner == Watchdog
  {
  }

  lemma TimerIs(s: State, h: nat)
    requires Inv(s) && h in s.timers.armed
    ensures s.timers.armed[h].owner.Watchdog? ==> s.watchdogTimer == Some(h)
    ensures s.timers.armed[h].owner.Ping? ==> s.pingTimer == Some(h)
  {
  }

  lemma NotHeard(c: nat, s: State, i: Input)
    requires Inv(s) && !Hears(s, i) && s.ws.Some? && s.ws.value in s.ready
    ensures !(i.SockTraffic? && i.sock == s.ws.value)
  {
  }

  /** The ping timer repeats, and changes nothing else. */
  lemma PingedAgain(c: nat, s: State, i: Input, h: nat)
    requires Inv(s) && Pings(s, i)
    ensures
      var t := Step(c, s, i);
      && t.ws == s.ws && t.pingTimer == s.pingTimer == Some(i.timer)
      && i.timer in t.timers.armed && t.timers.armed[i.timer] == Timer(Ping, i.now + 5_000)
      && (h != i.timer ==> (h in t.timers.armed <==> h in s.timers.armed)
                           && (h in t.timers.armed ==> t.timers.armed[h] == s.timers.armed[h]))
  {
    hide NoneStranded, NotWedged;
  }

  /** The held socket opened at step `k`, or its ping timer fired then. */
  predicate PingsFrom(inputs: seq<Input>, s: State, k: nat)
    requires k < |inputs| && s.ws.Some? && s.pingTimer.Some?
  {
    || (inputs[k].SockOpen? && inputs[k].sock == s.ws.value)
    || (inputs[k].Fire? && inputs[k].timer == s.pingTimer.value)
  }

  lemma PingIs(s: State)
    requires Inv(s) && s.pingTimer.Some?
    ensures s.ws.Some? && s.pingTimer.value in s.timers.armed
    ensures s.timers.armed[s.pingTimer.value].owner == Ping
  {
  }

  /** What a step does to the ping timer: it is armed afresh, or was armed before for the same socket. */
  lemma {:induction false} PingStep(c: nat, s: State, i: Input)
    requires Inv(s) && Inv(Step(c, s, i)) && Step(c, s, i).pingTimer.Some?
    ensures
      var t := Step(c, s, i);
      var h := t.pingTimer.value;
      && t.ws.Some? && h in t.timers.armed
      && if (Hears(s, i) && i.SockOpen?) || (Pings(s, i) && i.timer == h) then
           && (i.SockOpen? ==> i.sock == t.ws.value)
           && t.timers.armed[h] == Timer(Ping, NowOf(i) + 5_000)
         else
           && s.ws == t.ws && s.pingTimer == Some(h) && h in s.timers.armed
           && t.timers.armed[h] == s.timers.armed[h]
  {
    var t := Step(c, s, i);
    var h := t.pingTimer.value;
    PingIs(t);
    if Pings(s, i) {
      PingedAgain(c, s, i, h);
      PingHeld(s, i);
    } else if Hears(s, i) {
      Heard(c, s, i);
      if i.SockTraffic? {
        PingIs(s);
      }
    } else {
      StaysArmed(c, s, i, h);
      TimerIs(s, h);
    }
    hide Step, Inv;
  }

  lemma PingHeld(s: State, i: Input)
    requires Inv(s) && Pings(s, i)
    ensures s.pingTimer == Some(i.timer)
  {
  }

  /** In every run the next ping is due 5 s after the held socket opened, or after the ping before. */
  lemma {:induction false} PingSince(c: nat, inputs: seq<Input>)
    requires Run(c, inputs).pingTimer.Some?
    ensures
      var s := Run(c, inputs);
      && s.ws.Some? && s.pingTimer.value in s.timers.armed
      && exists k :: 0 <= k < |inputs| && PingsFrom(inputs, s, k)
                     && s.timers.armed[s.pingTimer.value] == Timer(Ping, NowOf(inputs[k]) + 5_000)
  {
    hide Run, Step, Inv;
    var m := |inputs| - 1;
    EmptyHasNothing(c, inputs);
    var before, i := inputs[..m], inputs[m];
    assert inputs == before + [i];
    OneMoreStep(c, before, i);
    var s, t := Run(c, before), Run(c, inputs);
    PingStep(c, s, i);
    var h := t.pingTimer.value;
    if (Hears(s, i) && i.SockOpen?) || (Pings(s, i) && i.timer == h) {
      assert PingsFrom(inputs, t, m);
    } else {
      PingSince(c, before);
      var k :| 0 <= k < |before| && PingsFrom(before, s, k)
               && s.timers.armed[h] == Timer(Ping, NowOf(before[k]) + 5_000);
      assert inputs[k] == before[k];
      assert PingsFrom(inputs, t, k);
    }
  }

  /** The held socket was made at step `k`. */
  ghost predicate MadeAt(c: nat, inputs: seq<Input>, sock: nat, k: nat)
    requires k < |inputs|
  {
    Run(c, inputs[..k]).sockets <= sock < Run(c, inputs[..k + 1]).sockets
  }

  lemma DeadlineIs(s: State)
    requires Inv(s) && s.connectTimer.Some?
    ensures s.ws.Some? && s.ws.value < s.sockets && s.connectTimer.value in s.timers.armed
    ensures s.timers.armed[s.connectTimer.value].owner == Connect(s.ws.value)
    ensures s.ws.value !in s.ready
  {
  }

  lemma {:induction false} DeadlineStep(c: nat, s: State, i: Input)
    requires Inv(s) && Inv(Step(c, s, i)) && Step(c, s, i).connectTimer.Some?
    ensures
      var t := Step(c, s, i);
      var h := t.connectTimer.value;
      && h in t.timers.armed
      && ((s.connectTimer == Some(h) && s.ws == t.ws && h in s.timers.armed && t.timers.armed[h] == s.timers.armed[h])
          || (t.ws.Some? && s.sockets <= t.ws.value < t.sockets && t.timers.armed[h].due == NowOf(i) + c))
  {
    var t := Step(c, s, i);
    DeadlineIs(t);
    if i.SockOpen? && !Hears(s, i) {
      OpenElsewhere(c, s, i);
    } else if Hears(s, i) {
      HeardIsReady(c, s, i);
    } else if Pings(s, i) {
      PingedAgain(c, s, i, t.connectTimer.value);
    } else {
      OtherStepReplaces(c, s, i);
    }
    hide Step, NotWedged;
  }

  lemma HeardIsReady(c: nat, s: State, i: Input)
    requires Inv(s) && Hears(s, i)
    ensures Step(c, s, i).connectTimer.None?
  {
  }

  lemma MadeSame(c: nat, before: seq<Input>, i: Input, sock: nat, k: nat)
    requires k < |before|
    ensures MadeAt(c, before + [i], sock, k) <==> MadeAt(c, before, sock, k)
  {
    hide Run;
    var all := before + [i];
    assert all[..k] == before[..k] && all[..k + 1] == before[..k + 1];
  }

  /** In every run the handshake of the held socket is due its timeout after the step that made the socket. */
  lemma {:induction false} DeadlineSince(c: nat, inputs: seq<Input>)
    requires Run(c, inputs).connectTimer.Some?
    ensures
      var s := Run(c, inputs);
      && s.ws.Some? && s.connectTimer.value in s.timers.armed
      && exists k :: 0 <= k < |inputs| && MadeAt(c, inputs, s.ws.value, k)
                     && s.timers.armed[s.connectTimer.value] == Timer(Connect(s.ws.value), NowOf(inputs[k]) + c)
  {
    var m := |inputs| - 1;
    var before, i := inputs[..m], inputs[m];
    assert inputs == before + [i];
    hide Run, Step, Inv;
    OneMoreStep(c, before, i);
    var s, t := Run(c, before), Run(c, inputs);
    DeadlineStep(c, s, i);
    DeadlineIs(t);
    if s.connectTimer == t.connectTimer && s.ws == t.ws
       && t.connectTimer.value in s.timers.armed
       && t.timers.armed[t.connectTimer.value] == s.timers.armed[t.connectTimer.value] {
      DeadlineSince(c, before);
      var k :| 0 <= k < |before| && MadeAt(c, before, s.ws.value, k)
               && s.timers.armed[s.connectTimer.value] == Timer(Connect(s.ws.value), NowOf(before[k]) + c);
      assert inputs[k] == before[k];
      hide MadeAt;
      MadeSame(c, before, i, t.ws.value, k);
    } else {
      assert inputs[..m + 1] == inputs && inputs[..m] == before;
      assert MadeAt(c, inputs, t.ws.value, m);
    }
  }
}
