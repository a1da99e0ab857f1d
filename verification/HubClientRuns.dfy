/**
 * What every step of the mirror agent's client keeps, and what holds over all its runs
 * (src/mirror-agent/hub-client.ts).
 *
 * The fields of the client name its armed timers and no others; a held socket is under exactly one deadline; a
 * client that was started and not stopped holds a socket or waits for a reconnect; and a stop leaves nothing.
 */
module HubClientRuns {
  import opened Options
  import opened Timers
  import opened ReconnectDelays
  import opened HubClient

  // ----- What every reachable state keeps -----

  /** The field that holds the handle of a timer of this kind. */
  function Field(s: State, o: Owner): Option<nat> {
    match o
    case Connect(_) => s.connectTimer
    case Watchdog => s.watchdogTimer
    case Ping => s.pingTimer
    case Reconnect => s.reconnectTimer
  }

  ghost predicate Armed(s: State, t: Option<nat>, o: Owner) {
    t.Some? ==> t.value in s.timers.armed && s.timers.armed[t.value].owner == o
  }

  /** The armed timers are exactly those the fields name. */
  ghost predicate TimersMatch(s: State) {
    && (forall t :: t in s.timers.armed ==> t < s.timers.next && Field(s, s.timers.armed[t].owner) == Some(t))
    && Armed(s, s.watchdogTimer, Watchdog) && Armed(s, s.pingTimer, Ping) && Armed(s, s.reconnectTimer, Reconnect)
    && (s.connectTimer.Some? ==> s.ws.Some? && Armed(s, s.connectTimer, Connect(s.ws.value)))
  }

  /** A held socket is under exactly one deadline: the handshake's until it opens, the watchdog's from then on. */
  ghost predicate SocketGuarded(s: State) {
    if s.ws.Some? then
      && s.ws.value < s.sockets
      && (s.connectTimer.Some? <==> s.ws.value !in s.ready)
      && (s.watchdogTimer.Some? <==> s.ws.value in s.ready)
      && (s.pingTimer.Some? <==> s.ws.value in s.ready)
    else s.connectTimer.None? && s.watchdogTimer.None? && s.pingTimer.None?
  }

  /** Every socket but the held one was closed, or found closed. */
  ghost predicate NoneStranded(s: State) {
    && (forall k: nat :: k in s.retired <==> k < s.sockets && s.ws != Some(k))
    && forall k: nat :: k in s.ready ==> k < s.sockets
  }

  ghost predicate Core(s: State) {
    && TimersMatch(s) && SocketGuarded(s) && NoneStranded(s)
    && (s.closing || !s.started ==> s.ws.None? && s.reconnectTimer.None?)
  }

  /** Running, it holds a socket or waits for a reconnect. */
  ghost predicate NotWedged(s: State) {
    s.started && !s.closing ==> s.ws.Some? || s.reconnectTimer.Some?
  }

  ghost predicate Inv(s: State) {
    Core(s) && NotWedged(s)
  }

  lemma DroppedKeeps(s: State)
    requires Core(s)
    ensures Core(Dropped(s)) && Dropped(s).ws.None? && Dropped(s).reconnectTimer == s.reconnectTimer
  {
  }

  lemma ScheduledKeeps(s: State, now: int)
    requires Core(s) && s.started
    ensures Inv(Scheduled(s, now)) && Scheduled(s, now).started
  {
  }

  lemma {:induction false} MadeMatches(c: nat, s: State, now: int)
    requires TimersMatch(s) && s.ws.None? && s.connectTimer.None?
    ensures TimersMatch(Made(c, s, now))
  {
  }

  lemma {:induction false} MadeKeeps(c: nat, s: State, now: int)
    requires Core(s) && s.ws.None? && s.started && !s.closing
    ensures Inv(Made(c, s, now)) && Made(c, s, now).started && !Made(c, s, now).closing
  {
    hide TimersMatch;
    MadeMatches(c, s, now);
  }

  lemma {:induction false} OpenedOnceKeeps(c: nat, s: State, ok: bool, now: int)
    requires Core(s) && s.started && !s.closing
    ensures Inv(OpenedOnce(c, s, ok, now)) && OpenedOnce(c, s, ok, now).started && !OpenedOnce(c, s, ok, now).closing
  {
    hide Core, Scheduled, Dropped;
    var d := Dropped(s);
    DroppedKeeps(s);
    DroppedFlags(s);
    if ok {
      MadeKeeps(c, d, now);
      assert OpenedOnce(c, s, ok, now) == Made(c, d, now);
    } else {
      ScheduledKeeps(d, now);
      ScheduledFlags(d, now);
    }
  }

  lemma DroppedFlags(s: State)
    ensures Dropped(s).started == s.started && Dropped(s).closing == s.closing
  {
  }

  lemma ScheduledFlags(s: State, now: int)
    ensures Scheduled(s, now).started == s.started && Scheduled(s, now).closing == s.closing
  {
  }

  lemma StartingKeeps(c: nat, s: State, ok: bool, now: int)
    requires Core(s)
    ensures Inv(Starting(c, s, ok, now)) && Starting(c, s, ok, now).started && !Starting(c, s, ok, now).closing
  {
    hide OpenedOnce;
    assert Core(s.(closing := false, started := true));
    hide Core;
    OpenedOnceKeeps(c, s.(closing := false, started := true), ok, now);
  }

  lemma StoppingKeeps(s: State)
    requires Core(s)
    ensures Inv(Stopping(s)) && Stopping(s).closing && Stopping(s).started == s.started
    ensures Stopping(s).timers.armed == map[]
  {
    var t := Stopping(s);
    assert Core(t);
    assert forall o: Owner :: Field(t, o).None?;
    assert t.timers.armed.Keys == {};
  }

  lemma {:induction false} CallingKeeps(c: nat, s: State, calls: seq<Call>, now: int)
    requires Core(s) && s.started
    ensures Core(Calling(c, s, calls, now)) && Calling(c, s, calls, now).started
  {
    hide Core, Starting, Stopping;
    if calls != [] {
      var before := calls[..|calls| - 1];
      CallingKeeps(c, s, before, now);
      InvIsCore(c, Calling(c, s, before, now), calls[|calls| - 1], now);
    }
  }

  lemma {:induction false} InvIsCore(c: nat, s: State, call: Call, now: int)
    requires Core(s) && s.started
    ensures call.CallStart? ==> Core(Starting(c, s, call.ok, now)) && Starting(c, s, call.ok, now).started
    ensures Core(Stopping(s)) && Stopping(s).started
  {
    hide Core, Starting, Stopping;
    if call.CallStart? {
      StartingKeeps(c, s, call.ok, now);
    }
    StoppingKeeps(s);
  }

  lemma {:induction false} AbandonedKeeps(c: nat, s: State, sock: nat, calls: seq<Call>, now: int)
    requires s.ws == Some(sock) && s.started && Core(Dropped(s))
    ensures Inv(Abandoned(c, s, sock, calls, now))
  {
    hide Core, Calling, Scheduled, Dropped, NotWedged;
    DroppedFlags(s);
    CallingKeeps(c, Dropped(s), calls, now);
    ScheduledKeeps(Calling(c, Dropped(s), calls, now), now);
  }

  lemma {:induction false} HasOpenedKeeps(s: State, sock: nat, now: int)
    requires Inv(s) && sock < s.sockets && sock !in s.ready
    ensures Inv(HasOpened(s.(ready := s.ready + {sock}), sock, now))
  {
    if s.ws == Some(sock) {
      HasOpenedMatches(s, sock, now);
      hide TimersMatch;
    }
  }

  lemma HasOpenedMatches(s: State, sock: nat, now: int)
    requires TimersMatch(s) && SocketGuarded(s) && s.ws == Some(sock) && sock !in s.ready
    ensures TimersMatch(HasOpened(s.(ready := s.ready + {sock}), sock, now))
  {
  }

  lemma TrafficKeeps(s: State, sock: nat, now: int)
    requires Inv(s) && sock in s.ready && s.ws == Some(sock)
    ensures Inv(WatchdogReset(s, now))
  {
  }

  lemma DeadlineFired(c: nat, s: State, t: nat, calls: seq<Call>, now: int)
    requires Inv(s) && t in s.timers.armed && s.timers.armed[t].owner.Connect?
    ensures Inv(Abandoned(c, s.(timers := s.timers.Disarm(t), connectTimer := None), s.timers.armed[t].owner.sock,
                          calls, now))
  {
    hide Abandoned;
    var d := s.(timers := s.timers.Disarm(t), connectTimer := None);
    assert Core(Dropped(d));
    AbandonedKeeps(c, d, s.timers.armed[t].owner.sock, calls, now);
  }

  lemma WatchdogFired(c: nat, s: State, t: nat, calls: seq<Call>, now: int)
    requires Inv(s) && t in s.timers.armed && s.timers.armed[t].owner.Watchdog?
    ensures s.ws.Some?
    ensures Inv(Abandoned(c, s.(timers := s.timers.Disarm(t), watchdogTimer := None), s.ws.value, calls, now))
  {
    hide Abandoned;
    var d := s.(timers := s.timers.Disarm(t), watchdogTimer := None);
    assert Core(Dropped(d));
    AbandonedKeeps(c, d, s.ws.value, calls, now);
  }

  lemma PingFired(s: State, t: nat, due: int)
    requires Inv(s) && t in s.timers.armed && s.timers.armed[t].owner.Ping?
    ensures Inv(s.(timers := s.timers.(armed := s.timers.armed[t := Timer(Ping, due)])))
  {
  }

  lemma {:induction false} ReconnectFired(c: nat, s: State, t: nat, ok: bool, now: int)
    requires Inv(s) && t in s.timers.armed && s.timers.armed[t].owner.Reconnect?
    ensures Inv(OpenedOnce(c, s.(timers := s.timers.Disarm(t), reconnectTimer := None), ok, now))
  {
    hide OpenedOnce;
    var d := s.(timers := s.timers.Disarm(t), reconnectTimer := None);
    assert Core(d);
    OpenedOnceKeeps(c, d, ok, now);
  }

  lemma {:induction false} FiredKeeps(c: nat, s: State, t: nat, ok: bool, calls: seq<Call>, now: int)
    requires Inv(s)
    ensures Inv(Fired(c, s, t, ok, calls, now))
  {
    hide Inv, OpenedOnce, Abandoned;
    if s.timers.CanFire(t, now) {
      match s.timers.armed[t].owner
      case Connect(_) => DeadlineFired(c, s, t, calls, now);
      case Watchdog => WatchdogFired(c, s, t, calls, now);
      case Ping => PingFired(s, t, now + PING_INTERVAL_MS);
      case Reconnect => ReconnectFired(c, s, t, ok, now);
    }
  }

  lemma {:induction false} StepKeeps(c: nat, s: State, i: Input)
    requires Inv(s)
    ensures Inv(Step(c, s, i))
  {
    hide Core, Starting, Stopping, HasOpened, WatchdogReset, Abandoned, Fired;
    match i
    case Start(ok, now) => StartingKeeps(c, s, ok, now);
    case Stop => StoppingKeeps(s);
    case SockOpen(sock, now) =>
      if sock < s.sockets && sock !in s.ready {
        HasOpenedKeeps(s, sock, now);
      }
    case SockTraffic(sock, now) =>
      if sock in s.ready && s.ws == Some(sock) {
        TrafficKeeps(s, sock, now);
      }
    case SockClose(sock, calls, now) =>
      if s.ws == Some(sock) {
        DroppedKeeps(s);
        HeldMeansStarted(s);
        AbandonedKeeps(c, s, sock, calls, now);
      } else {
        SupersededSocketsAreIgnored(c, s, sock, calls, now);
      }
    case Fire(t, ok, calls, now) => FiredKeeps(c, s, t, ok, calls, now);
  }

  /** Whatever a socket that is not held any more does, the client does not change. */
  lemma SupersededSocketsAreIgnored(c: nat, s: State, sock: nat, calls: seq<Call>, now: int)
    requires s.ws != Some(sock)
    ensures Step(c, s, SockOpen(sock, now)) == s.(ready := Step(c, s, SockOpen(sock, now)).ready)
    ensures Step(c, s, SockTraffic(sock, now)) == s
    ensures Step(c, s, SockClose(sock, calls, now)) == s
  {
  }

  lemma HeldMeansStarted(s: State)
    requires Core(s) && s.ws.Some?
    ensures s.started
  {
  }

  lemma {:induction false} RunKeeps(c: nat, inputs: seq<Input>)
    ensures Inv(Run(c, inputs))
  {
    hide Step;
    if inputs != [] {
      RunKeeps(c, inputs[..|inputs| - 1]);
      StepKeeps(c, Run(c, inputs[..|inputs| - 1]), inputs[|inputs| - 1]);
    }
  }

  // ----- The delays over a run -----

  ghost predicate DelaysOk(s: State) {
    s.reconnectDelay == NextDelay(s.past) && Chained(s.past)
  }

  lemma DroppedDelays(s: State)
    ensures Dropped(s).reconnectDelay == s.reconnectDelay && Dropped(s).past == s.past
  {
  }

  lemma {:induction false} ScheduledDelays(s: State, now: int)
    requires DelaysOk(s)
    ensures DelaysOk(Scheduled(s, now))
  {
    ChainGrows(s.past, Waiting(s.reconnectDelay, now));
    hide NextDelay, Chained;
  }

  lemma {:induction false} OpenedOnceDelays(c: nat, s: State, ok: bool, now: int)
    requires DelaysOk(s)
    ensures DelaysOk(OpenedOnce(c, s, ok, now))
  {
    DroppedDelays(s);
    hide Dropped, Scheduled, NextDelay, Chained;
    ScheduledDelays(Dropped(s), now);
  }

  lemma {:induction false} CallDelays(c: nat, s: State, call: Call, now: int)
    requires DelaysOk(s)
    ensures DelaysOk(Stopping(s)) && (call.CallStart? ==> DelaysOk(Starting(c, s, call.ok, now)))
  {
    DroppedDelays(s.(closing := true, timers := Unset(s.timers, s.reconnectTimer), reconnectTimer := None));
    hide Dropped, OpenedOnce, NextDelay, Chained;
    if call.CallStart? {
      OpenedOnceDelays(c, s.(closing := false, started := true), call.ok, now);
    }
  }

  lemma {:induction false} CallingDelays(c: nat, s: State, calls: seq<Call>, now: int)
    requires DelaysOk(s)
    ensures DelaysOk(Calling(c, s, calls, now))
  {
    hide DelaysOk, Starting, Stopping;
    if calls != [] {
      CallingDelays(c, s, calls[..|calls| - 1], now);
      CallDelays(c, Calling(c, s, calls[..|calls| - 1], now), calls[|calls| - 1], now);
    }
  }

  lemma {:induction false} AbandonedDelays(c: nat, s: State, sock: nat, calls: seq<Call>, now: int)
    requires DelaysOk(s)
    ensures DelaysOk(Abandoned(c, s, sock, calls, now))
  {
    DroppedDelays(s);
    hide Dropped, Scheduled, Calling, NextDelay, Chained;
    CallingDelays(c, Dropped(s), calls, now);
    ScheduledDelays(Calling(c, Dropped(s), calls, now), now);
  }

  lemma {:induction false} HasOpenedDelays(s: State, sock: nat, now: int)
    requires DelaysOk(s)
    ensures DelaysOk(HasOpened(s, sock, now))
  {
    ChainGrows(s.past, Opened(now));
    hide NextDelay, Chained;
  }

  lemma {:induction false} FiredDelays(c: nat, s: State, t: nat, ok: bool, calls: seq<Call>, now: int)
    requires DelaysOk(s)
    ensures DelaysOk(Fired(c, s, t, ok, calls, now))
  {
    hide OpenedOnce, Abandoned, NextDelay, Chained;
    if s.timers.CanFire(t, now) {
      match s.timers.armed[t].owner
      case Connect(sock) =>
        AbandonedDelays(c, s.(timers := s.timers.Disarm(t), connectTimer := None), sock, calls, now);
      case Watchdog =>
        if s.ws.Some? {
          AbandonedDelays(c, s.(timers := s.timers.Disarm(t), watchdogTimer := None), s.ws.value, calls, now);
        }
      case Ping =>
      case Reconnect => OpenedOnceDelays(c, s.(timers := s.timers.Disarm(t), reconnectTimer := None), ok, now);
    }
  }

  lemma {:induction false} StepDelays(c: nat, s: State, i: Input)
    requires DelaysOk(s)
    ensures DelaysOk(Step(c, s, i))
  {
    hide Starting, Stopping, HasOpened, Abandoned, Fired, NextDelay, Chained;
    match i
    case Start(ok, now) => CallDelays(c, s, CallStart(ok), now);
    case Stop => CallDelays(c, s, CallStop, 0);
    case SockOpen(sock, now) => HasOpenedDelays(s.(ready := s.ready + {sock}), sock, now);
    case SockTraffic(_, _) =>
    case SockClose(sock, calls, now) => AbandonedDelays(c, s, sock, calls, now);
    case Fire(t, ok, calls, now) => FiredDelays(c, s, t, ok, calls, now);
  }

  lemma {:induction false} RunDelays(c: nat, inputs: seq<Input>)
    ensures DelaysOk(Run(c, inputs))
  {
    hide Step;
    if inputs != [] {
      hide DelaysOk;
      RunDelays(c, inputs[..|inputs| - 1]);
      StepDelays(c, Run(c, inputs[..|inputs| - 1]), inputs[|inputs| - 1]);
    }
  }

  // ----- Whole runs -----

  /**
   * After a start and before a stop, a socket is held under exactly one deadline, or a reconnect is coming, or both.
   */
  lemma NeverWedged(c: nat, inputs: seq<Input>)
    ensures
      var s := Run(c, inputs);
      s.started && !s.closing ==>
        || (&& s.ws.Some? && s.connectTimer.Some? != s.watchdogTimer.Some?
            && (s.connectTimer.Some? ==> Armed(s, s.connectTimer, Connect(s.ws.value)))
            && Armed(s, s.watchdogTimer, Watchdog))
        || (s.reconnectTimer.Some? && Armed(s, s.reconnectTimer, Reconnect))
  {
    RunKeeps(c, inputs);
  }

  // ----- A held socket and a pending reconnect -----

  predicate HoldsBoth(s: State) {
    s.ws.Some? && s.reconnectTimer.Some?
  }

  /** The last thing the owner calls in `onClose` is a start that makes a socket. */
  predicate EndsStarted(calls: seq<Call>) {
    calls != [] && calls[|calls| - 1] == CallStart(true)
  }

  /** The step loses the held socket, and so calls the owner back. */
  predicate Loses(s: State, i: Input) {
    || (i.SockClose? && s.ws == Some(i.sock))
    || (i.Fire? && s.timers.CanFire(i.timer, i.now) && s.ws.Some?
        && s.timers.armed[i.timer].owner in {Connect(s.ws.value), Watchdog})
  }

  predicate Reconnects(s: State, i: Input) {
    i.Fire? && s.timers.CanFire(i.timer, i.now) && s.timers.armed[i.timer].owner.Reconnect?
  }

  /** A start while a reconnect is pending, or as the last call inside `onClose`. */
  predicate Doubles(s: State, i: Input) {
    (i.Start? && i.ok && s.reconnectTimer.Some?) || (Loses(s, i) && EndsStarted(i.calls))
  }

  predicate Undoubles(s: State, i: Input) {
    i.Stop? || (i.Start? && !i.ok) || (Loses(s, i) && !EndsStarted(i.calls)) || Reconnects(s, i)
  }

  lemma OpenedOnceHolds(c: nat, s: State, ok: bool, now: int)
    ensures
      var t := OpenedOnce(c, s, ok, now);
      && (t.ws.Some? <==> ok) && (ok ==> t.reconnectTimer == s.reconnectTimer) && t.closing == s.closing
  {
  }

  lemma AbandonedHolds(c: nat, s: State, sock: nat, calls: seq<Call>, now: int)
    requires s.ws == Some(sock)
    ensures HoldsBoth(Abandoned(c, s, sock, calls, now)) <==> EndsStarted(calls)
  {
    hide OpenedOnce;
    var d := Dropped(s);
    assert d.ws.None?;
    hide Dropped;
    if calls != [] {
      var before, last := Calling(c, d, calls[..|calls| - 1], now), calls[|calls| - 1];
      assert Calling(c, d, calls, now) ==
             if last.CallStart? then Starting(c, before, last.ok, now) else Stopping(before);
      hide Calling;
      StoppedHoldsNothing(before);
      hide Stopping;
      if last.CallStart? {
        OpenedOnceHolds(c, before.(closing := false, started := true), last.ok, now);
      }
    }
  }

  /** Exactly these steps make the client hold a socket with a reconnect pending, or end that. */
  lemma {:induction false} StepHolds(c: nat, s: State, i: Input)
    requires Inv(s)
    ensures HoldsBoth(Step(c, s, i)) <==> Doubles(s, i) || (HoldsBoth(s) && !Undoubles(s, i))
  {
    hide Abandoned, OpenedOnce, Stopping;
    match i
    case Start(ok, now) => OpenedOnceHolds(c, s.(closing := false, started := true), ok, now);
    case Stop => StoppedHoldsNothing(s);
    case SockOpen(sock, now) =>
    case SockTraffic(sock, now) =>
    case SockClose(sock, calls, now) =>
      if s.ws == Some(sock) {
        AbandonedHolds(c, s, sock, calls, now);
      } else {
        SupersededSocketsAreIgnored(c, s, sock, calls, now);
      }
    case Fire(t, ok, calls, now) => FiredHolds(c, s, i);
  }

  lemma {:induction false} FiredHolds(c: nat, s: State, i: Input)
    requires Inv(s) && i.Fire?
    ensures HoldsBoth(Step(c, s, i)) <==> Doubles(s, i) || (HoldsBoth(s) && !Undoubles(s, i))
  {
    hide Abandoned, OpenedOnce, NoneStranded, NotWedged;
    if s.timers.CanFire(i.timer, i.now) {
      match s.timers.armed[i.timer].owner
      case Connect(sock) =>
        assert s.ws == Some(sock);
        AbandonedHolds(c, s.(timers := s.timers.Disarm(i.timer), connectTimer := None), sock, i.calls, i.now);
      case Watchdog =>
        assert s.ws.Some?;
        AbandonedHolds(c, s.(timers := s.timers.Disarm(i.timer), watchdogTimer := None), s.ws.value, i.calls, i.now);
      case Ping =>
      case Reconnect =>
        OpenedOnceHolds(c, s.(timers := s.timers.Disarm(i.timer), reconnectTimer := None), i.ok, i.now);
    }
  }

  /** It came about at step `k`, and no later step ended it. */
  ghost predicate DoubledAt(c: nat, inputs: seq<Input>, k: nat)
    requires k < |inputs|
  {
    && Doubles(Run(c, inputs[..k]), inputs[k])
    && forall j :: k < j < |inputs| ==> !Undoubles(Run(c, inputs[..j]), inputs[j])
  }

  lemma DoubledSnoc(c: nat, before: seq<Input>, i: Input)
    ensures (exists k :: 0 <= k < |before + [i]| && DoubledAt(c, before + [i], k)) <==>
              Doubles(Run(c, before), i)
              || ((exists k :: 0 <= k < |before| && DoubledAt(c, before, k)) && !Undoubles(Run(c, before), i))
  {
    hide Run, Doubles, Undoubles;
    var all, n := before + [i], |before|;
    assert all[..n] == before && all[n] == i;
    assert forall k :: 0 <= k < n ==> all[k] == before[k] && all[..k] == before[..k];
    assert DoubledAt(c, all, n) <==> Doubles(Run(c, before), i);
    forall k | 0 <= k < n
      ensures DoubledAt(c, all, k) <==> DoubledAt(c, before, k) && !Undoubles(Run(c, before), i)
    {
      if DoubledAt(c, all, k) {
        assert forall j :: k < j < n ==> !Undoubles(Run(c, all[..j]), all[j]);
      }
    }
  }

  /**
   * A socket is held while a reconnect is pending just when the owner started the client with a reconnect pending,
   * or last of all inside `onClose`, and since then neither the socket was lost, nor the reconnect came, nor a stop.
   */
  lemma {:induction false} HoldsBothIff(c: nat, inputs: seq<Input>)
    ensures HoldsBoth(Run(c, inputs)) <==> exists k :: 0 <= k < |inputs| && DoubledAt(c, inputs, k)
  {
    if inputs != [] {
      var before, i := inputs[..|inputs| - 1], inputs[|inputs| - 1];
      assert inputs == before + [i];
      HoldsBothIff(c, before);
      DoubledSnoc(c, before, i);
      RunKeeps(c, before);
      hide Step, Doubles, Undoubles, DoubledAt, Inv, HoldsBoth;
      StepHolds(c, Run(c, before), i);
    }
  }

  /** A second start, after one that could not make a socket, is such a start. */
  lemma StartedTwice(c: nat, now: int)
    ensures HoldsBoth(Run(c, [Start(false, now), Start(true, now)]))
  {
    var inputs := [Start(false, now), Start(true, now)];
    assert inputs[..1] == [Start(false, now)] && inputs[..1][..0] == [];
    assert Run(c, inputs[..1]) == Step(c, Run(c, []), Start(false, now));
    assert Run(c, inputs) == Step(c, Run(c, inputs[..1]), Start(true, now));
  }

  /** Then the reconnect, when it comes, retires the held socket. */
  lemma ReconnectRetires(c: nat, inputs: seq<Input>, i: Input)
    requires HoldsBoth(Run(c, inputs)) && Reconnects(Run(c, inputs), i)
    ensures
      var s := Run(c, inputs);
      s.ws.value in Step(c, s, i).retired && Step(c, s, i).ws != s.ws
  {
    RunKeeps(c, inputs);
    hide Run;
    var s := Run(c, inputs);
    assert s.ws.value < s.sockets;
  }

  /** A stop leaves nothing armed and no socket open, even when it is called inside the `onClose` callback. */
  lemma NothingAfterStop(c: nat, inputs: seq<Input>)
    ensures
      var s := Run(c, inputs);
      s.closing ==> s.ws.None? && s.timers.armed == map[] && forall k :: 0 <= k < s.sockets ==> k in s.retired
  {
    RunKeeps(c, inputs);
    hide Run;
    var s := Run(c, inputs);
    if s.closing {
      assert forall o: Owner :: Field(s, o).None?;
      assert s.timers.armed.Keys == {};
    }
  }

  /** The last thing the owner called in `onClose` was a stop: nothing is armed afterwards. */
  lemma StopInsideOnClose(c: nat, inputs: seq<Input>, sock: nat, calls: seq<Call>, now: int)
    requires Run(c, inputs).ws == Some(sock) && calls != [] && calls[|calls| - 1] == CallStop
    ensures
      var s := Step(c, Run(c, inputs), SockClose(sock, calls, now));
      s.closing && s.ws.None? && s.timers.armed == map[]
  {
    RunKeeps(c, inputs);
    hide Run, Core;
    var s := Run(c, inputs);
    var before := calls[..|calls| - 1];
    DroppedKeeps(s);
    DroppedFlags(s);
    HeldMeansStarted(s);
    CallingKeeps(c, Dropped(s), before, now);
    hide Core, Dropped, Starting;
    var d := Calling(c, Dropped(s), before, now);
    StoppingKeeps(d);
    StoppedHoldsNothing(d);
    hide Stopping;
    assert Calling(c, Dropped(s), calls, now) == Stopping(d);
  }

  lemma StoppedHoldsNothing(s: State)
    ensures Stopping(s).ws.None?
  {
  }

  /** Every socket ever made is held or was retired, and no armed timer has been forgotten by the fields. */
  lemma {:induction false} NothingLeaks(c: nat, inputs: seq<Input>, k: nat, t: nat)
    ensures
      var s := Run(c, inputs);
      && (k < s.sockets ==> k in s.retired || s.ws == Some(k))
      && (t in s.timers.armed ==> Field(s, s.timers.armed[t].owner) == Some(t))
  {
    RunKeeps(c, inputs);
  }

  /** The k-th delay since a socket last opened is 1000 * 2^k, up to 30000. */
  lemma KthDelay(c: nat, inputs: seq<Input>, i: nat)
    requires i < |Run(c, inputs).past| && Run(c, inputs).past[i].Waiting?
    ensures
      var past := Run(c, inputs).past;
      past[i].delay == Min(1000 * Pow2(SinceOpen(past[..i])), 30000)
  {
    RunDelays(c, inputs);
    hide Run, NextDelay, Chained, SinceOpen;
    DelayAt(Run(c, inputs).past, i);
  }
}
