/**
 * The reconnecting WebSocket client of the mirror agent (src/mirror-agent/hub-client.ts): at most one socket is held,
 * under a handshake deadline until it opens and under a watchdog from then on; every way of losing it ends in a
 * reconnect, with a delay that doubles up to a limit and falls back when a socket opens.
 *
 * Here are its steps, as functions of its state, and the class, method by method; what they keep is proved in
 * `HubClientRuns`. The callback `onClose` may call back into the client, with any sequence of starts and stops, while
 * the client is losing a socket.
 */
module HubClient {
  import opened Options
  import opened Timers
  import opened ReconnectDelays

  const WATCHDOG_TIMEOUT_MS := 31_000
  const PING_INTERVAL_MS := 5_000

  datatype Owner = Connect(sock: nat) | Watchdog | Ping | Reconnect

  /**
   * The fields of the client, the timers of the runtime, how many sockets were made (the next one gets that
   * number), which of them are ready, which the client closed or found closed, and whether it was ever started.
   */
  datatype State = State(ws: Option<nat>, reconnectDelay: nat,
                         reconnectTimer: Option<nat>, watchdogTimer: Option<nat>, pingTimer: Option<nat>,
                         connectTimer: Option<nat>, closing: bool, timers: Runtime<Owner>,
                         sockets: nat, ready: set<nat>, retired: set<nat>, started: bool, past: seq<Event>)

  const INITIAL := State(None, RECONNECT_INITIAL_MS, None, None, None, None, false, Runtime(map[], 0), 0, {}, {}, false,
                         [])

  /** What the owner may do inside the `onClose` callback. */
  datatype Call = CallStart(ok: bool) | CallStop

  /** `ok` says whether making a socket works. A socket sends nothing before it opens. */
  datatype Input =
    | Start(ok: bool, now: int)
    | Stop
    | SockOpen(sock: nat, now: int)
    | SockTraffic(sock: nat, now: int)
    | SockClose(sock: nat, calls: seq<Call>, now: int)
    | Fire(timer: nat, ok: bool, calls: seq<Call>, now: int)

  function Unset(timers: Runtime<Owner>, t: Option<nat>): Runtime<Owner> {
    if t.Some? then timers.Disarm(t.value) else timers
  }

  // ----- The operations -----

  function ConnectCleared(s: State): State {
    s.(timers := Unset(s.timers, s.connectTimer), connectTimer := None)
  }

  function WatchdogCleared(s: State): State {
    s.(timers := Unset(s.timers, s.watchdogTimer), watchdogTimer := None)
  }

  function PingCleared(s: State): State {
    s.(timers := Unset(s.timers, s.pingTimer), pingTimer := None)
  }

  /** The held socket is dropped, with everything that was armed for it. */
  function Dropped(s: State): State {
    if s.ws.None? then s
    else PingCleared(WatchdogCleared(ConnectCleared(s.(ws := None, retired := s.retired + {s.ws.value}))))
  }

  function Scheduled(s: State, now: int): State {
    if s.closing || s.reconnectTimer.Some? then s
    else s.(reconnectDelay := Min(s.reconnectDelay * 2, RECONNECT_MAX_MS),
            reconnectTimer := Some(s.timers.next),
            timers := s.timers.Arm(Reconnect, now, s.reconnectDelay),
            past := s.past + [Waiting(s.reconnectDelay, now)])
  }

  /** A fresh socket is held, under its handshake deadline. */
  function Made(connectTimeoutMs: nat, s: State, now: int): State {
    s.(ws := Some(s.sockets), sockets := s.sockets + 1, connectTimer := Some(s.timers.next),
       timers := s.timers.Arm(Connect(s.sockets), now, connectTimeoutMs))
  }

  function OpenedOnce(connectTimeoutMs: nat, s: State, ok: bool, now: int): State {
    var s := Dropped(s);
    if !ok then Scheduled(s, now)
    else Made(connectTimeoutMs, s, now)
  }

  function Starting(connectTimeoutMs: nat, s: State, ok: bool, now: int): State {
    OpenedOnce(connectTimeoutMs, s.(closing := false, started := true), ok, now)
  }

  function Stopping(s: State): State {
    Dropped(s.(closing := true, timers := Unset(s.timers, s.reconnectTimer), reconnectTimer := None))
  }

  function Calling(connectTimeoutMs: nat, s: State, calls: seq<Call>, now: int): State {
    if calls == [] then s
    else
      var s := Calling(connectTimeoutMs, s, calls[..|calls| - 1], now);
      match calls[|calls| - 1]
      case CallStart(ok) => Starting(connectTimeoutMs, s, ok, now)
      case CallStop => Stopping(s)
  }

  /** The socket was lost: the owner is told, and unless it stopped the client, a reconnect follows. */
  function Abandoned(connectTimeoutMs: nat, s: State, sock: nat, calls: seq<Call>, now: int): State {
    if s.ws != Some(sock) then s
    else Scheduled(Calling(connectTimeoutMs, Dropped(s), calls, now), now)
  }

  function WatchdogReset(s: State, now: int): State {
    var s := s.(timers := Unset(s.timers, s.watchdogTimer));
    s.(watchdogTimer := Some(s.timers.next), timers := s.timers.Arm(Watchdog, now, WATCHDOG_TIMEOUT_MS))
  }

  function PingStarted(s: State, now: int): State {
    var s := PingCleared(s);
    s.(pingTimer := Some(s.timers.next), timers := s.timers.Arm(Ping, now, PING_INTERVAL_MS))
  }

  function HasOpened(s: State, sock: nat, now: int): State {
    if s.ws != Some(sock) then s
    else
      var s := ConnectCleared(s);
      PingStarted(WatchdogReset(s.(reconnectDelay := RECONNECT_INITIAL_MS, past := s.past + [Opened(now)]), now), now)
  }

  function Fired(connectTimeoutMs: nat, s: State, t: nat, ok: bool, calls: seq<Call>, now: int): State {
    if !s.timers.CanFire(t, now) then s
    else
      match s.timers.armed[t].owner
      case Connect(sock) =>
        Abandoned(connectTimeoutMs, s.(timers := s.timers.Disarm(t), connectTimer := None), sock, calls, now)
      case Watchdog =>
        var s := s.(timers := s.timers.Disarm(t), watchdogTimer := None);
        if s.ws.Some? then Abandoned(connectTimeoutMs, s, s.ws.value, calls, now) else s
      case Ping => s.(timers := s.timers.(armed := s.timers.armed[t := Timer(Ping, now + PING_INTERVAL_MS)]))
      case Reconnect => OpenedOnce(connectTimeoutMs, s.(timers := s.timers.Disarm(t), reconnectTimer := None), ok, now)
  }

  function Step(connectTimeoutMs: nat, s: State, i: Input): State {
    match i
    case Start(ok, now) => Starting(connectTimeoutMs, s, ok, now)
    case Stop => Stopping(s)
    case SockOpen(sock, now) =>
      if sock >= s.sockets || sock in s.ready then s
      else HasOpened(s.(ready := s.ready + {sock}), sock, now)
    case SockTraffic(sock, now) =>
      if sock !in s.ready || s.ws != Some(sock) then s else WatchdogReset(s, now)
    case SockClose(sock, calls, now) => Abandoned(connectTimeoutMs, s, sock, calls, now)
    case Fire(t, ok, calls, now) => Fired(connectTimeoutMs, s, t, ok, calls, now)
  }

  function Run(connectTimeoutMs: nat, inputs: seq<Input>): State {
    if inputs == [] then INITIAL
    else Step(connectTimeoutMs, Run(connectTimeoutMs, inputs[..|inputs| - 1]), inputs[|inputs| - 1])
  }

  // ----- The client itself -----

  class HubClient {
    const connectTimeoutMs: nat
    var ws: Option<nat>
    var reconnectDelay: nat
    var reconnectTimer: Option<nat>
    var watchdogTimer: Option<nat>
    var pingTimer: Option<nat>
    var connectTimer: Option<nat>
    var closing: bool
    var timers: Runtime<Owner>
    var sockets: nat
    ghost var ready: set<nat>
    ghost var retired: set<nat>
    ghost var started: bool
    ghost var past: seq<Event>

    ghost function Abs(): State
      reads this
    {
      State(ws, reconnectDelay, reconnectTimer, watchdogTimer, pingTimer, connectTimer, closing, timers,
            sockets, ready, retired, started, past)
    }

    constructor (connectTimeoutMs: nat)
      ensures this.connectTimeoutMs == connectTimeoutMs && Abs() == INITIAL
    {
      this.connectTimeoutMs := connectTimeoutMs;
      ws, reconnectDelay, closing, timers, sockets := None, RECONNECT_INITIAL_MS, false, Runtime(map[], 0), 0;
      reconnectTimer, watchdogTimer, pingTimer, connectTimer := None, None, None, None;
      ready, retired, started, past := {}, {}, false, [];
    }

    method Start(ok: bool, now: int)
      modifies this
      ensures Abs() == Starting(connectTimeoutMs, old(Abs()), ok, now)
    {
      closing := false;
      started := true;
      OpenOnce(ok, now);
    }

    method Stop()
      modifies this
      ensures Abs() == Stopping(old(Abs()))
    {
      closing := true;
      if reconnectTimer.Some? {
        timers := timers.Disarm(reconnectTimer.value);
        reconnectTimer := None;
      }
      RetireCurrent();
    }

    /** `ok` says whether making a socket works. */
    method OpenOnce(ok: bool, now: int)
      modifies this
      ensures Abs() == OpenedOnce(connectTimeoutMs, old(Abs()), ok, now)
    {
      RetireCurrent();
      if !ok {
        ScheduleReconnect(now);
        return;
      }
      ws := Some(sockets);
      connectTimer := Some(timers.next);
      timers := timers.Arm(Connect(sockets), now, connectTimeoutMs);
      sockets := sockets + 1;
    }

    method OnOpen(sock: nat, now: int)
      requires sock < sockets && sock !in ready
      modifies this
      ensures Abs() == Step(connectTimeoutMs, old(Abs()), SockOpen(sock, now))
    {
      ready := ready + {sock};
      if ws != Some(sock) {
        return;
      }
      ClearConnectTimeout();
      reconnectDelay := RECONNECT_INITIAL_MS;
      past := past + [Opened(now)];
      ResetWatchdog(now);
      StartPingInterval(now);
    }

    /** A message or a pong came in. */
    method OnTraffic(sock: nat, now: int)
      requires sock in ready
      modifies this
      ensures Abs() == Step(connectTimeoutMs, old(Abs()), SockTraffic(sock, now))
    {
      if ws == Some(sock) {
        ResetWatchdog(now);
      }
    }

    method OnClose(sock: nat, calls: seq<Call>, now: int)
      modifies this
      ensures Abs() == Step(connectTimeoutMs, old(Abs()), SockClose(sock, calls, now))
    {
      Abandon(sock, calls, now);
    }

    /** `calls` is what the owner does when it is told about the close. */
    method Abandon(sock: nat, calls: seq<Call>, now: int)
      modifies this
      ensures Abs() == Abandoned(connectTimeoutMs, old(Abs()), sock, calls, now)
    {
      if ws != Some(sock) {
        return;
      }
      RetireCurrent();
      ghost var s := Abs();
      for i := 0 to |calls|
        invariant Abs() == Calling(connectTimeoutMs, s, calls[..i], now)
      {
        hide Starting, Stopping;
        assert calls[..i + 1][..i] == calls[..i];
        match calls[i]
        case CallStart(ok) => Start(ok, now);
        case CallStop => Stop();
      }
      assert calls[..|calls|] == calls;
      if !closing {
        ScheduleReconnect(now);
      }
    }

    method RetireCurrent()
      modifies this
      ensures Abs() == Dropped(old(Abs()))
    {
      if ws.None? {
        return;
      }
      retired := retired + {ws.value};
      ws := None;
      ClearConnectTimeout();
      ClearWatchdog();
      ClearPingInterval();
    }

    method ClearConnectTimeout()
      modifies `connectTimer, `timers
      ensures Abs() == ConnectCleared(old(Abs()))
    {
      if connectTimer.Some? {
        timers := timers.Disarm(connectTimer.value);
        connectTimer := None;
      }
    }

    method ResetWatchdog(now: int)
      modifies `watchdogTimer, `timers
      ensures Abs() == WatchdogReset(old(Abs()), now)
    {
      if watchdogTimer.Some? {
        timers := timers.Disarm(watchdogTimer.value);
      }
      watchdogTimer := Some(timers.next);
      timers := timers.Arm(Watchdog, now, WATCHDOG_TIMEOUT_MS);
    }

    method ClearWatchdog()
      modifies `watchdogTimer, `timers
      ensures Abs() == WatchdogCleared(old(Abs()))
    {
      if watchdogTimer.Some? {
        timers := timers.Disarm(watchdogTimer.value);
        watchdogTimer := None;
      }
    }

    method StartPingInterval(now: int)
      modifies `pingTimer, `timers
      ensures Abs() == PingStarted(old(Abs()), now)
    {
      ClearPingInterval();
      pingTimer := Some(timers.next);
      timers := timers.Arm(Ping, now, PING_INTERVAL_MS);
    }

    method ClearPingInterval()
      modifies `pingTimer, `timers
      ensures Abs() == PingCleared(old(Abs()))
    {
      if pingTimer.Some? {
        timers := timers.Disarm(pingTimer.value);
        pingTimer := None;
      }
    }

    method ScheduleReconnect(now: int)
      modifies `reconnectDelay, `reconnectTimer, `timers, `past
      ensures Abs() == Scheduled(old(Abs()), now)
    {
      if closing || reconnectTimer.Some? {
        return;
      }
      var delay := reconnectDelay;
      reconnectDelay := Min(delay * 2, RECONNECT_MAX_MS);
      past := past + [Waiting(delay, now)];
      reconnectTimer := Some(timers.next);
      timers := timers.Arm(Reconnect, now, delay);
    }

    /** An armed timer fires: the runtime disarms it, unless it repeats, and runs its callback. */
    method OnTimer(t: nat, ok: bool, calls: seq<Call>, now: int)
      requires timers.CanFire(t, now)
      modifies this
      ensures Abs() == Step(connectTimeoutMs, old(Abs()), Fire(t, ok, calls, now))
    {
      var owner := timers.armed[t].owner;
      if owner.Ping? {
        timers := Runtime(timers.armed[t := Timer(Ping, now + PING_INTERVAL_MS)], timers.next);
        return;
      }
      timers := timers.Disarm(t);
      hide OpenedOnce, Abandoned;
      match owner
      case Connect(sock) =>
        connectTimer := None;
        Abandon(sock, calls, now);
      case Watchdog =>
        watchdogTimer := None;
        if ws.Some? {
          Abandon(ws.value, calls, now);
        }
      case Reconnect =>
        reconnectTimer := None;
        OpenOnce(ok, now);
    }
  }
}
