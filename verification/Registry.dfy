/**
 * The registry of agents (src/hub/registry.ts): who is online under which name and on which socket, who may
 * still come back, which names were seen, and when each of them was online.
 */
module Registry {
  import opened Options
  import opened JsMap
  import opened Names
  import opened Timers

  const MAX_INTERVALS_PER_NAME := 8

  datatype Agent = Agent(parts: Parts, sock: nat, teams: set<string>, channelCapable: bool, ccPid: Option<int>,
                         cwd: Option<string>)

  datatype Gone = Gone(teams: set<string>, timer: nat)

  /** A name was online from `start` until before `end`, in the logical time of the registry. */
  datatype Interval = Interval(start: nat, end: Option<nat>)

  datatype Config = Config(disconnectTimeoutMs: int, seenCapacity: int)

  datatype State = State(agents: Table<Agent>, disconnected: Table<Gone>, seen: seq<string>,
                         intervals: map<string, seq<Interval>>, clock: nat, timers: Runtime<string>)

  const INITIAL := State(Empty(), Empty(), [], map[], 0, Runtime(map[], 0))

  datatype Request = Request(name: string, sock: nat, channelCapable: bool, ccPid: Option<int>, cwd: Option<string>)

  datatype Answer = BadName | Taken | Registered(restored: bool, renamedFrom: Option<string>)

  // ----- Seen names and online intervals -----

  function Touched(capacity: int, s: State, name: string): State {
    var seen := Without(s.seen, name) + [name];
    if |seen| > capacity then s.(seen := Without(seen, seen[0]), intervals := s.intervals - {seen[0]})
    else s.(seen := seen)
  }

  function IntervalsOf(s: State, name: string): seq<Interval> {
    if name in s.intervals then s.intervals[name] else []
  }

  function OneMore(l: seq<Interval>, start: nat): seq<Interval> {
    var l := l + [Interval(start, None)];
    if |l| > MAX_INTERVALS_PER_NAME then l[1..] else l
  }

  function Opened(s: State, name: string): State {
    s.(intervals := s.intervals[name := OneMore(IntervalsOf(s, name), s.clock + 1)], clock := s.clock + 1)
  }

  function Ended(l: seq<Interval>, end: nat): seq<Interval> {
    if l != [] && l[|l| - 1].end.None? then l[..|l| - 1] + [l[|l| - 1].(end := Some(end))] else l
  }

  function Closed(s: State, name: string): State {
    var l := IntervalsOf(s, name);
    if l != [] && l[|l| - 1].end.None? then
      s.(intervals := s.intervals[name := Ended(l, s.clock + 1)], clock := s.clock + 1)
    else s
  }

  // ----- Registering -----

  /** The first other name the socket holds. */
  function Held(agents: Table<Agent>, order: seq<string>, sock: nat, name: string): Option<string> {
    if order == [] then None
    else
      var before, x := Held(agents, order[..|order| - 1], sock, name), order[|order| - 1];
      if before.Some? then before
      else if x in agents.at && agents.at[x].sock == sock && x != name then Some(x)
      else None
  }

  /** What the request comes to: a name may be taken over only by the process that holds it. */
  function Verdict(s: State, q: Request): Answer {
    if !IsValid(q.name) then BadName
    else if q.name in s.agents.at then
      var existing := s.agents.at[q.name];
      if existing.sock == q.sock then Registered(false, None)
      else if q.ccPid.None? || existing.ccPid != q.ccPid then Taken
      else Registered(q.name in s.disconnected.at, Held(s.agents, s.agents.order, q.sock, q.name))
    else Registered(q.name in s.disconnected.at, Held(s.agents, s.agents.order, q.sock, q.name))
  }

  /** The old name is dead: it is offline, no longer seen, and its intervals are forgotten. */
  function Forgotten(s: State, name: string): State {
    s.(agents := s.agents.Delete(name), seen := Without(s.seen, name), intervals := s.intervals - {name})
  }

  function Refreshed(a: Agent, q: Request): Agent {
    a.(channelCapable := q.channelCapable, ccPid := if q.ccPid.Some? then q.ccPid else a.ccPid,
       cwd := if q.cwd.Some? then q.cwd else a.cwd)
  }

  /** Someone who comes back in time is no longer waited for. */
  function Welcomed(s: State, name: string): State {
    if name in s.disconnected.at then
      s.(timers := s.timers.Disarm(s.disconnected.at[name].timer), disconnected := s.disconnected.Delete(name))
    else s
  }

  /** The teams of a new entry: those of the old name or of the displaced entry, else those waited with. */
  function TeamsFor(s: State, q: Request): set<string> {
    var mine := Held(s.agents, s.agents.order, q.sock, q.name);
    if mine.Some? && mine.value in s.agents.at then s.agents.at[mine.value].teams
    else if q.name in s.agents.at then s.agents.at[q.name].teams
    else if q.name in s.disconnected.at then s.disconnected.at[q.name].teams
    else {}
  }

  function Admitted(c: Config, s: State, q: Request): State {
    var mine := Held(s.agents, s.agents.order, q.sock, q.name);
    var t := Touched(c.seenCapacity, s, q.name);
    var t := if mine.Some? then Forgotten(t, mine.value) else t;
    if q.name in s.agents.at && s.agents.at[q.name].sock == q.sock then
      t.(agents := t.agents.Set(q.name, Refreshed(s.agents.at[q.name], q)))
    else
      var t := if q.name in s.agents.at then Closed(t.(agents := t.agents.Delete(q.name)), q.name) else t;
      var t := Welcomed(t, q.name);
      var a := Agent(Parse(q.name), q.sock, TeamsFor(s, q), q.channelCapable, q.ccPid, q.cwd);
      Opened(t.(agents := t.agents.Set(q.name, a)), q.name)
  }

  // ----- Going away -----

  function Waiting(c: Config, s: State, name: string, teams: set<string>, now: int): State {
    if teams == {} then s
    else s.(timers := s.timers.Arm(name, now, c.disconnectTimeoutMs),
            disconnected := s.disconnected.Set(name, Gone(teams, s.timers.next)))
  }

  /** With a socket given, only that socket's own name goes. */
  function Left(c: Config, s: State, name: string, sock: Option<nat>, now: int): State {
    if name !in s.agents.at || (sock.Some? && s.agents.at[name].sock != sock.value) then s
    else Waiting(c, Closed(s.(agents := s.agents.Delete(name)), name), name, s.agents.at[name].teams, now)
  }

  /** The timer of a name that did not come back in time fires. */
  function GivenUp(s: State, t: nat): State {
    if t !in s.timers.armed then s
    else s.(timers := s.timers.Disarm(t), disconnected := s.disconnected.Delete(s.timers.armed[t].owner))
  }

  function HostPidMatches(agents: Table<Agent>, order: seq<string>, host: string, ccPid: int): Option<string> {
    if order == [] then None
    else
      var before, x := HostPidMatches(agents, order[..|order| - 1], host, ccPid), order[|order| - 1];
      if before.Some? then before
      else if x in agents.at && agents.at[x].parts.host == host && agents.at[x].ccPid == Some(ccPid) then Some(x)
      else None
  }

  /** The process is known to be dead. */
  function Orphaned(c: Config, s: State, host: string, ccPid: int, now: int): State {
    if host == "" then s
    else
      var name := HostPidMatches(s.agents, s.agents.order, host, ccPid);
      if name.Some? then Left(c, s, name.value, None, now) else s
  }

  // ----- What every operation keeps -----

  ghost predicate AgentOk(name: string, a: Agent) {
    IsValid(name) && a.parts == Parse(name)
  }

  ghost predicate OneNameEach(agents: map<string, Agent>) {
    forall a, b :: a in agents && b in agents && agents[a].sock == agents[b].sock ==> a == b
  }

  ghost predicate GoneOk(disconnected: map<string, Gone>, timers: Runtime<string>) {
    && (forall n :: n in disconnected ==>
          && disconnected[n].teams != {} && disconnected[n].timer in timers.armed
          && timers.armed[disconnected[n].timer].owner == n)
    && (forall t :: t in timers.armed ==>
          t < timers.next && timers.armed[t].owner in disconnected && disconnected[timers.armed[t].owner].timer == t)
  }

  ghost predicate Inv(s: State) {
    && s.agents.Wf() && s.disconnected.Wf() && NoDup(s.seen)
    && (forall n :: n in s.agents.at ==> AgentOk(n, s.agents.at[n]) && n !in s.disconnected.at)
    && OneNameEach(s.agents.at) && GoneOk(s.disconnected.at, s.timers)
  }

  lemma AgentsWf(s: State)
    requires Inv(s)
    ensures s.agents.Wf()
  {
  }

  /** A socket holds no other name, or exactly this one. */
  lemma {:induction false} HeldIs(agents: Table<Agent>, order: seq<string>, sock: nat, name: string)
    ensures
      var h := Held(agents, order, sock, name);
      && (h.Some? ==> h.value in order && h.value in agents.at && agents.at[h.value].sock == sock && h.value != name)
      && (h.None? ==> forall x :: x in order && x in agents.at && agents.at[x].sock == sock ==> x == name)
  {
    if order != [] {
      var p := order[..|order| - 1];
      HeldIs(agents, p, sock, name);
      assert order == p + [order[|order| - 1]];
    }
  }

  lemma {:induction false} HostPidIs(agents: Table<Agent>, order: seq<string>, host: string, ccPid: int)
    ensures
      var h := HostPidMatches(agents, order, host, ccPid);
      && (h.Some? ==> h.value in order && h.value in agents.at && agents.at[h.value].parts.host == host
                      && agents.at[h.value].ccPid == Some(ccPid))
      && (h.None? ==> forall x :: x in order && x in agents.at && agents.at[x].parts.host == host ==>
                        agents.at[x].ccPid != Some(ccPid))
  {
    if order != [] {
      var p := order[..|order| - 1];
      HostPidIs(agents, p, host, ccPid);
      assert order == p + [order[|order| - 1]];
    }
  }

  lemma TouchedKeeps(capacity: int, s: State, name: string)
    requires NoDup(s.seen)
    ensures
      var t := Touched(capacity, s, name);
      NoDup(t.seen) && t == s.(seen := t.seen, intervals := t.intervals)
  {
    WithoutMembers(s.seen, name);
    WithoutNoDup(s.seen, name);
    NoDupAppend(Without(s.seen, name), name);
    var seen := Without(s.seen, name) + [name];
    WithoutNoDup(seen, seen[0]);
    hide Without, NoDup;
  }

  lemma OneBack(d: map<string, Gone>, timers: Runtime<string>, name: string)
    requires GoneOk(d, timers) && name in d
    ensures GoneOk(d - {name}, timers.Disarm(d[name].timer))
  {
  }

  lemma OneMoreGone(d: map<string, Gone>, timers: Runtime<string>, name: string, teams: set<string>, now: int,
                    delay: int)
    requires GoneOk(d, timers) && name !in d && teams != {}
    ensures GoneOk(d[name := Gone(teams, timers.next)], timers.Arm(name, now, delay))
  {
  }

  lemma OwnerIsGone(d: map<string, Gone>, timers: Runtime<string>, t: nat)
    requires GoneOk(d, timers) && t in timers.armed
    ensures timers.armed[t].owner in d && d[timers.armed[t].owner].timer == t
  {
  }

  /** Going offline, whatever becomes of the intervals. */
  lemma DeletedKeeps(s: State, name: string)
    requires Inv(s)
    ensures Inv(s.(agents := s.agents.Delete(name)))
  {
    s.agents.DeleteWf(name);
    hide NoDup, Without, AgentOk, GoneOk;
  }

  lemma ClosedShape(s: State, name: string)
    ensures Closed(s, name) == s.(intervals := Closed(s, name).intervals, clock := Closed(s, name).clock)
  {
  }

  lemma SeenIsFree(s: State, seen: seq<string>, intervals: map<string, seq<Interval>>, clock: nat)
    requires Inv(s) && NoDup(seen)
    ensures Inv(s.(seen := seen, intervals := intervals, clock := clock))
  {
    hide NoDup, AgentOk, OneNameEach, GoneOk;
  }

  lemma WelcomedKeeps(s: State, name: string)
    requires Inv(s)
    ensures Inv(Welcomed(s, name)) && name !in Welcomed(s, name).disconnected.at
  {
    hide NoDup, Without, AgentOk, OneNameEach, GoneOk;
    s.disconnected.DeleteWf(name);
    if name in s.disconnected.at {
      OneBack(s.disconnected.at, s.timers, name);
    }
  }

  lemma {:induction false} AddedKeeps(s: State, name: string, a: Agent)
    requires Inv(s) && name !in s.disconnected.at && AgentOk(name, a)
    requires forall x :: x in s.agents.at && s.agents.at[x].sock == a.sock ==> x == name
    ensures Inv(s.(agents := s.agents.Set(name, a)))
  {
    s.agents.SetWf(name, a);
    hide NoDup, AgentOk, GoneOk;
  }

  lemma ForgottenKeeps(s: State, name: string)
    requires Inv(s)
    ensures Inv(Forgotten(s, name))
  {
    DeletedKeeps(s, name);
    WithoutNoDup(s.seen, name);
    hide NoDup, Without, AgentOk, OneNameEach, GoneOk;
  }

  lemma {:induction false} AdmittedKeeps(c: Config, s: State, q: Request)
    requires Inv(s) && Verdict(s, q).Registered?
    ensures Inv(Admitted(c, s, q))
  {
    hide NoDup, Without, GoneOk, Touched, Parse, IsValid;
    var mine := Held(s.agents, s.agents.order, q.sock, q.name);
    HeldIs(s.agents, s.agents.order, q.sock, q.name);
    TouchedKeeps(c.seenCapacity, s, q.name);
    var t0 := Touched(c.seenCapacity, s, q.name);
    SeenIsFree(s, t0.seen, t0.intervals, s.clock);
    ForgottenKeeps(t0, if mine.Some? then mine.value else q.name);
    var t1 := if mine.Some? then Forgotten(t0, mine.value) else t0;
    assert forall x :: x in t1.agents.at && t1.agents.at[x].sock == q.sock ==> x == q.name;
    hide OneNameEach, Held;
    if q.name in s.agents.at && s.agents.at[q.name].sock == q.sock {
      AddedKeeps(t1, q.name, Refreshed(s.agents.at[q.name], q));
    } else {
      ReplacedKeeps(t1, q.name, q.name in s.agents.at,
                    Agent(Parse(q.name), q.sock, TeamsFor(s, q), q.channelCapable, q.ccPid, q.cwd));
    }
  }

  /** The displaced entry, if there is one, makes room for the new one. */
  lemma {:induction false} ReplacedKeeps(s: State, name: string, displaced: bool, a: Agent)
    requires Inv(s) && AgentOk(name, a)
    requires forall x :: x in s.agents.at && s.agents.at[x].sock == a.sock ==> x == name
    ensures
      var t := if displaced then Closed(s.(agents := s.agents.Delete(name)), name) else s;
      var t := Welcomed(t, name);
      Inv(Opened(t.(agents := t.agents.Set(name, a)), name))
  {
    hide NoDup, Without, GoneOk, OneNameEach, AgentOk;
    DeletedKeeps(s, name);
    var d := s.(agents := s.agents.Delete(name));
    var t := if displaced then Closed(d, name) else s;
    ClosedShape(d, name);
    SeenIsFree(d, d.seen, Closed(d, name).intervals, Closed(d, name).clock);
    hide Closed;
    WelcomedKeeps(t, name);
    var w := Welcomed(t, name);
    AddedKeeps(w, name, a);
    var o := Opened(w.(agents := w.agents.Set(name, a)), name);
    SeenIsFree(w.(agents := w.agents.Set(name, a)), w.seen, o.intervals, o.clock);
  }

  /** Somebody else is online with the name, and the request does not come from the same process. */
  predicate Collides(agents: map<string, Agent>, q: Request) {
    && q.name in agents && agents[q.name].sock != q.sock
    && (q.ccPid.None? || agents[q.name].ccPid != q.ccPid)
  }

  /** The socket of the request is online with this name, and asks for another one. */
  predicate Renamed(agents: map<string, Agent>, q: Request, n: string) {
    n in agents && agents[n].sock == q.sock && n != q.name
  }

  /** What is answered: when a request is refused, and what it is told when it is not. */
  lemma VerdictIs(s: State, q: Request)
    requires Inv(s)
    ensures
      var r := Verdict(s, q);
      && (r == BadName <==> !IsValid(q.name))
      && (r == Taken <==> IsValid(q.name) && Collides(s.agents.at, q))
      && (r.Registered? ==>
            && (r.restored <==> q.name in s.disconnected.at)
            && forall n :: r.renamedFrom == Some(n) <==> Renamed(s.agents.at, q, n))
  {
    hide IsValid, NoDup, GoneOk, AgentOk;
    HeldIs(s.agents, s.agents.order, q.sock, q.name);
    hide Held;
  }

  predicate Renewed(s: State, q: Request) {
    q.name in s.agents.at && s.agents.at[q.name].sock == q.sock
  }

  /** A fresh entry takes the place of the displaced one and of the socket's other name. */
  lemma NewEntry(c: Config, s: State, q: Request)
    requires NoDup(s.seen) && !Renewed(s, q)
    ensures
      var t, mine := Admitted(c, s, q), Held(s.agents, s.agents.order, q.sock, q.name);
      var a := Agent(Parse(q.name), q.sock, TeamsFor(s, q), q.channelCapable, q.ccPid, q.cwd);
      && t.agents.at == (s.agents.at - (if mine.Some? then {mine.value} else {}))[q.name := a]
      && t.disconnected.at == s.disconnected.at - {q.name}
  {
    hide NoDup, Parse, Touched, Without, Held, TeamsFor, IntervalsOf, Ended, OneMore;
    TouchedKeeps(c.seenCapacity, s, q.name);
    var mine := Held(s.agents, s.agents.order, q.sock, q.name);
    var t := Touched(c.seenCapacity, s, q.name);
    var t1 := if mine.Some? then Forgotten(t, mine.value) else t;
    ClosedShape(t1.(agents := t1.agents.Delete(q.name)), q.name);
    hide Closed, Opened;
    var e := if q.name in s.agents.at then Closed(t1.(agents := t1.agents.Delete(q.name)), q.name) else t1;
    var w := Welcomed(e, q.name);
    assert w.disconnected.at == s.disconnected.at - {q.name} && w.agents == e.agents;
    hide Welcomed, Forgotten;
    var a := Agent(Parse(q.name), q.sock, TeamsFor(s, q), q.channelCapable, q.ccPid, q.cwd);
    OpenedShape(w.(agents := w.agents.Set(q.name, a)), q.name);
  }

  /** What a registration does to who is online, with which teams, and to who is waited for. */
  lemma AdmittedEntries(c: Config, s: State, q: Request)
    requires Inv(s) && Verdict(s, q).Registered?
    ensures
      var t, v := Admitted(c, s, q), Verdict(s, q);
      && IsValid(q.name)
      && (v.renamedFrom.Some? ==>
            && v.renamedFrom.value in s.agents.at && v.renamedFrom.value != q.name
            && s.agents.at[v.renamedFrom.value].sock == q.sock)
      && (v.renamedFrom.None? ==> forall n :: n in s.agents.at && s.agents.at[n].sock == q.sock ==> n == q.name)
      && t.agents.at.Keys == s.agents.at.Keys - (if v.renamedFrom.Some? then {v.renamedFrom.value} else {}) + {q.name}
      && (forall n :: n in t.agents.at && n != q.name ==> n in s.agents.at && t.agents.at[n] == s.agents.at[n])
      && q.name in t.agents.at && t.agents.at[q.name].sock == q.sock && t.agents.at[q.name].teams == TeamsFor(s, q)
      && t.disconnected.at == s.disconnected.at - {q.name}
  {
    hide NoDup, GoneOk, IsValid, Parse, Touched, AgentOk;
    var mine := Held(s.agents, s.agents.order, q.sock, q.name);
    HeldIs(s.agents, s.agents.order, q.sock, q.name);
    if Renewed(s, q) {
      assert mine.None?;
      TouchedKeeps(c.seenCapacity, s, q.name);
      assert s.disconnected.at - {q.name} == s.disconnected.at;
    } else {
      NewEntry(c, s, q);
    }
    hide Held, TeamsFor;
  }

  lemma OpenedShape(s: State, name: string)
    ensures Opened(s, name) == s.(intervals := Opened(s, name).intervals, clock := Opened(s, name).clock)
  {
  }

  lemma {:induction false} TouchedSeen(capacity: int, s: State, name: string)
    ensures forall n :: n in Touched(capacity, s, name).seen ==> n in s.seen || n == name
  {
    WithoutMembers(s.seen, name);
    var seen := Without(s.seen, name) + [name];
    WithoutMembers(seen, seen[0]);
    hide Without;
  }

  lemma {:induction false} AdmittedSeen(c: Config, s: State, q: Request)
    requires Verdict(s, q).Registered?
    ensures forall n :: n in Admitted(c, s, q).seen ==> n in s.seen || n == q.name
  {
    hide IsValid, Parse, TeamsFor, Held, Touched, Closed, Opened, Without;
    var t := Touched(c.seenCapacity, s, q.name);
    TouchedSeen(c.seenCapacity, s, q.name);
    var mine := Held(s.agents, s.agents.order, q.sock, q.name);
    if mine.Some? {
      WithoutMembers(t.seen, mine.value);
    }
    if !(q.name in s.agents.at && s.agents.at[q.name].sock == q.sock) {
      var t := if mine.Some? then Forgotten(t, mine.value) else t;
      hide Forgotten;
      ClosedShape(t.(agents := t.agents.Delete(q.name)), q.name);
      var e := if q.name in s.agents.at then Closed(t.(agents := t.agents.Delete(q.name)), q.name) else t;
      var w := Welcomed(e, q.name);
      assert w.seen == e.seen == t.seen;
      hide Welcomed;
      var a := Agent(Parse(q.name), q.sock, TeamsFor(s, q), q.channelCapable, q.ccPid, q.cwd);
      OpenedShape(w.(agents := w.agents.Set(q.name, a)), q.name);
    }
  }

  lemma WaitingKeeps(c: Config, s: State, name: string, teams: set<string>, now: int)
    requires Inv(s) && name !in s.agents.at && name !in s.disconnected.at
    ensures Inv(Waiting(c, s, name, teams, now))
  {
    if teams != {} {
      hide NoDup, AgentOk, OneNameEach, GoneOk;
      s.disconnected.SetWf(name, Gone(teams, s.timers.next));
      OneMoreGone(s.disconnected.at, s.timers, name, teams, now, c.disconnectTimeoutMs);
    }
  }

  lemma {:induction false} LeftKeeps(c: Config, s: State, name: string, sock: Option<nat>, now: int)
    requires Inv(s)
    ensures Inv(Left(c, s, name, sock, now))
  {
    hide NoDup, Without, GoneOk, OneNameEach, AgentOk, Waiting;
    if name in s.agents.at {
      DeletedKeeps(s, name);
      var d := s.(agents := s.agents.Delete(name));
      ClosedShape(d, name);
      SeenIsFree(d, d.seen, Closed(d, name).intervals, Closed(d, name).clock);
      hide Closed;
      WaitingKeeps(c, Closed(d, name), name, s.agents.at[name].teams, now);
    }
  }

  /** Going away changes nobody else, and leaves the teams with those waited for. */
  lemma LeftEntries(c: Config, s: State, name: string, sock: Option<nat>, now: int)
    ensures
      var t := Left(c, s, name, sock, now);
      var goes := name in s.agents.at && (sock.Some? ==> s.agents.at[name].sock == sock.value);
      && t.seen == s.seen
      && t.agents.at == (if goes then s.agents.at - {name} else s.agents.at)
      && t.disconnected.at == if goes && s.agents.at[name].teams != {} then
                                s.disconnected.at[name := Gone(s.agents.at[name].teams, s.timers.next)]
                              else s.disconnected.at
  {
    hide Without, Ended;
  }

  lemma GivenUpKeeps(s: State, t: nat)
    requires Inv(s)
    ensures Inv(GivenUp(s, t))
  {
    hide NoDup, Without, AgentOk, OneNameEach, GoneOk;
    if t in s.timers.armed {
      OwnerIsGone(s.disconnected.at, s.timers, t);
      OneBack(s.disconnected.at, s.timers, s.timers.armed[t].owner);
      s.disconnected.DeleteWf(s.timers.armed[t].owner);
    }
  }

  // ----- Finding agents -----

  datatype Found = Online(name: string) | NotOnline | Several(names: seq<string>)

  /** The agent an address stands for now: what `MatchNames` selects among the online names. */
  function Resolved(s: State, query: string): Found {
    var matches := MatchNames(query, s.agents.order);
    if |matches| == 0 then NotOnline else if |matches| == 1 then Online(matches[0]) else Several(matches)
  }

  function EndOr(i: Interval, now: nat): nat {
    if i.end.Some? then i.end.value else now
  }

  predicate Meet(a: Interval, b: Interval, now: nat) {
    a.start < EndOr(b, now) && b.start < EndOr(a, now)
  }

  ghost predicate Overlap(a: seq<Interval>, b: seq<Interval>, now: nat) {
    exists i, j :: 0 <= i < |a| && 0 <= j < |b| && Meet(a[i], b[j], now)
  }

  ghost predicate EverConcurrent(s: State, names: seq<string>) {
    exists i, j :: 0 <= i < j < |names| && Overlap(IntervalsOf(s, names[i]), IntervalsOf(s, names[j]), s.clock + 1)
  }

  /** The name an address stands for among all that were seen: names never online together are one identity. */
  ghost function ResolvedSeen(s: State, query: string): Found {
    var matches := MatchNames(query, s.seen);
    if |matches| == 0 then NotOnline
    else if |matches| == 1 then Online(matches[0])
    else if (':' in query) != ('@' in query) && !EverConcurrent(s, matches) then Online(matches[|matches| - 1])
    else Several(matches)
  }

  lemma SelectSnoc(names: seq<string>, c: Criterion, i: nat)
    requires i < |names|
    ensures Select(names[..i + 1], c) == Select(names[..i], c) + if Meets(names[i], c) then [names[i]] else []
  {
    assert names[..i + 1][..i] == names[..i];
  }

  // ----- The registry itself -----

  class Registry {
    const c: Config
    var agents: Table<Agent>
    var disconnected: Table<Gone>
    var seenNames: seq<string>
    var onlineIntervals: map<string, seq<Interval>>
    var intervalSeq: nat
    var timers: Runtime<string>

    ghost function Abs(): State
      reads this
    {
      State(agents, disconnected, seenNames, onlineIntervals, intervalSeq, timers)
    }

    ghost predicate Valid()
      reads this
    {
      Inv(Abs())
    }

    constructor (c: Config)
      ensures this.c == c && Abs() == INITIAL && Valid()
    {
      this.c := c;
      agents, disconnected, seenNames := Empty(), Empty(), [];
      onlineIntervals, intervalSeq, timers := map[], 0, Runtime(map[], 0);
    }

    method TouchSeenName(fullName: string)
      modifies `seenNames, `onlineIntervals
      ensures Abs() == Touched(c.seenCapacity, old(Abs()), fullName)
    {
      seenNames := Without(seenNames, fullName);
      seenNames := seenNames + [fullName];
      if |seenNames| > c.seenCapacity {
        var oldest := seenNames[0];
        seenNames := Without(seenNames, oldest);
        onlineIntervals := onlineIntervals - {oldest};
      }
    }

    method OpenInterval(fullName: string)
      modifies `onlineIntervals, `intervalSeq
      ensures Abs() == Opened(old(Abs()), fullName)
    {
      var intervals := if fullName in onlineIntervals then onlineIntervals[fullName] else [];
      intervalSeq := intervalSeq + 1;
      intervals := intervals + [Interval(intervalSeq, None)];
      if |intervals| > MAX_INTERVALS_PER_NAME {
        intervals := intervals[1..];
      }
      onlineIntervals := onlineIntervals[fullName := intervals];
    }

    method CloseInterval(fullName: string)
      modifies `onlineIntervals, `intervalSeq
      ensures Abs() == Closed(old(Abs()), fullName)
    {
      if fullName !in onlineIntervals || onlineIntervals[fullName] == [] {
        return;
      }
      var intervals := onlineIntervals[fullName];
      var last := intervals[|intervals| - 1];
      if last.end.None? {
        intervalSeq := intervalSeq + 1;
        var closed := intervals[..|intervals| - 1] + [last.(end := Some(intervalSeq))];
        onlineIntervals := onlineIntervals[fullName := closed];
      }
    }

    method Register(q: Request) returns (r: Answer)
      requires Valid()
      modifies this
      ensures Valid() && r == Verdict(old(Abs()), q)
      ensures r == BadName <==> !IsValid(q.name)
      ensures r == Taken <==> IsValid(q.name) && Collides(old(agents).at, q)
      ensures r.Registered? ==> (r.restored <==> q.name in old(disconnected).at)
      ensures r.Registered? ==> forall n :: r.renamedFrom == Some(n) <==> Renamed(old(agents).at, q, n)
      ensures Abs() == if r.Registered? then Admitted(c, old(Abs()), q) else old(Abs())
    {
      VerdictIs(Abs(), q);
      hide Inv, IsValid, Held, Admitted;
      if !IsValid(q.name) {
        return BadName;
      }
      var renamedFrom := FindHeld(q.sock, q.name);
      var existing := agents.Get(q.name);
      if existing.Some? && existing.value.sock != q.sock {
        if q.ccPid.None? || existing.value.ccPid != q.ccPid {
          return Taken;
        }
      }
      AdmittedKeeps(c, Abs(), q);
      var restored := Admit(q, renamedFrom, existing);
      return if existing.Some? && existing.value.sock == q.sock then Registered(false, None)
             else Registered(restored, renamedFrom);
    }

    /** Every rejection has been passed. */
    method Admit(q: Request, renamedFrom: Option<string>, existing: Option<Agent>) returns (restored: bool)
      requires renamedFrom == Held(agents, agents.order, q.sock, q.name) && existing == agents.Get(q.name)
      modifies this
      ensures Abs() == Admitted(c, old(Abs()), q)
      ensures (existing.Some? ==> existing.value.sock != q.sock) ==> restored == (q.name in old(disconnected).at)
    {
      hide IsValid, Parse, Held, Touched, Forgotten, Closed, Welcomed, Opened, TeamsFor;
      ghost var s := Abs();
      var teams := TeamsOf(q, renamedFrom, existing);
      TouchSeenName(q.name);
      if renamedFrom.Some? {
        Forget(renamedFrom.value);
      }
      if existing.Some? && existing.value.sock == q.sock {
        agents := agents.Set(q.name, Refreshed(existing.value, q));
        return false;
      }
      if existing.Some? {
        agents := agents.Delete(q.name);
        CloseInterval(q.name);
      }
      restored := Welcome(q.name);
      agents := agents.Set(q.name, Agent(Parse(q.name), q.sock, teams, q.channelCapable, q.ccPid, q.cwd));
      OpenInterval(q.name);
    }

    method TeamsOf(q: Request, renamedFrom: Option<string>, existing: Option<Agent>) returns (teams: set<string>)
      requires renamedFrom == Held(agents, agents.order, q.sock, q.name) && existing == agents.Get(q.name)
      ensures teams == TeamsFor(Abs(), q)
    {
      hide Held;
      var inherited: Option<set<string>> := None;
      if renamedFrom.Some? && renamedFrom.value in agents.at {
        inherited := Some(agents.at[renamedFrom.value].teams);
      }
      if inherited.None? && existing.Some? {
        inherited := Some(existing.value.teams);
      }
      if inherited.Some? {
        return inherited.value;
      }
      return if q.name in disconnected.at then disconnected.at[q.name].teams else {};
    }

    method Forget(name: string)
      modifies `agents, `seenNames, `onlineIntervals
      ensures Abs() == Forgotten(old(Abs()), name)
    {
      agents := agents.Delete(name);
      seenNames := Without(seenNames, name);
      onlineIntervals := onlineIntervals - {name};
    }

    method Welcome(name: string) returns (restored: bool)
      modifies `disconnected, `timers
      ensures Abs() == Welcomed(old(Abs()), name) && restored == (name in old(disconnected).at)
    {
      var gone := disconnected.Get(name);
      if gone.Some? {
        timers := timers.Disarm(gone.value.timer);
        disconnected := disconnected.Delete(name);
      }
      return gone.Some?;
    }

    method FindHeld(sock: nat, name: string) returns (r: Option<string>)
      ensures r == Held(agents, agents.order, sock, name)
    {
      r := None;
      for i := 0 to |agents.order|
        invariant r == Held(agents, agents.order[..i], sock, name)
      {
        assert agents.order[..i + 1][..i] == agents.order[..i];
        var x := agents.order[i];
        if r.None? && x in agents.at && agents.at[x].sock == sock && x != name {
          r := Some(x);
        }
      }
      assert agents.order[..|agents.order|] == agents.order;
    }

    method Unregister(fullName: string, sock: Option<nat>, now: int)
      requires Valid()
      modifies this
      ensures Valid() && Abs() == Left(c, old(Abs()), fullName, sock, now)
    {
      LeftKeeps(c, Abs(), fullName, sock, now);
      hide Inv;
      if fullName !in agents.at || (sock.Some? && agents.at[fullName].sock != sock.value) {
        return;
      }
      var teams := agents.at[fullName].teams;
      agents := agents.Delete(fullName);
      CloseInterval(fullName);
      if teams != {} {
        disconnected := disconnected.Set(fullName, Gone(teams, timers.next));
        timers := timers.Arm(fullName, now, c.disconnectTimeoutMs);
      }
    }

    /** A disconnect timer fires; the caller is told whom to take out of which teams. */
    method OnTimeout(t: nat) returns (gone: Option<(string, set<string>)>)
      requires Valid() && t in timers.armed
      modifies this
      ensures Valid() && Abs() == GivenUp(old(Abs()), t)
      ensures gone.Some? && gone.value.0 == old(timers).armed[t].owner
      ensures gone.value.0 in old(disconnected).at && gone.value.1 == old(disconnected).at[gone.value.0].teams
    {
      GivenUpKeeps(Abs(), t);
      OwnerIsGone(disconnected.at, timers, t);
      hide Inv;
      var name := timers.armed[t].owner;
      var teams := disconnected.at[name].teams;
      timers := timers.Disarm(t);
      disconnected := disconnected.Delete(name);
      return Some((name, teams));
    }

    method FindByHostPid(host: string, ccPid: int) returns (r: Option<string>)
      ensures r == if host == "" then None else HostPidMatches(agents, agents.order, host, ccPid)
    {
      r := None;
      if host == "" {
        return;
      }
      for i := 0 to |agents.order|
        invariant r == HostPidMatches(agents, agents.order[..i], host, ccPid)
      {
        assert agents.order[..i + 1][..i] == agents.order[..i];
        var x := agents.order[i];
        if r.None? && x in agents.at && agents.at[x].parts.host == host && agents.at[x].ccPid == Some(ccPid) {
          r := Some(x);
        }
      }
      assert agents.order[..|agents.order|] == agents.order;
    }

    /** Gives the entry that went, for its socket is to be closed. */
    method UnregisterByHostPid(host: string, ccPid: int, now: int) returns (r: Option<Agent>)
      requires Valid()
      modifies this
      ensures Valid() && Abs() == Orphaned(c, old(Abs()), host, ccPid, now)
      ensures
        var found := if host == "" then None else HostPidMatches(old(agents), old(agents).order, host, ccPid);
        && (r.Some? <==> found.Some?)
        && (found.Some? ==> found.value in old(agents).at && r.value == old(agents).at[found.value])
    {
      var name := FindByHostPid(host, ccPid);
      if name.None? {
        return None;
      }
      HostPidIs(agents, agents.order, host, ccPid);
      r := Some(agents.at[name.value]);
      Unregister(name.value, None, now);
    }

    /**
     * A full name is looked up; a two-part address filters the entries; a plain word is looked for in one
     * pass that sorts the entries by what they match.
     */
    method Resolve(query: string) returns (r: Found)
      requires Valid()
      ensures r == Resolved(Abs(), query)
    {
      if ':' in query && '@' in query {
        return if query in agents.at then Online(query) else NotOnline;
      }
      if ':' in query {
        var (session, user) := FirstTwo(query, ':');
        var matches := FilterAgents(BySessionUser(session, user));
        return ResolveMatches(matches);
      }
      if '@' in query {
        var (user, host) := FirstTwo(query, '@');
        var matches := FilterAgents(ByUserHost(user, host));
        return ResolveMatches(matches);
      }
      var bySession, byUser, byHost := OnePass(query);
      return ResolveMatches(if |bySession| > 0 then bySession else if |byUser| > 0 then byUser else byHost);
    }

    /** An entry that matches at a higher rank is not looked at for the lower ones. */
    method OnePass(word: string) returns (bySession: seq<string>, byUser: seq<string>, byHost: seq<string>)
      requires Valid()
      ensures bySession == Select(agents.order, BySession(word))
      ensures bySession == [] ==> byUser == Select(agents.order, ByUser(word))
      ensures bySession == [] && byUser == [] ==> byHost == Select(agents.order, ByHost(word))
    {
      hide NoDup, GoneOk, OneNameEach, Parse, IsValid;
      bySession, byUser, byHost := [], [], [];
      for i := 0 to |agents.order|
        invariant bySession == Select(agents.order[..i], BySession(word))
        invariant bySession == [] ==> byUser == Select(agents.order[..i], ByUser(word))
        invariant bySession == [] && byUser == [] ==> byHost == Select(agents.order[..i], ByHost(word))
      {
        SelectSnoc(agents.order, BySession(word), i);
        SelectSnoc(agents.order, ByUser(word), i);
        SelectSnoc(agents.order, ByHost(word), i);
        var x := agents.order[i];
        assert x in agents.order && AgentOk(x, agents.at[x]);
        var p := agents.at[x].parts;
        hide Select;
        if p.session == word {
          bySession := bySession + [x];
        } else if p.user == word {
          byUser := byUser + [x];
        } else if p.host == word {
          byHost := byHost + [x];
        }
      }
      assert agents.order[..|agents.order|] == agents.order;
    }

    method FilterAgents(criterion: Criterion) returns (result: seq<string>)
      requires Valid() && (criterion.BySessionUser? || criterion.ByUserHost?)
      ensures result == Select(agents.order, criterion)
    {
      hide NoDup, GoneOk, OneNameEach, Parse, IsValid;
      result := [];
      for i := 0 to |agents.order|
        invariant result == Select(agents.order[..i], criterion)
      {
        SelectSnoc(agents.order, criterion, i);
        var x := agents.order[i];
        assert x in agents.order && AgentOk(x, agents.at[x]);
        var p := agents.at[x].parts;
        if if criterion.BySessionUser? then p.session == criterion.session && p.user == criterion.user
           else p.user == criterion.user && p.host == criterion.host {
          result := result + [x];
        }
      }
      assert agents.order[..|agents.order|] == agents.order;
    }

    function ResolveMatches(matches: seq<string>): Found {
      if |matches| == 0 then NotOnline else if |matches| == 1 then Online(matches[0]) else Several(matches)
    }

    method ResolveSeenNameOrAmbiguous(query: string) returns (r: Found)
      ensures r == ResolvedSeen(Abs(), query)
    {
      var matches := MatchNames(query, seenNames);
      if |matches| == 1 {
        return Online(matches[0]);
      }
      if |matches| > 1 {
        if (':' in query) != ('@' in query) {
          var together := CheckConcurrent(matches);
          if !together {
            return Online(matches[|matches| - 1]);
          }
        }
        return Several(matches);
      }
      return NotOnline;
    }

    method CheckConcurrent(names: seq<string>) returns (r: bool)
      ensures r == EverConcurrent(Abs(), names)
    {
      hide Overlap;
      var now := intervalSeq + 1;
      for i := 0 to |names|
        invariant forall k, l :: 0 <= k < i && k < l < |names| ==>
                    !Overlap(IntervalsOf(Abs(), names[k]), IntervalsOf(Abs(), names[l]), now)
      {
        var a := if names[i] in onlineIntervals then onlineIntervals[names[i]] else [];
        for j := i + 1 to |names|
          invariant forall l :: i < l < j ==> !Overlap(a, IntervalsOf(Abs(), names[l]), now)
        {
          var b := if names[j] in onlineIntervals then onlineIntervals[names[j]] else [];
          var meet := IntervalsOverlap(a, b, now);
          if meet {
            return true;
          }
        }
      }
      return false;
    }

    method SetChannelCapable(fullName: string, capable: bool) returns (ok: bool)
      requires Valid()
      modifies `agents
      ensures Valid() && ok == (fullName in old(agents).at)
      ensures agents ==
              if ok then old(agents).Set(fullName, old(agents).at[fullName].(channelCapable := capable))
              else old(agents)
    {
      if fullName !in agents.at {
        return false;
      }
      var a := agents.at[fullName].(channelCapable := capable);
      AddedKeeps(Abs(), fullName, a);
      agents := agents.Set(fullName, a);
      return true;
    }
  }

  method IntervalsOverlap(a: seq<Interval>, b: seq<Interval>, now: nat) returns (r: bool)
    ensures r == Overlap(a, b, now)
  {
    for i := 0 to |a|
      invariant forall k, l :: 0 <= k < i && 0 <= l < |b| ==> !Meet(a[k], b[l], now)
    {
      for j := 0 to |b|
        invariant forall l :: 0 <= l < j ==> !Meet(a[i], b[l], now)
      {
        if Meet(a[i], b[j], now) {
          return true;
        }
      }
    }
    return false;
  }
}
