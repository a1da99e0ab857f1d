/**
 * What the registry does (src/hub/registry.ts), told by its entries before and after a step of any run: who may take a
 * name, with what he comes online, how he goes, and how long the registry waits for him.
 */
module RegistryRules {
  import opened Options
  import opened JsMap
  import opened Names
  import opened Timers
  import opened Registry
  import opened RegistryHistory

  lemma {:induction false} OneMoreStep(c: Config, inputs: seq<Input>, i: Input)
    ensures Run(c, inputs + [i]) == Step(c, Run(c, inputs), i) && Inv(Run(c, inputs))
  {
    RunKeeps(c, inputs);
    assert (inputs + [i])[..|inputs + [i]| - 1] == inputs;
  }

  // ----- Coming online -----

  /** A request is accepted exactly if its name is valid and not held by another process; else nothing changes. */
  lemma {:induction false} AcceptedIff(c: Config, inputs: seq<Input>, q: Request)
    ensures
      var s, t := Run(c, inputs), Run(c, inputs + [Enter(q)]);
      if IsValid(q.name) && !Collides(s.agents.at, q) then q.name in t.agents.at && t.agents.at[q.name].sock == q.sock
      else t == s && !(q.name in t.agents.at && t.agents.at[q.name].sock == q.sock)
  {
    OneMoreStep(c, inputs, Enter(q));
    hide Run, IsValid, Admitted, Inv;
    var s := Run(c, inputs);
    VerdictIs(s, q);
    InvalidIsOffline(s, q.name);
    hide Verdict;
    if IsValid(q.name) && !Collides(s.agents.at, q) {
      AdmittedEntries(c, s, q);
    }
  }

  lemma InvalidIsOffline(s: State, name: string)
    requires Inv(s)
    ensures !IsValid(name) ==> name !in s.agents.at
  {
    hide IsValid, NoDup;
  }

  /**
   * The teams a request finds: those of the socket's old name, else of the entry it displaces or renews, else those
   * waited with.
   */
  ghost predicate FindsTeams(s: State, q: Request, teams: set<string>) {
    && (forall n :: Renamed(s.agents.at, q, n) ==> teams == s.agents.at[n].teams)
    && ((forall n :: !Renamed(s.agents.at, q, n)) ==>
          teams == if q.name in s.agents.at then s.agents.at[q.name].teams
                   else if q.name in s.disconnected.at then s.disconnected.at[q.name].teams else {})
  }

  /** What a request says goes into the entry; a renewed one keeps a process and a directory that are not said again. */
  predicate IsEntry(s: State, q: Request, a: Agent) {
    var renewed := q.name in s.agents.at && s.agents.at[q.name].sock == q.sock;
    && a.parts == Parse(q.name) && a.sock == q.sock && a.channelCapable == q.channelCapable
    && a.ccPid == (if renewed && q.ccPid.None? then s.agents.at[q.name].ccPid else q.ccPid)
    && a.cwd == (if renewed && q.cwd.None? then s.agents.at[q.name].cwd else q.cwd)
  }

  /** The entry of an accepted request, and everybody else's. */
  lemma {:induction false} ComesOnline(c: Config, inputs: seq<Input>, q: Request)
    requires IsValid(q.name) && !Collides(Run(c, inputs).agents.at, q)
    ensures
      var s, t := Run(c, inputs), Run(c, inputs + [Enter(q)]);
      && q.name in t.agents.at && IsEntry(s, q, t.agents.at[q.name]) && FindsTeams(s, q, t.agents.at[q.name].teams)
      && (forall n :: n != q.name ==> (n in t.agents.at <==> n in s.agents.at && !Renamed(s.agents.at, q, n)))
      && (forall n :: n != q.name && n in t.agents.at ==> t.agents.at[n] == s.agents.at[n])
      && t.disconnected.at == s.disconnected.at - {q.name}
  {
    OneMoreStep(c, inputs, Enter(q));
    hide Run, IsValid, Inv;
    var s := Run(c, inputs);
    VerdictIs(s, q);
    AdmittedEntries(c, s, q);
    TeamsFound(s, q);
    EntryIs(c, s, q);
    hide Admitted, Verdict, TeamsFor, Parse, FindsTeams;
  }

  lemma TeamsFound(s: State, q: Request)
    requires Inv(s)
    ensures FindsTeams(s, q, TeamsFor(s, q))
  {
    hide NoDup, GoneOk, AgentOk;
    HeldIs(s.agents, s.agents.order, q.sock, q.name);
    var mine := Held(s.agents, s.agents.order, q.sock, q.name);
    hide Held;
    assert mine.Some? ==> Renamed(s.agents.at, q, mine.value);
  }

  lemma EntryIs(c: Config, s: State, q: Request)
    requires Inv(s)
    ensures IsEntry(s, q, Admitted(c, s, q).agents.at[q.name])
  {
    hide NoDup, GoneOk, Parse, Touched, IsValid, TeamsFor, Held;
    if !Renewed(s, q) {
      NewEntry(c, s, q);
    }
  }

  /** A name passes from one socket to another only to the process that holds it. */
  lemma {:induction false} TakenOver(c: Config, inputs: seq<Input>, i: Input, n: string)
    requires
      var s, t := Run(c, inputs), Run(c, inputs + [i]);
      && n in s.agents.at && n in t.agents.at && t.agents.at[n].sock != s.agents.at[n].sock
    ensures
      var s, t := Run(c, inputs), Run(c, inputs + [i]);
      && i.Enter? && i.q.name == n && i.q.sock == t.agents.at[n].sock
      && i.q.ccPid.Some? && i.q.ccPid == s.agents.at[n].ccPid
  {
    OneMoreStep(c, inputs, i);
    hide Run, IsValid, Inv;
    var s := Run(c, inputs);
    match i
    case Enter(q) =>
      VerdictIs(s, q);
      hide Verdict, Admitted;
      if Verdict(s, q).Registered? {
        AdmittedEntries(c, s, q);
      }
    case Leave(name, sock, now) =>
      LeftEntries(c, s, name, sock, now);
    case Orphan(host, ccPid, now) =>
      var found := HostPidMatches(s.agents, s.agents.order, host, ccPid);
      if host != "" && found.Some? {
        LeftEntries(c, s, found.value, None, now);
      }
    case TimeOut(_) =>
    case Change(_, _, _) =>
  }

  // ----- Going offline -----

  predicate IsProcess(agents: Table<Agent>, n: string, host: string, ccPid: int) {
    n in agents.at && agents.at[n].parts.host == host && agents.at[n].ccPid == Some(ccPid)
  }

  /** The first of these names with this host and process. */
  ghost predicate IsFirst(agents: Table<Agent>, order: seq<string>, n: string, host: string, ccPid: int) {
    exists k :: 0 <= k < |order| && order[k] == n && IsProcess(agents, n, host, ccPid)
                && forall j :: 0 <= j < k ==> !IsProcess(agents, order[j], host, ccPid)
  }

  lemma FirstIsOne(agents: Table<Agent>, order: seq<string>, a: string, b: string, host: string, ccPid: int)
    requires IsFirst(agents, order, a, host, ccPid) && IsFirst(agents, order, b, host, ccPid)
    ensures a == b
  {
    hide IsProcess;
  }

  lemma FirstStays(agents: Table<Agent>, order: seq<string>, x: string, n: string, host: string, ccPid: int)
    requires IsFirst(agents, order, n, host, ccPid)
    ensures IsFirst(agents, order + [x], n, host, ccPid)
  {
    hide IsProcess;
    var k :| 0 <= k < |order| && order[k] == n && IsProcess(agents, n, host, ccPid)
             && forall j :: 0 <= j < k ==> !IsProcess(agents, order[j], host, ccPid);
    assert (order + [x])[k] == n;
  }

  lemma FirstAtEnd(agents: Table<Agent>, order: seq<string>, x: string, n: string, host: string, ccPid: int)
    requires forall j :: 0 <= j < |order| ==> !IsProcess(agents, order[j], host, ccPid)
    ensures IsFirst(agents, order + [x], n, host, ccPid) <==> n == x && IsProcess(agents, x, host, ccPid)
  {
    hide IsProcess;
    var all := order + [x];
    assert all[|order|] == x && forall j :: 0 <= j < |order| ==> all[j] == order[j];
  }

  lemma {:induction false} FirstIs(agents: Table<Agent>, order: seq<string>, n: string, host: string, ccPid: int)
    ensures HostPidMatches(agents, order, host, ccPid) == Some(n) <==> IsFirst(agents, order, n, host, ccPid)
  {
    if order != [] {
      var p, x := order[..|order| - 1], order[|order| - 1];
      var before := HostPidMatches(agents, p, host, ccPid);
      assert order == p + [x];
      if before.Some? {
        FirstIs(agents, p, before.value, host, ccPid);
        FirstStays(agents, p, x, before.value, host, ccPid);
        if IsFirst(agents, order, n, host, ccPid) {
          FirstIsOne(agents, order, n, before.value, host, ccPid);
        }
      } else {
        HostPidIs(agents, p, host, ccPid);
        assert forall j :: 0 <= j < |p| ==> p[j] in p;
        FirstAtEnd(agents, p, x, n, host, ccPid);
      }
    }
  }

  /** Exactly the steps that take a name offline. */
  ghost predicate TakesOff(s: State, i: Input, n: string)
    requires n in s.agents.at
  {
    match i
    case Enter(q) => IsValid(q.name) && !Collides(s.agents.at, q) && Renamed(s.agents.at, q, n)
    case Leave(name, sock, _) => name == n && (sock.Some? ==> sock.value == s.agents.at[n].sock)
    case Orphan(host, ccPid, _) => host != "" && IsFirst(s.agents, s.agents.order, n, host, ccPid)
    case _ => false
  }

  lemma {:induction false} OfflineIff(c: Config, inputs: seq<Input>, i: Input, n: string)
    requires n in Run(c, inputs).agents.at
    ensures n !in Run(c, inputs + [i]).agents.at <==> TakesOff(Run(c, inputs), i, n)
  {
    OneMoreStep(c, inputs, i);
    var s := Run(c, inputs);
    match i
    case Enter(q) =>
      AcceptedIff(c, inputs, q);
      if IsValid(q.name) && !Collides(s.agents.at, q) {
        ComesOnline(c, inputs, q);
      }
      hide Run, Step, IsValid, Inv, FindsTeams, IsEntry;
    case Leave(name, sock, now) =>
      hide Run, Inv, Left;
      LeftEntries(c, s, name, sock, now);
    case Orphan(host, ccPid, now) =>
      hide Run, Inv, Left, IsFirst, HostPidMatches;
      FirstIs(s.agents, s.agents.order, n, host, ccPid);
      var found := HostPidMatches(s.agents, s.agents.order, host, ccPid);
      if found.Some? {
        LeftEntries(c, s, found.value, None, now);
      }
    case TimeOut(_) => hide Run, Inv;
    case Change(_, _, _) => hide Run, Inv;
  }

  // ----- Being waited for -----

  function DueAfter(now: int, delay: int): int {
    now + if delay > 0 then delay else 0
  }

  /** Someone who goes offline is waited for exactly if he was in a team, with his teams, until the timeout is over. */
  lemma {:induction false} WaitedFor(c: Config, inputs: seq<Input>, i: Input, n: string)
    requires n in Run(c, inputs).agents.at && TakesOff(Run(c, inputs), i, n) && !i.Enter?
    ensures
      var s, t := Run(c, inputs), Run(c, inputs + [i]);
      && (n in t.disconnected.at <==> s.agents.at[n].teams != {})
      && (n in t.disconnected.at ==>
            && t.disconnected.at[n].teams == s.agents.at[n].teams
            && t.disconnected.at[n].timer in t.timers.armed
            && t.timers.armed[t.disconnected.at[n].timer] == Timer(n, DueAfter(i.now, c.disconnectTimeoutMs)))
  {
    OneMoreStep(c, inputs, i);
    var s := Run(c, inputs);
    DisconnectedIsOffline(s, n);
    if i.Leave? {
      hide Run, Inv, Left;
      LeftIs(c, s, n, i.sock, i.now);
    } else {
      hide Run, Inv, Left, IsFirst, HostPidMatches;
      FirstIs(s.agents, s.agents.order, n, i.host, i.ccPid);
      LeftIs(c, s, n, None, i.now);
    }
  }

  lemma DisconnectedIsOffline(s: State, n: string)
    requires Inv(s)
    ensures n in s.agents.at ==> n !in s.disconnected.at
  {
  }

  lemma LeftIs(c: Config, s: State, n: string, sock: Option<nat>, now: int)
    requires n in s.agents.at && (sock.Some? ==> sock.value == s.agents.at[n].sock)
    ensures
      var t, teams := Left(c, s, n, sock, now), s.agents.at[n].teams;
      && t.disconnected.at == (if teams == {} then s.disconnected.at
                               else s.disconnected.at[n := Gone(teams, s.timers.next)])
      && t.timers.armed == (if teams == {} then s.timers.armed
                            else s.timers.armed[s.timers.next := Timer(n, DueAfter(now, c.disconnectTimeoutMs))])
  {
    LeftEntries(c, s, n, sock, now);
    hide Without, Ended;
  }

  /** The waiting ends when its own timer fires, or he comes back; until then nothing about it changes. */
  lemma {:induction false} StopsWaiting(c: Config, inputs: seq<Input>, i: Input, n: string)
    requires n in Run(c, inputs).disconnected.at
    ensures
      var s, t := Run(c, inputs), Run(c, inputs + [i]);
      var timer := s.disconnected.at[n].timer;
      if (i.TimeOut? && i.timer == timer) || (i.Enter? && i.q.name == n && IsValid(n)) then
        n !in t.disconnected.at && timer !in t.timers.armed
      else
        && n in t.disconnected.at && t.disconnected.at[n] == s.disconnected.at[n]
        && timer in s.timers.armed && timer in t.timers.armed && t.timers.armed[timer] == s.timers.armed[timer]
  {
    OneMoreStep(c, inputs, i);
    var s := Run(c, inputs);
    hide Run, IsValid;
    match i
    case Enter(q) => EnteredWaits(c, s, q, n);
    case Leave(name, sock, now) => LeftWaits(c, s, name, sock, now, n);
    case Orphan(host, ccPid, now) =>
      hide Inv;
      var found := HostPidMatches(s.agents, s.agents.order, host, ccPid);
      if host != "" && found.Some? {
        LeftWaits(c, s, found.value, None, now, n);
      } else {
        WaitingTimer(s, n);
      }
    case TimeOut(t) => hide NoDup, AgentOk, Without;
    case Change(_, _, _) => hide NoDup, AgentOk, Without;
  }

  lemma WaitingTimer(s: State, n: string)
    requires Inv(s) && n in s.disconnected.at
    ensures s.disconnected.at[n].timer in s.timers.armed && s.disconnected.at[n].timer < s.timers.next
    ensures s.timers.armed[s.disconnected.at[n].timer].owner == n && n !in s.agents.at
  {
    hide NoDup, AgentOk;
  }

  lemma LeftWaits(c: Config, s: State, name: string, sock: Option<nat>, now: int, n: string)
    requires Inv(s) && n in s.disconnected.at
    ensures
      var t, timer := Left(c, s, name, sock, now), s.disconnected.at[n].timer;
      && n in t.disconnected.at && t.disconnected.at[n] == s.disconnected.at[n]
      && timer in s.timers.armed && timer in t.timers.armed && t.timers.armed[timer] == s.timers.armed[timer]
  {
    WaitingTimer(s, n);
    hide Inv;
    if name in s.agents.at && (sock.Some? ==> sock.value == s.agents.at[name].sock) {
      LeftIs(c, s, name, sock, now);
    }
  }

  lemma EnteredWaits(c: Config, s: State, q: Request, n: string)
    requires Inv(s) && n in s.disconnected.at
    ensures
      var t, timer := Step(c, s, Enter(q)), s.disconnected.at[n].timer;
      if q.name == n && IsValid(n) then n !in t.disconnected.at && timer !in t.timers.armed
      else
        && n in t.disconnected.at && t.disconnected.at[n] == s.disconnected.at[n]
        && timer in s.timers.armed && timer in t.timers.armed && t.timers.armed[timer] == s.timers.armed[timer]
  {
    hide Verdict, IsValid, NoDup, AgentOk, OneNameEach, GoneOk, Admitted;
    WaitingTimer(s, n);
    VerdictIs(s, q);
    if Verdict(s, q).Registered? {
      AdmittedEntries(c, s, q);
      AdmittedTimers(c, s, q);
      if q.name != n && q.name in s.disconnected.at {
        TwoTimers(s, q.name, n);
      }
    }
  }

  lemma TwoTimers(s: State, a: string, b: string)
    requires Inv(s) && a in s.disconnected.at && b in s.disconnected.at && a != b
    ensures s.disconnected.at[a].timer != s.disconnected.at[b].timer
  {
    hide NoDup, AgentOk;
  }

  lemma AdmittedTimers(c: Config, s: State, q: Request)
    requires NoDup(s.seen)
    ensures Admitted(c, s, q).timers.armed ==
            if q.name in s.disconnected.at && !Renewed(s, q) then s.timers.armed - {s.disconnected.at[q.name].timer}
            else s.timers.armed
  {
    hide NoDup, Parse, Touched, Without, Held, TeamsFor, IntervalsOf, Ended, OneMore;
    TouchedKeeps(c.seenCapacity, s, q.name);
  }

  /** At this step of the run the name went offline, and he is waited for from then on. */
  ghost predicate LeftWith(c: Config, inputs: seq<Input>, k: nat, n: string, g: Gone, t: Timer<string>)
    requires k < |inputs|
  {
    var s, i := Run(c, inputs[..k]), inputs[k];
    && n in s.agents.at && TakesOff(s, i, n) && !i.Enter?
    && g.teams == s.agents.at[n].teams && t == Timer(n, DueAfter(i.now, c.disconnectTimeoutMs))
  }

  /** In every run whoever is waited for has gone offline in some step, and will be given up one timeout after that. */
  lemma {:induction false} WaitingSince(c: Config, inputs: seq<Input>, n: string)
    requires n in Run(c, inputs).disconnected.at
    ensures
      var s := Run(c, inputs);
      var g := s.disconnected.at[n];
      && g.timer in s.timers.armed
      && exists k :: 0 <= k < |inputs| && LeftWith(c, inputs, k, n, g, s.timers.armed[g.timer])
  {
    var m := |inputs| - 1;
    var before, i := inputs[..m], inputs[m];
    assert inputs == before + [i];
    hide TakesOff, Step;
    if n in Run(c, before).disconnected.at {
      StopsWaiting(c, before, i, n);
      WaitingSince(c, before, n);
      var s := Run(c, before);
      var g := s.disconnected.at[n];
      hide Run;
      var k :| 0 <= k < |before| && LeftWith(c, before, k, n, g, s.timers.armed[g.timer]);
      assert inputs[..k] == before[..k] && inputs[k] == before[k];
      assert LeftWith(c, inputs, k, n, g, s.timers.armed[g.timer]);
    } else {
      BeginsWaiting(c, before, i, n);
      WaitedFor(c, before, i, n);
      var t := Run(c, inputs);
      hide Run;
      assert LeftWith(c, inputs, m, n, t.disconnected.at[n], t.timers.armed[t.disconnected.at[n].timer]);
    }
  }

  lemma {:induction false} BeginsWaiting(c: Config, inputs: seq<Input>, i: Input, n: string)
    requires n !in Run(c, inputs).disconnected.at && n in Run(c, inputs + [i]).disconnected.at
    ensures n in Run(c, inputs).agents.at && TakesOff(Run(c, inputs), i, n) && !i.Enter?
  {
    OneMoreStep(c, inputs, i);
    var s := Run(c, inputs);
    hide Run, IsValid;
    match i
    case Enter(q) =>
      if Verdict(s, q).Registered? {
        hide Verdict;
        AdmittedEntries(c, s, q);
      }
    case Leave(name, sock, now) =>
      hide Inv, Left;
      LeftEntries(c, s, name, sock, now);
    case Orphan(host, ccPid, now) =>
      hide Inv, Left, IsFirst, HostPidMatches;
      FirstIs(s.agents, s.agents.order, n, host, ccPid);
      var found := HostPidMatches(s.agents, s.agents.order, host, ccPid);
      if found.Some? {
        LeftEntries(c, s, found.value, None, now);
      }
    case TimeOut(_) => hide Inv;
    case Change(_, _, _) => hide Inv;
  }

  // ----- Lookups -----

  /** The address means this one of the names, and no other. */
  ghost predicate MeansOnly(query: string, names: seq<string>, n: string) {
    IsAddressed(query, names, n) && forall m :: IsAddressed(query, names, m) ==> m == n
  }

  lemma {:induction false} SelectNoDup(names: seq<string>, criterion: Criterion)
    requires NoDup(names)
    ensures NoDup(Select(names, criterion))
  {
    hide Meets;
    if names != [] {
      var p := names[..|names| - 1];
      SelectNoDup(p, criterion);
      SelectMembers(p, criterion);
      assert names[|names| - 1] !in p;
    }
  }

  lemma {:induction false} MatchesNoDup(query: string, names: seq<string>)
    requires NoDup(names)
    ensures NoDup(MatchNames(query, names))
  {
    hide Select, FirstTwo;
    if ':' in query && '@' in query {
    } else if ':' in query {
      SelectNoDup(names, BySessionUser(FirstTwo(query, ':').0, FirstTwo(query, ':').1));
    } else if '@' in query {
      SelectNoDup(names, ByUserHost(FirstTwo(query, '@').0, FirstTwo(query, '@').1));
    } else {
      SelectNoDup(names, BySession(query));
      SelectNoDup(names, ByUser(query));
      SelectNoDup(names, ByHost(query));
    }
  }

  /** How many names an address matches: none, this one only, or several. */
  lemma {:induction false} MatchesAre(query: string, names: seq<string>, n: string)
    requires NoDup(names)
    ensures MatchNames(query, names) == [n] <==> MeansOnly(query, names, n)
    ensures MatchNames(query, names) == [] <==> forall m :: !IsAddressed(query, names, m)
  {
    MatchesNoDup(query, names);
    forall m
      ensures m in MatchNames(query, names) <==> IsAddressed(query, names, m)
    {
      MatchedIff(query, names, m);
    }
    var l := MatchNames(query, names);
    hide MatchNames, IsAddressed;
    if l != [] {
      assert l[0] in l;
    }
    if |l| >= 2 {
      assert l[1] in l && l[0] != l[1];
    }
  }

  /**
   * In every run a live lookup finds exactly the one online name that the address means, finds nobody if it means none,
   * and reports several otherwise.
   */
  lemma {:induction false} LiveLookup(c: Config, inputs: seq<Input>, query: string, n: string)
    ensures
      var s := Run(c, inputs);
      && (Resolved(s, query) == Online(n) <==> MeansOnly(query, s.agents.order, n))
      && (Resolved(s, query) == NotOnline <==> forall m :: !IsAddressed(query, s.agents.order, m))
      && forall m :: m in s.agents.order <==> m in s.agents.at
  {
    RunKeeps(c, inputs);
    hide Run;
    var s := Run(c, inputs);
    OnlineNoDup(s);
    MatchesAre(query, s.agents.order, n);
    hide MatchNames, MeansOnly, Inv, IsAddressed, NoDup;
  }

  lemma OnlineNoDup(s: State)
    requires Inv(s)
    ensures NoDup(s.agents.order) && NoDup(s.seen) && forall m :: m in s.agents.order <==> m in s.agents.at
  {
  }

  /** The same for the names seen, unless the address has just two parts and means several of them. */
  lemma {:induction false} SeenLookup(c: Config, inputs: seq<Input>, query: string, n: string)
    ensures
      var s := Run(c, inputs);
      && (MeansOnly(query, s.seen, n) ==> ResolvedSeen(s, query) == Online(n))
      && (ResolvedSeen(s, query) == NotOnline <==> forall m :: !IsAddressed(query, s.seen, m))
      && ((':' in query <==> '@' in query) ==> (ResolvedSeen(s, query) == Online(n) <==> MeansOnly(query, s.seen, n)))
  {
    RunKeeps(c, inputs);
    hide Run;
    var s := Run(c, inputs);
    OnlineNoDup(s);
    MatchesAre(query, s.seen, n);
    hide MatchNames, MeansOnly, Inv, IsAddressed, NoDup, EverConcurrent;
  }
}
