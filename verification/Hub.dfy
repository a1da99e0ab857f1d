/**
 * The hub's sockets (src/hub/ws-plugin.ts, index.ts, ws-host.ts): registry, teams and mailbox must keep agreeing.
 */
module Hub {
  import opened Options
  import opened JsMap
  import N = Names
  import R = Registry
  import T = Teams
  import M = Mailbox
  import P = Router

  datatype Config = Config(reg: R.Config, capacity: int)

  /** `owners` says under which name each socket registered last; `known` are all names ever registered. */
  datatype State = State(reg: R.State, teams: T.Roster, slots: M.Slots, owners: map<nat, string>, known: set<string>)

  const INITIAL := State(R.INITIAL, map[], Empty(), map[], {})

  /**
   * `completes` is false when sending to the new socket fails after the registry has accepted it: then the
   * mailbox and the teams are not told about a rename. `ok` are those whose sockets take a frame.
   */
  datatype Input =
    | Register(q: R.Request, completes: bool)
    | JoinTeam(sock: nat, team: string)
    | LeaveTeam(sock: nat, team: string)
    | SetChannel(sock: nat, capable: bool)
    | Close(sock: nat, now: int)
    | Timeout(timer: nat, now: int)
    | Orphan(host: string, ccPid: int, now: int)
    | Send(m: P.Message, to: string, ok: set<string>)
    | SendTeam(m: P.Message, team: string, ok: set<string>)
    | Notify(m: P.Message, to: string, ok: set<string>)
    | ReadMailbox(sock: nat, now: int)

  // ----- The steps -----

  function Registered(c: Config, s: State, q: R.Request, completes: bool): State {
    var v := R.Verdict(s.reg, q);
    if !v.Registered? then s
    else
      var s := s.(reg := R.Admitted(c.reg, s.reg, q), owners := s.owners[q.sock := q.name],
                  known := s.known + {q.name});
      if v.renamedFrom.Some? && completes then
        s.(slots := M.Rekeyed(s.slots, v.renamedFrom.value, q.name),
           teams := T.Renamed(s.teams, v.renamedFrom.value, q.name))
      else s
  }

  /** The entry of an online agent gets another set of teams. */
  function Retitled(reg: R.State, name: string, teams: set<string>): R.State {
    if name in reg.agents.at then reg.(agents := reg.agents.Set(name, reg.agents.at[name].(teams := teams))) else reg
  }

  function EntryTeams(reg: R.State, name: string): set<string> {
    if name in reg.agents.at then reg.agents.at[name].teams else {}
  }

  function Joining(s: State, sock: nat, team: string): State {
    if sock !in s.owners then s
    else
      var name := s.owners[sock];
      s.(teams := T.Joined(s.teams, team, name), reg := Retitled(s.reg, name, EntryTeams(s.reg, name) + {team}))
  }

  function Leaving(s: State, sock: nat, team: string): State {
    if sock !in s.owners then s
    else
      var name := s.owners[sock];
      s.(teams := T.Left(s.teams, team, name), reg := Retitled(s.reg, name, EntryTeams(s.reg, name) - {team}))
  }

  function Rechanneled(s: State, sock: nat, capable: bool): State {
    if sock !in s.owners || s.owners[sock] !in s.reg.agents.at then s
    else
      var name := s.owners[sock];
      s.(reg := s.reg.(agents := s.reg.agents.Set(name, s.reg.agents.at[name].(channelCapable := capable))))
  }

  /** A close of a socket whose name is now another's changes nothing but the socket's own record. */
  function Closed(c: Config, s: State, sock: nat, now: int): State {
    if sock !in s.owners then s
    else
      var name := s.owners[sock];
      var t := s.(owners := s.owners - {sock});
      if name in s.reg.agents.at && s.reg.agents.at[name].sock != sock then t
      else t.(reg := R.Left(c.reg, s.reg, name, Some(sock), now))
  }

  /** Someone did not come back in time. */
  function TimedOut(s: State, t: nat, now: int): State {
    if !s.reg.timers.CanFire(t, now) then s
    else
      var name := s.reg.timers.armed[t].owner;
      var teams := if name in s.reg.disconnected.at then s.reg.disconnected.at[name].teams else {};
      s.(teams := T.LeftAll(s.teams, teams, name), reg := R.GivenUp(s.reg, t))
  }

  ghost function DirectPosted(capacity: int, slots: M.Slots, reg: R.State, ok: set<string>, m: P.Message,
                              to: string): M.Slots {
    match P.Addressee(reg, to)
    case Online(name) => P.Posted(capacity, slots, m, name, P.FateOf(reg, ok, name))
    case _ => slots
  }

  ghost function Step(c: Config, s: State, i: Input): State {
    match i
    case Register(q, completes) => Registered(c, s, q, completes)
    case JoinTeam(sock, team) => Joining(s, sock, team)
    case LeaveTeam(sock, team) => Leaving(s, sock, team)
    case SetChannel(sock, capable) => Rechanneled(s, sock, capable)
    case Close(sock, now) => Closed(c, s, sock, now)
    case Timeout(t, now) => TimedOut(s, t, now)
    case Orphan(host, ccPid, now) => s.(reg := R.Orphaned(c.reg, s.reg, host, ccPid, now))
    case Send(m, to, ok) => s.(slots := DirectPosted(c.capacity, s.slots, s.reg, ok, m, to))
    case SendTeam(m, team, ok) =>
      s.(slots := P.TeamPosted(c.capacity, s.slots, s.reg, ok, m, T.MembersOf(s.teams, team)))
    case Notify(m, to, ok) => s.(slots := P.Noticed(c.capacity, s.slots, s.reg, ok, m, to))
    case ReadMailbox(sock, now) =>
      if sock in s.owners then s.(slots := M.MarkedRead(s.slots, s.owners[sock], now)) else s
  }

  ghost function Run(c: Config, inputs: seq<Input>): State {
    if inputs == [] then INITIAL else Step(c, Run(c, inputs[..|inputs| - 1]), inputs[|inputs| - 1])
  }

  // ----- What every run keeps -----

  /** Whoever is online owns the socket he is online with. */
  ghost predicate OwnersOk(reg: R.State, owners: map<nat, string>) {
    forall n :: n in reg.agents.at ==> reg.agents.at[n].sock in owners && owners[reg.agents.at[n].sock] == n
  }

  /** Every name that occurs anywhere was registered once, and is a proper name. */
  ghost predicate KnownOk(s: State) {
    && (forall n :: n in s.known ==> N.IsValid(n))
    && s.reg.agents.at.Keys <= s.known && (forall n :: n in s.reg.seen ==> n in s.known)
    && (forall k :: k in s.owners ==> s.owners[k] in s.known)
    && s.slots.at.Keys <= s.known
    && forall t, n :: T.IsMember(s.teams, t, n) ==> n in s.known
  }

  ghost predicate Inv(c: Config, s: State) {
    && R.Inv(s.reg) && T.Inv(s.teams) && M.Inv(c.capacity, s.slots)
    && OwnersOk(s.reg, s.owners) && KnownOk(s)
  }

  lemma KnownMembers(s: State, t: State)
    requires KnownOk(s) && s.known <= t.known && (forall n :: n in t.known ==> N.IsValid(n))
    requires t.reg.agents.at.Keys <= t.known && (forall n :: n in t.reg.seen ==> n in t.known)
    requires (forall k :: k in t.owners ==> t.owners[k] in t.known) && t.slots.at.Keys <= t.known
    requires forall x, n :: T.IsMember(t.teams, x, n) ==> T.IsMember(s.teams, x, n) || n in t.known
    ensures KnownOk(t)
  {
    hide N.IsValid;
  }

  lemma RekeyedKeys(slots: M.Slots, oldName: string, newName: string)
    ensures M.Rekeyed(slots, oldName, newName).at.Keys <= slots.at.Keys + {newName}
  {
  }

  lemma {:induction false} RegisteredKeeps(c: Config, s: State, q: R.Request, completes: bool)
    requires Inv(c, s)
    ensures Inv(c, Registered(c, s, q, completes))
  {
    var v := R.Verdict(s.reg, q);
    if v.Registered? {
      hide R.Inv, R.Admitted, R.Verdict, N.IsValid, M.Inv, M.Rekeyed, T.Inv, T.Renamed, R.TeamsFor;
      R.AdmittedKeeps(c.reg, s.reg, q);
      R.AdmittedEntries(c.reg, s.reg, q);
      R.AdmittedSeen(c.reg, s.reg, q);
      var t := Registered(c, s, q, completes);
      if v.renamedFrom.Some? {
        M.RekeyedKeeps(c.capacity, s.slots, v.renamedFrom.value, q.name);
        RekeyedKeys(s.slots, v.renamedFrom.value, q.name);
        T.RenamedMembers(s.teams, v.renamedFrom.value, q.name);
      }
      hide T.IsMember;
      KnownMembers(s, t);
      hide KnownOk;
      RegisteredOwners(s.reg, t.reg, s.owners, q, v.renamedFrom);
    }
  }

  lemma RegisteredOwners(reg: R.State, t: R.State, owners: map<nat, string>, q: R.Request, renamedFrom: Option<string>)
    requires OwnersOk(reg, owners)
    requires t.agents.at.Keys == reg.agents.at.Keys - (if renamedFrom.Some? then {renamedFrom.value} else {}) + {q.name}
    requires forall n :: n in t.agents.at && n != q.name ==> t.agents.at[n] == reg.agents.at[n]
    requires t.agents.at[q.name].sock == q.sock
    requires renamedFrom.Some? ==> renamedFrom.value in reg.agents.at && reg.agents.at[renamedFrom.value].sock == q.sock
    requires renamedFrom.None? ==> forall n :: n in reg.agents.at && reg.agents.at[n].sock == q.sock ==> n == q.name
    ensures OwnersOk(t, owners[q.sock := q.name])
  {
  }

  lemma RetitledKeeps(reg: R.State, name: string, teams: set<string>)
    requires R.Inv(reg)
    ensures R.Inv(Retitled(reg, name, teams))
  {
    if name in reg.agents.at {
      hide R.Inv, R.AgentOk;
      SameSockets(reg, name, reg.agents.at[name].(teams := teams));
    }
  }

  /** An online agent's entry changes, but not its socket. */
  lemma SameSockets(reg: R.State, name: string, a: R.Agent)
    requires R.Inv(reg) && name in reg.agents.at
    requires a.sock == reg.agents.at[name].sock && a.parts == reg.agents.at[name].parts
    ensures R.Inv(reg.(agents := reg.agents.Set(name, a)))
  {
    R.AddedKeeps(reg, name, a);
  }

  /** Nobody comes online, and nobody changes sockets. */
  lemma OwnersSame(reg: R.State, t: R.State, owners: map<nat, string>)
    requires OwnersOk(reg, owners)
    requires forall n :: n in t.agents.at ==> n in reg.agents.at && t.agents.at[n].sock == reg.agents.at[n].sock
    ensures OwnersOk(t, owners)
  {
  }

  lemma {:induction false} JoiningKeeps(c: Config, s: State, sock: nat, team: string)
    requires Inv(c, s)
    ensures Inv(c, Joining(s, sock, team))
  {
    if sock in s.owners {
      hide R.Inv, N.IsValid, M.Inv, T.Inv, T.Joined, OwnersOk;
      var name := s.owners[sock];
      var t := Joining(s, sock, team);
      RetitledKeeps(s.reg, name, EntryTeams(s.reg, name) + {team});
      T.JoinedMembers(s.teams, team, name);
      hide T.IsMember;
      KnownMembers(s, t);
      hide KnownOk;
      OwnersSame(s.reg, t.reg, s.owners);
    }
  }

  lemma LeavingKeeps(c: Config, s: State, sock: nat, team: string)
    requires Inv(c, s)
    ensures Inv(c, Leaving(s, sock, team))
  {
    if sock in s.owners {
      hide R.Inv, N.IsValid, M.Inv, T.Inv, T.Left, OwnersOk;
      var name := s.owners[sock];
      var t := Leaving(s, sock, team);
      RetitledKeeps(s.reg, name, EntryTeams(s.reg, name) - {team});
      T.LeftMembers(s.teams, team, name);
      hide T.IsMember;
      KnownMembers(s, t);
      hide KnownOk;
      OwnersSame(s.reg, t.reg, s.owners);
    }
  }

  lemma {:induction false} RechanneledKeeps(c: Config, s: State, sock: nat, capable: bool)
    requires Inv(c, s)
    ensures Inv(c, Rechanneled(s, sock, capable))
  {
    if sock in s.owners && s.owners[sock] in s.reg.agents.at {
      hide R.Inv, N.IsValid, M.Inv, T.Inv, T.IsMember, OwnersOk;
      var name := s.owners[sock];
      var t := Rechanneled(s, sock, capable);
      SameSockets(s.reg, name, s.reg.agents.at[name].(channelCapable := capable));
      KnownMembers(s, t);
      hide KnownOk;
      OwnersSame(s.reg, t.reg, s.owners);
    }
  }

  lemma {:induction false} ClosedKeeps(c: Config, s: State, sock: nat, now: int)
    requires Inv(c, s)
    ensures Inv(c, Closed(c, s, sock, now))
  {
    if sock in s.owners {
      hide R.Inv, N.IsValid, M.Inv, T.Inv, T.IsMember, R.Left, OwnersOk;
      var name := s.owners[sock];
      var t := Closed(c, s, sock, now);
      R.LeftKeeps(c.reg, s.reg, name, Some(sock), now);
      R.LeftEntries(c.reg, s.reg, name, Some(sock), now);
      KnownMembers(s, t);
      hide KnownOk;
      OwnersLess(s.reg, t.reg, s.owners, sock);
    }
  }

  /** The socket that goes has nobody online any more. */
  lemma OwnersLess(reg: R.State, t: R.State, owners: map<nat, string>, sock: nat)
    requires OwnersOk(reg, owners) && sock in owners
    requires t.agents.at ==
             if owners[sock] in reg.agents.at && reg.agents.at[owners[sock]].sock == sock
             then reg.agents.at - {owners[sock]}
             else reg.agents.at
    ensures OwnersOk(t, owners - {sock})
  {
  }

  lemma {:induction false} OrphanKeeps(c: Config, s: State, host: string, ccPid: int, now: int)
    requires Inv(c, s)
    ensures Inv(c, s.(reg := R.Orphaned(c.reg, s.reg, host, ccPid, now)))
  {
    hide R.Inv, N.IsValid, M.Inv, T.Inv, T.IsMember, R.Left;
    var found := R.HostPidMatches(s.reg.agents, s.reg.agents.order, host, ccPid);
    if host != "" && found.Some? {
      R.LeftKeeps(c.reg, s.reg, found.value, None, now);
      R.LeftEntries(c.reg, s.reg, found.value, None, now);
      KnownMembers(s, s.(reg := R.Left(c.reg, s.reg, found.value, None, now)));
      hide KnownOk;
    }
  }

  lemma {:induction false} TimedOutKeeps(c: Config, s: State, t: nat, now: int)
    requires Inv(c, s)
    ensures Inv(c, TimedOut(s, t, now))
  {
    if s.reg.timers.CanFire(t, now) {
      hide R.Inv, N.IsValid, M.Inv, T.Inv, T.LeftAll;
      R.GivenUpKeeps(s.reg, t);
      var name := s.reg.timers.armed[t].owner;
      T.LeftAllMembers(s.teams, if name in s.reg.disconnected.at then s.reg.disconnected.at[name].teams else {}, name);
      hide T.IsMember;
      KnownMembers(s, TimedOut(s, t, now));
      hide KnownOk;
    }
  }

  // ----- Mail goes to known names only -----

  lemma PostedKeeps(c: Config, s: State, slots: M.Slots, e: M.Entry)
    requires M.Inv(c.capacity, slots) && slots.at.Keys <= s.known && e.to in s.known
    ensures M.Inv(c.capacity, M.Deposited(c.capacity, slots, e)) && M.Deposited(c.capacity, slots, e).at.Keys <= s.known
  {
    M.DepositedKeeps(c.capacity, slots, e);
    M.DepositOrder(c.capacity, slots, e);
    hide M.Deposited, M.Capped, Without, M.Inv;
  }

  lemma AddresseeKnown(c: Config, s: State, to: string)
    requires Inv(c, s) && P.Addressee(s.reg, to).Online?
    ensures P.Addressee(s.reg, to).name in s.known
  {
    hide R.Inv, N.IsValid, T.IsMember, NoDup;
    R.AgentsWf(s.reg);
    if R.Resolved(s.reg, to).Online? {
      P.LiveIsOnline(s.reg, to);
    } else {
      P.SeenIsOffline(s.reg, to);
    }
  }

  lemma {:induction false} TeamPostedKeeps(c: Config, s: State, slots: M.Slots, ok: set<string>, m: P.Message,
                                           members: seq<string>)
    requires Inv(c, s) && M.Inv(c.capacity, slots) && slots.at.Keys <= s.known
             && forall x :: x in members ==> x in s.known
    ensures
      var t := P.TeamPosted(c.capacity, slots, s.reg, ok, m, members);
      M.Inv(c.capacity, t) && t.at.Keys <= s.known
  {
    hide Inv, M.Inv, P.FateOf, M.Deposited;
    if members != [] {
      var p, x := members[..|members| - 1], members[|members| - 1];
      TeamPostedKeeps(c, s, slots, ok, m, p);
      assert x in members;
      var before := P.TeamPosted(c.capacity, slots, s.reg, ok, m, p);
      var fate := P.FateOf(s.reg, ok, x);
      if !fate.Unknown? {
        PostedKeeps(c, s, before, P.Letter(m, x, fate.outcome, fate.reason));
      }
    }
  }

  lemma {:induction false} DirectPostedKeeps(c: Config, s: State, ok: set<string>, m: P.Message, to: string)
    requires Inv(c, s)
    ensures
      var t := DirectPosted(c.capacity, s.slots, s.reg, ok, m, to);
      M.Inv(c.capacity, t) && t.at.Keys <= s.known
    ensures
      var t := P.Noticed(c.capacity, s.slots, s.reg, ok, m, to);
      M.Inv(c.capacity, t) && t.at.Keys <= s.known
  {
    hide R.Inv, T.Inv, M.Inv, P.FateOf, M.Deposited, P.Addressee;
    if P.Addressee(s.reg, to).Online? {
      var name := P.Addressee(s.reg, to).name;
      AddresseeKnown(c, s, to);
      var fate := P.FateOf(s.reg, ok, name);
      if !fate.Unknown? {
        PostedKeeps(c, s, s.slots, P.Letter(m, name, fate.outcome, fate.reason));
        PostedKeeps(c, s, s.slots, P.Letter(m, name, M.Skipped, fate.reason));
      }
    }
  }

  lemma SlotsKeep(c: Config, s: State, slots: M.Slots)
    requires Inv(c, s) && M.Inv(c.capacity, slots) && slots.at.Keys <= s.known
    ensures Inv(c, s.(slots := slots))
  {
    hide R.Inv, T.Inv, M.Inv, T.IsMember, N.IsValid;
  }

  lemma MarkedReadKeeps(c: Config, s: State, name: string, now: int)
    requires Inv(c, s)
    ensures M.Inv(c.capacity, M.MarkedRead(s.slots, name, now)) && M.MarkedRead(s.slots, name, now).at.Keys <= s.known
  {
    hide R.Inv, T.Inv, T.IsMember, N.IsValid, OwnersOk;
    M.StepKeeps(c.capacity, s.slots, M.MarkRead(name, now));
    hide M.Inv;
  }

  lemma StepKeeps(c: Config, s: State, i: Input)
    requires Inv(c, s)
    ensures Inv(c, Step(c, s, i))
  {
    hide Inv, Registered, Joining, Leaving, Rechanneled, Closed, TimedOut, R.Orphaned, DirectPosted, P.TeamPosted,
         P.Noticed, M.MarkedRead;
    match i
    case Register(q, completes) => RegisteredKeeps(c, s, q, completes);
    case JoinTeam(sock, team) => JoiningKeeps(c, s, sock, team);
    case LeaveTeam(sock, team) => LeavingKeeps(c, s, sock, team);
    case SetChannel(sock, capable) => RechanneledKeeps(c, s, sock, capable);
    case Close(sock, now) => ClosedKeeps(c, s, sock, now);
    case Timeout(t, now) => TimedOutKeeps(c, s, t, now);
    case Orphan(host, ccPid, now) => OrphanKeeps(c, s, host, ccPid, now);
    case Send(m, to, ok) =>
      DirectPostedKeeps(c, s, ok, m, to);
      SlotsKeep(c, s, DirectPosted(c.capacity, s.slots, s.reg, ok, m, to));
    case SendTeam(m, team, ok) => SendTeamKeeps(c, s, m, team, ok);
    case Notify(m, to, ok) =>
      DirectPostedKeeps(c, s, ok, m, to);
      SlotsKeep(c, s, P.Noticed(c.capacity, s.slots, s.reg, ok, m, to));
    case ReadMailbox(sock, now) =>
      if sock in s.owners {
        MarkedReadKeeps(c, s, s.owners[sock], now);
        SlotsKeep(c, s, M.MarkedRead(s.slots, s.owners[sock], now));
      }
  }

  lemma SendTeamKeeps(c: Config, s: State, m: P.Message, team: string, ok: set<string>)
    requires Inv(c, s)
    ensures Inv(c, s.(slots := P.TeamPosted(c.capacity, s.slots, s.reg, ok, m, T.MembersOf(s.teams, team))))
  {
    var members := T.MembersOf(s.teams, team);
    assert forall x :: x in members ==> T.IsMember(s.teams, team, x);
    hide R.Inv, T.Inv, M.Inv, N.IsValid, P.TeamPosted;
    TeamPostedKeeps(c, s, s.slots, ok, m, members);
    SlotsKeep(c, s, P.TeamPosted(c.capacity, s.slots, s.reg, ok, m, members));
  }

  lemma {:induction false} RunKeeps(c: Config, inputs: seq<Input>)
    ensures Inv(c, Run(c, inputs))
  {
    hide Step;
    if inputs != [] {
      RunKeeps(c, inputs[..|inputs| - 1]);
      StepKeeps(c, Run(c, inputs[..|inputs| - 1]), inputs[|inputs| - 1]);
    }
  }

  // ----- Teams and entries agree -----

  /** The teams the registry has for a name: those of its entry, or those it is waited for with. */
  function TeamsOf(reg: R.State, name: string): set<string> {
    if name in reg.agents.at then reg.agents.at[name].teams
    else if name in reg.disconnected.at then reg.disconnected.at[name].teams
    else {}
  }

  /** Every team in the set of an online or disconnected entry lists the name. */
  ghost predicate Listed(s: State) {
    forall n, t :: t in TeamsOf(s.reg, n) ==> T.IsMember(s.teams, t, n)
  }

  /** Every member of a team has that team in the set of his entry. */
  ghost predicate Backed(s: State) {
    forall n, t :: T.IsMember(s.teams, t, n) ==> t in TeamsOf(s.reg, n)
  }

  /** The name the frame comes under is offline, though its socket is still open. */
  predicate FromOffline(s: State, sock: nat) {
    sock in s.owners && s.owners[sock] !in s.reg.agents.at
  }

  predicate Renames(s: State, i: Input) {
    i.Register? && R.Verdict(s.reg, i.q).Registered? && R.Verdict(s.reg, i.q).renamedFrom.Some?
  }

  /**
   * A name that is waited for is not taken out of a team it is waited for with, and a rename is carried through
   * (or the new name already is in all teams of the old one).
   */
  predicate Orderly(s: State, i: Input) {
    && (i.LeaveTeam? && FromOffline(s, i.sock) ==> i.team !in TeamsOf(s.reg, s.owners[i.sock]))
    && (Renames(s, i) && !i.completes ==>
          forall x :: x in TeamsOf(s.reg, R.Verdict(s.reg, i.q).renamedFrom.value) ==> T.IsMember(s.teams, x, i.q.name))
  }

  /**
   * An offline name changes no membership, and nobody renames himself to a name with teams that his old name does
   * not have; a rename that is not carried through is one without teams.
   */
  predicate Neat(s: State, i: Input) {
    && (i.LeaveTeam? && FromOffline(s, i.sock) ==> i.team !in TeamsOf(s.reg, s.owners[i.sock]))
    && (i.JoinTeam? && FromOffline(s, i.sock) ==> i.team in TeamsOf(s.reg, s.owners[i.sock]))
    && (Renames(s, i) ==>
          var mine := TeamsOf(s.reg, R.Verdict(s.reg, i.q).renamedFrom.value);
          if i.completes then TeamsOf(s.reg, i.q.name) <= mine else TeamsOf(s.reg, i.q.name) == {} && mine == {})
  }

  lemma {:induction false} RegisteredTeams(c: Config, s: State, q: R.Request)
    requires R.Inv(s.reg) && R.Verdict(s.reg, q).Registered?
    ensures
      var mine := R.Verdict(s.reg, q).renamedFrom;
      var t := R.Admitted(c.reg, s.reg, q);
      mine != Some(q.name)
      && forall n :: TeamsOf(t, n) ==
                    if n == q.name then (if mine.Some? then TeamsOf(s.reg, mine.value) else TeamsOf(s.reg, n))
                    else if mine == Some(n) then {} else TeamsOf(s.reg, n)
  {
    R.AdmittedEntries(c.reg, s.reg, q);
    TeamsForIs(s.reg, q);
    DisconnectedAreOffline(s.reg);
    hide R.Inv, R.Admitted, R.Verdict, R.TeamsFor, N.IsValid;
  }

  lemma DisconnectedAreOffline(reg: R.State)
    requires R.Inv(reg)
    ensures forall n :: n in reg.agents.at ==> n !in reg.disconnected.at
  {
  }

  lemma TeamsForIs(reg: R.State, q: R.Request)
    requires R.Inv(reg) && R.Verdict(reg, q).Registered?
    ensures
      var mine := R.Verdict(reg, q).renamedFrom;
      R.TeamsFor(reg, q) == if mine.Some? then TeamsOf(reg, mine.value) else TeamsOf(reg, q.name)
  {
    hide NoDup, N.IsValid, N.Parse, R.GoneOk;
    R.HeldIs(reg.agents, reg.agents.order, q.sock, q.name);
    hide R.Held;
  }

  lemma {:induction false} RegisteredAgrees(c: Config, s: State, q: R.Request, completes: bool)
    requires Inv(c, s) && R.Verdict(s.reg, q).Registered?
    ensures Listed(s) ==> (Listed(Registered(c, s, q, completes)) <==> Orderly(s, Register(q, completes)))
    ensures Agree(s) ==> (Agree(Registered(c, s, q, completes)) <==> Neat(s, Register(q, completes)))
  {
    hide R.Inv, R.Admitted, R.Verdict, M.Inv, M.Rekeyed, T.Renamed, T.Inv, KnownOk, OwnersOk, T.IsMember, TeamsOf,
         Listed, Backed;
    RegisteredTeams(c, s, q);
    var mine := R.Verdict(s.reg, q).renamedFrom;
    var t := Registered(c, s, q, completes);
    if mine.None? {
      SameTeamsAgree(s, t);
    } else if completes {
      T.RenamedMembers(s.teams, mine.value, q.name);
      NewNameAgrees(s, t, q.name, mine.value);
    } else {
      UntoldAgrees(s, t, q.name, mine.value);
    }
  }

  ghost predicate Agree(s: State) {
    Listed(s) && Backed(s)
  }

  /** A name takes over the teams of another on both sides. */
  lemma NewNameAgrees(s: State, t: State, name: string, mine: string)
    requires mine != name
    requires forall n :: TeamsOf(t.reg, n) ==
                           if n == name then TeamsOf(s.reg, mine) else if n == mine then {} else TeamsOf(s.reg, n)
    requires forall x, n :: T.IsMember(t.teams, x, n) <==>
               ((T.IsMember(s.teams, x, n) && n != mine) || (n == name && T.IsMember(s.teams, x, mine)))
    ensures Listed(s) ==> Listed(t)
    ensures Agree(s) ==> (Agree(t) <==> TeamsOf(s.reg, name) <= TeamsOf(s.reg, mine))
  {
    hide T.IsMember, TeamsOf;
  }

  /** A name takes over the teams of another in the registry only. */
  lemma UntoldAgrees(s: State, t: State, name: string, mine: string)
    requires mine != name && t.teams == s.teams
    requires forall n :: TeamsOf(t.reg, n) ==
                           if n == name then TeamsOf(s.reg, mine) else if n == mine then {} else TeamsOf(s.reg, n)
    ensures Listed(s) ==> (Listed(t) <==> forall x :: x in TeamsOf(s.reg, mine) ==> T.IsMember(s.teams, x, name))
    ensures Agree(s) ==> (Agree(t) <==> TeamsOf(s.reg, name) == {} && TeamsOf(s.reg, mine) == {})
  {
    hide T.IsMember, TeamsOf;
    if Agree(s) && Agree(t) {
      forall x
        ensures x !in TeamsOf(s.reg, mine) && x !in TeamsOf(s.reg, name)
      {
        assert T.IsMember(s.teams, x, mine) ==> x in TeamsOf(t.reg, mine);
        assert T.IsMember(s.teams, x, name) ==> x in TeamsOf(t.reg, name);
      }
    }
  }

  /** A name's own entry and the team change together. */
  lemma MembershipAgrees(s: State, t: State, name: string, team: string, member: bool)
    requires forall n :: TeamsOf(t.reg, n) ==
                           if n != name then TeamsOf(s.reg, n)
                           else if member then TeamsOf(s.reg, n) + {team} else TeamsOf(s.reg, n) - {team}
    requires forall x, n :: T.IsMember(t.teams, x, n) <==>
                              if x == team && n == name then member else T.IsMember(s.teams, x, n)
    ensures Listed(s) ==> Listed(t)
    ensures Backed(s) ==> Backed(t)
  {
    hide T.IsMember, TeamsOf;
  }

  /** Only the team changes. */
  lemma OfflineMembershipAgrees(s: State, t: State, name: string, team: string, member: bool)
    requires t.reg == s.reg
    requires forall x, n :: T.IsMember(t.teams, x, n) <==>
                              if x == team && n == name then member else T.IsMember(s.teams, x, n)
    ensures Listed(s) ==> (Listed(t) <==> (!member ==> team !in TeamsOf(s.reg, name)))
    ensures Agree(s) ==> (Agree(t) <==> (member <==> team in TeamsOf(s.reg, name)))
  {
    hide T.IsMember, TeamsOf;
    if team in TeamsOf(t.reg, name) && Listed(t) {
      assert T.IsMember(t.teams, team, name);
    }
  }

  lemma RetitledTeams(reg: R.State, name: string, teams: set<string>)
    requires name in reg.agents.at
    ensures TeamsOf(reg, name) == EntryTeams(reg, name)
    ensures forall n :: TeamsOf(Retitled(reg, name, teams), n) == if n == name then teams else TeamsOf(reg, n)
  {
  }

  lemma {:induction false} JoiningAgrees(c: Config, s: State, sock: nat, team: string)
    requires Inv(c, s)
    ensures Listed(s) ==> Listed(Joining(s, sock, team))
    ensures Agree(s) ==> (Agree(Joining(s, sock, team)) <==> Neat(s, JoinTeam(sock, team)))
  {
    if sock in s.owners {
      var name := s.owners[sock];
      T.JoinedMembers(s.teams, team, name);
      hide R.Inv, M.Inv, T.Inv, KnownOk, OwnersOk, T.Joined, T.IsMember, Listed, Backed, TeamsOf;
      if name in s.reg.agents.at {
        RetitledTeams(s.reg, name, EntryTeams(s.reg, name) + {team});
        hide Retitled;
        MembershipAgrees(s, Joining(s, sock, team), name, team, true);
      } else {
        OfflineMembershipAgrees(s, Joining(s, sock, team), name, team, true);
      }
    }
  }

  lemma LeavingAgrees(c: Config, s: State, sock: nat, team: string)
    requires Inv(c, s)
    ensures Listed(s) ==> (Listed(Leaving(s, sock, team)) <==> Orderly(s, LeaveTeam(sock, team)))
    ensures Agree(s) ==> (Agree(Leaving(s, sock, team)) <==> Neat(s, LeaveTeam(sock, team)))
  {
    if sock in s.owners {
      var name := s.owners[sock];
      T.LeftMembers(s.teams, team, name);
      hide R.Inv, M.Inv, T.Inv, KnownOk, OwnersOk, T.Left, T.IsMember, Listed, Backed, TeamsOf;
      if name in s.reg.agents.at {
        RetitledTeams(s.reg, name, EntryTeams(s.reg, name) - {team});
        hide Retitled;
        MembershipAgrees(s, Leaving(s, sock, team), name, team, false);
      } else {
        OfflineMembershipAgrees(s, Leaving(s, sock, team), name, team, false);
      }
    }
  }

  /** Going offline takes the teams along. */
  lemma LeftTeams(c: R.Config, reg: R.State, name: string, sock: Option<nat>, now: int)
    requires R.Inv(reg)
    ensures forall n :: TeamsOf(R.Left(c, reg, name, sock, now), n) == TeamsOf(reg, n)
  {
    R.LeftEntries(c, reg, name, sock, now);
    DisconnectedAreOffline(reg);
    hide R.Inv, R.Left;
  }

  lemma {:induction false} LeftAgrees(c: Config, s: State, t: State, name: string, sock: Option<nat>, now: int)
    requires R.Inv(s.reg) && t.reg == R.Left(c.reg, s.reg, name, sock, now) && t.teams == s.teams
    ensures Listed(s) ==> Listed(t)
    ensures Backed(s) ==> Backed(t)
  {
    LeftTeams(c.reg, s.reg, name, sock, now);
    hide R.Inv, R.Left, TeamsOf, Listed, Backed;
    SameTeamsAgree(s, t);
  }

  lemma GivenUpTeams(reg: R.State, t: nat)
    requires R.Inv(reg) && t in reg.timers.armed
    ensures
      var name := reg.timers.armed[t].owner;
      && name in reg.disconnected.at && TeamsOf(reg, name) == reg.disconnected.at[name].teams
      && forall n :: TeamsOf(R.GivenUp(reg, t), n) == if n == name then {} else TeamsOf(reg, n)
  {
    R.OwnerIsGone(reg.disconnected.at, reg.timers, t);
    DisconnectedAreOffline(reg);
    hide R.Inv, Without;
  }

  lemma GoneAgrees(s: State, t: State, name: string)
    requires forall n :: TeamsOf(t.reg, n) == if n == name then {} else TeamsOf(s.reg, n)
    requires forall x, n :: T.IsMember(t.teams, x, n) <==>
                              T.IsMember(s.teams, x, n) && !(x in TeamsOf(s.reg, name) && n == name)
    ensures Listed(s) ==> Listed(t)
    ensures Backed(s) ==> Backed(t)
  {
    hide T.IsMember, TeamsOf;
  }

  lemma {:induction false} TimedOutAgrees(c: Config, s: State, t: nat, now: int)
    requires Inv(c, s)
    ensures Listed(s) ==> Listed(TimedOut(s, t, now))
    ensures Backed(s) ==> Backed(TimedOut(s, t, now))
  {
    if s.reg.timers.CanFire(t, now) {
      hide R.Inv, M.Inv, T.Inv, KnownOk, OwnersOk, T.LeftAll, T.IsMember, TeamsOf, Listed, Backed, R.GivenUp;
      GivenUpTeams(s.reg, t);
      var name := s.reg.timers.armed[t].owner;
      T.LeftAllMembers(s.teams, s.reg.disconnected.at[name].teams, name);
      GoneAgrees(s, TimedOut(s, t, now), name);
    }
  }

  lemma {:induction false} OtherStepAgrees(c: Config, s: State, i: Input)
    requires Inv(c, s) && !i.Register? && !i.JoinTeam? && !i.LeaveTeam?
    ensures Listed(s) ==> Listed(Step(c, s, i))
    ensures Backed(s) ==> Backed(Step(c, s, i))
  {
    hide Listed, Backed, R.Left, R.Inv, T.Inv, M.Inv, KnownOk, OwnersOk, P.TeamPosted, P.Noticed, DirectPosted,
         M.MarkedRead;
    match i
    case SetChannel(sock, capable) => SameTeamsAgree(s, Rechanneled(s, sock, capable));
    case Close(sock, now) =>
      if sock in s.owners && (s.owners[sock] in s.reg.agents.at ==> s.reg.agents.at[s.owners[sock]].sock == sock) {
        LeftAgrees(c, s, Closed(c, s, sock, now), s.owners[sock], Some(sock), now);
      } else {
        SameTeamsAgree(s, Closed(c, s, sock, now));
      }
    case Timeout(t, now) =>
      hide Inv, TimedOut;
      TimedOutAgrees(c, s, t, now);
    case Orphan(host, ccPid, now) =>
      var found := R.HostPidMatches(s.reg.agents, s.reg.agents.order, host, ccPid);
      if host != "" && found.Some? {
        LeftAgrees(c, s, Step(c, s, i), found.value, None, now);
      }
    case Send(_, _, _) => SameTeamsAgree(s, Step(c, s, i));
    case SendTeam(_, _, _) => SameTeamsAgree(s, Step(c, s, i));
    case Notify(_, _, _) => SameTeamsAgree(s, Step(c, s, i));
    case ReadMailbox(_, _) => SameTeamsAgree(s, Step(c, s, i));
  }

  /**
   * Exactly the orderly steps keep every team of an entry listing the name, and exactly the neat ones full agreement.
   */
  lemma StepAgrees(c: Config, s: State, i: Input)
    requires Inv(c, s)
    ensures Listed(s) ==> (Listed(Step(c, s, i)) <==> Orderly(s, i))
    ensures Agree(s) ==> (Agree(Step(c, s, i)) <==> Neat(s, i))
  {
    hide Inv, Registered, Joining, Leaving;
    match i
    case Register(q, completes) =>
      hide Agree, Listed;
      if R.Verdict(s.reg, q).Registered? {
        RegisteredAgrees(c, s, q, completes);
      } else {
        Unchanged(c, s, q, completes);
      }
    case JoinTeam(sock, team) =>
      hide Agree, Listed;
      JoiningAgrees(c, s, sock, team);
    case LeaveTeam(sock, team) =>
      hide Agree, Listed;
      LeavingAgrees(c, s, sock, team);
    case _ =>
      hide Step, Listed, Backed;
      OtherStepAgrees(c, s, i);
  }

  lemma Unchanged(c: Config, s: State, q: R.Request, completes: bool)
    requires !R.Verdict(s.reg, q).Registered?
    ensures Registered(c, s, q, completes) == s
  {
  }

  lemma SameTeamsAgree(s: State, t: State)
    requires t.teams == s.teams && forall n :: TeamsOf(t.reg, n) == TeamsOf(s.reg, n)
    ensures Listed(s) ==> Listed(t)
    ensures Backed(s) ==> Backed(t)
  {
    hide T.IsMember, TeamsOf;
  }

  ghost predicate OrderlyRun(c: Config, inputs: seq<Input>) {
    forall k :: 0 <= k < |inputs| ==> Orderly(Run(c, inputs[..k]), inputs[k])
  }

  ghost predicate NeatRun(c: Config, inputs: seq<Input>) {
    forall k :: 0 <= k < |inputs| ==> Neat(Run(c, inputs[..k]), inputs[k])
  }

  lemma RunOne(c: Config, inputs: seq<Input>, k: nat)
    requires k < |inputs|
    ensures Run(c, inputs[..k + 1]) == Step(c, Run(c, inputs[..k]), inputs[k])
  {
    assert inputs[..k + 1][..k] == inputs[..k];
  }

  /** In all states of a run the teams of every entry list its name, if and only if each step is orderly. */
  lemma {:induction false} ListedIffOrderly(c: Config, inputs: seq<Input>)
    ensures OrderlyRun(c, inputs) <==> forall k :: 0 <= k <= |inputs| ==> Listed(Run(c, inputs[..k]))
  {
    hide Step, Orderly, Listed, Run;
    assert inputs[..0] == [];
    EmptyRun(c);
    if OrderlyRun(c, inputs) {
      for k := 0 to |inputs|
        invariant forall l :: 0 <= l <= k ==> Listed(Run(c, inputs[..l]))
      {
        RunKeeps(c, inputs[..k]);
        RunOne(c, inputs, k);
        StepAgrees(c, Run(c, inputs[..k]), inputs[k]);
      }
    }
    if forall k :: 0 <= k <= |inputs| ==> Listed(Run(c, inputs[..k])) {
      forall k | 0 <= k < |inputs|
        ensures Orderly(Run(c, inputs[..k]), inputs[k])
      {
        RunKeeps(c, inputs[..k]);
        RunOne(c, inputs, k);
        StepAgrees(c, Run(c, inputs[..k]), inputs[k]);
        assert Listed(Run(c, inputs[..k + 1]));
      }
    }
  }

  /**
   * In all states of a run the members of each team are exactly those whose entry has the team, if and only if
   * each step is neat.
   */
  lemma {:induction false} AgreeIffNeat(c: Config, inputs: seq<Input>)
    ensures NeatRun(c, inputs) <==> forall k :: 0 <= k <= |inputs| ==> Agree(Run(c, inputs[..k]))
  {
    hide Step, Neat, Agree, Run;
    assert inputs[..0] == [];
    EmptyRun(c);
    if NeatRun(c, inputs) {
      for k := 0 to |inputs|
        invariant forall l :: 0 <= l <= k ==> Agree(Run(c, inputs[..l]))
      {
        RunKeeps(c, inputs[..k]);
        RunOne(c, inputs, k);
        StepAgrees(c, Run(c, inputs[..k]), inputs[k]);
      }
    }
    if forall k :: 0 <= k <= |inputs| ==> Agree(Run(c, inputs[..k])) {
      forall k | 0 <= k < |inputs|
        ensures Neat(Run(c, inputs[..k]), inputs[k])
      {
        RunKeeps(c, inputs[..k]);
        RunOne(c, inputs, k);
        StepAgrees(c, Run(c, inputs[..k]), inputs[k]);
        assert Agree(Run(c, inputs[..k + 1]));
      }
    }
  }

  lemma EmptyRun(c: Config)
    ensures Run(c, []) == INITIAL && Agree(INITIAL)
  {
    NothingAgrees();
  }

  /** The frame comes from the socket that is online under its name, or from one that never registered. */
  predicate Current(s: State, sock: nat) {
    sock in s.owners ==> s.owners[sock] in s.reg.agents.at && s.reg.agents.at[s.owners[sock]].sock == sock
  }

  /** Frames of current sockets are orderly when renames are carried through, and neat when those are to fresh names. */
  lemma CurrentIsNeat(s: State, i: Input)
    requires i.JoinTeam? || i.LeaveTeam? ==> Current(s, i.sock)
    requires Renames(s, i) ==> i.completes
    ensures Orderly(s, i)
    ensures (Renames(s, i) ==> i.q.name !in s.reg.agents.at && i.q.name !in s.reg.disconnected.at) ==> Neat(s, i)
  {
    hide R.Verdict;
  }

  lemma NothingAgrees()
    ensures Listed(INITIAL) && Backed(INITIAL)
  {
  }

  /**
   * Whatever happens: no team is empty, nobody is online and waited for at once, those waited for are exactly those
   * with an armed timer, a socket holds at most one name, and mail goes only to names that were registered.
   */
  lemma {:induction false} AlwaysConsistent(c: Config, inputs: seq<Input>)
    ensures
      var s := Run(c, inputs);
      && (forall t :: t in s.teams ==> s.teams[t] != [])
      && (forall n :: n in s.reg.agents.at ==> n !in s.reg.disconnected.at)
      && (forall n :: n in s.reg.disconnected.at ==>
            && s.reg.disconnected.at[n].timer in s.reg.timers.armed
            && s.reg.timers.armed[s.reg.disconnected.at[n].timer].owner == n)
      && (forall t :: t in s.reg.timers.armed ==> s.reg.timers.armed[t].owner in s.reg.disconnected.at)
      && (forall a, b :: a in s.reg.agents.at && b in s.reg.agents.at ==>
                           (s.reg.agents.at[a].sock == s.reg.agents.at[b].sock ==> a == b))
      && (forall n :: n in s.slots.at ==> n in s.known)
      && P.SYSTEM !in s.known
  {
    RunKeeps(c, inputs);
    hide Run;
    N.SystemNameIsReserved();
    hide N.IsValid, NoDup, T.IsMember, M.SlotOk;
  }

  /**
   * In every run a notice of the hub changes no unseen message but the oldest, and that only to make room for a
   * slot its addressee did not have; the addressee's own unseen message it never changes.
   */
  lemma {:induction false} NoticesSpareUnseen(c: Config, inputs: seq<Input>, m: P.Message, to: string, ok: set<string>,
                                              k: string)
    requires P.HoldsGuarded(Run(c, inputs).slots, k)
    ensures
      var s := Run(c, inputs);
      var t := Step(c, s, Notify(m, to, ok));
      var who := P.Addressee(s.reg, to);
      (k in t.slots.at && t.slots.at[k] == s.slots.at[k]) <==>
        !(&& who.Online? && who.name !in s.slots.at && P.FateOf(s.reg, ok, who.name) != P.DELIVERED
          && |s.slots.order| == M.Room(c.capacity) && P.IsOldest(s.slots, k))
  {
    RunKeeps(c, inputs);
    var s := Run(c, inputs);
    hide Run, R.Inv, T.Inv, M.Inv, KnownOk, OwnersOk, P.Addressee, P.FateOf, P.NoticePosted;
    if P.Addressee(s.reg, to).Online? {
      var name := P.Addressee(s.reg, to).name;
      R.AgentsWf(s.reg);
      P.AddresseeIsKnown(s.reg, ok, to);
      P.NoticeSpares(c.capacity, s.slots, m, name, P.FateOf(s.reg, ok, name), k);
    }
  }

  // ----- The hub itself -----

  class Hub {
    const c: Config
    const registry: R.Registry
    const teams: T.Teams
    const mailbox: M.Mailbox
    var wsToAgent: map<nat, string>
    ghost var known: set<string>

    ghost function Abs(): State
      reads this, registry, teams, mailbox
    {
      State(registry.Abs(), teams.teams, mailbox.entries, wsToAgent, known)
    }

    ghost predicate Wired()
      reads registry
    {
      registry.c == c.reg && mailbox.capacity == c.capacity && registry.Valid()
    }

    constructor (c: Config)
      ensures this.c == c && fresh(registry) && fresh(teams) && fresh(mailbox)
      ensures Wired() && Abs() == INITIAL
    {
      this.c := c;
      registry := new R.Registry(c.reg);
      teams := new T.Teams();
      mailbox := new M.Mailbox(c.capacity);
      wsToAgent, known := map[], {};
    }

    /** `completes` is false when the answer cannot be sent to the socket. */
    method OnRegister(q: R.Request, completes: bool) returns (v: R.Answer)
      requires Wired()
      modifies this, registry, teams, mailbox
      ensures Wired() && v == R.Verdict(old(registry.Abs()), q)
      ensures Abs() == Registered(c, old(Abs()), q, completes)
    {
      hide R.Inv, R.Verdict, R.Admitted;
      v := registry.Register(q);
      if !v.Registered? {
        return;
      }
      wsToAgent := wsToAgent[q.sock := q.name];
      known := known + {q.name};
      if completes && v.renamedFrom.Some? {
        mailbox.Rekey(v.renamedFrom.value, q.name);
        teams.RenameMember(v.renamedFrom.value, q.name);
      }
    }

    method OnJoinTeam(sock: nat, team: string) returns (members: seq<string>)
      requires Wired()
      modifies registry, teams
      ensures Wired() && Abs() == Joining(old(Abs()), sock, team)
      ensures sock in wsToAgent ==> members == T.MembersOf(teams.teams, team) && wsToAgent[sock] in members
    {
      members := [];
      if sock !in wsToAgent {
        return;
      }
      var name := wsToAgent[sock];
      members := teams.Join(team, name);
      RetitledKeeps(registry.Abs(), name, EntryTeams(registry.Abs(), name) + {team});
      hide R.Inv;
      if name in registry.agents.at {
        var entry := registry.agents.at[name];
        registry.agents := registry.agents.Set(name, entry.(teams := entry.teams + {team}));
      }
    }

    method OnLeaveTeam(sock: nat, team: string) returns (remaining: nat)
      requires Wired()
      modifies registry, teams
      ensures Wired() && Abs() == Leaving(old(Abs()), sock, team)
      ensures sock in wsToAgent ==> remaining == |T.MembersOf(teams.teams, team)|
    {
      remaining := 0;
      if sock !in wsToAgent {
        return;
      }
      var name := wsToAgent[sock];
      remaining := teams.Leave(team, name);
      RetitledKeeps(registry.Abs(), name, EntryTeams(registry.Abs(), name) - {team});
      hide R.Inv;
      if name in registry.agents.at {
        var entry := registry.agents.at[name];
        registry.agents := registry.agents.Set(name, entry.(teams := entry.teams - {team}));
      }
    }

    method OnClose(sock: nat, now: int)
      requires Wired()
      modifies this, registry
      ensures Wired() && Abs() == Closed(c, old(Abs()), sock, now)
    {
      if sock !in wsToAgent {
        return;
      }
      var name := wsToAgent[sock];
      wsToAgent := wsToAgent - {sock};
      if name in registry.agents.at && registry.agents.at[name].sock != sock {
        return;
      }
      hide R.Inv, R.Left;
      registry.Unregister(name, Some(sock), now);
    }

    /** The registry gives up waiting for a name; before that, the teams it is waited for with lose it. */
    method OnTimeout(t: nat, now: int)
      requires Wired() && registry.timers.CanFire(t, now)
      modifies registry, teams
      ensures Wired() && Abs() == TimedOut(old(Abs()), t, now)
    {
      hide R.Inv, R.GivenUp;
      var gone := registry.OnTimeout(t);
      teams.LeaveAll(gone.value.1, gone.value.0);
    }

    /** The socket of the agent whose process is gone is closed too: its own close comes in later. */
    method OnOrphan(host: string, ccPid: int, now: int) returns (closing: Option<nat>)
      requires Wired()
      modifies registry
      ensures Wired() && Abs() == old(Abs()).(reg := R.Orphaned(c.reg, old(registry.Abs()), host, ccPid, now))
      ensures
        var was := old(registry.agents);
        var found := if host == "" then None else R.HostPidMatches(was, was.order, host, ccPid);
        && (closing.Some? <==> found.Some?)
        && (found.Some? ==>
              && found.value in was.at && was.at[found.value].sock == closing.value
              && found.value !in registry.agents.at)
    {
      hide R.Inv;
      R.HostPidIs(registry.agents, registry.agents.order, host, ccPid);
      ghost var found := R.HostPidMatches(registry.agents, registry.agents.order, host, ccPid);
      if found.Some? {
        R.LeftEntries(c.reg, registry.Abs(), found.value, None, now);
      }
      hide R.Left, R.HostPidMatches;
      var gone := registry.UnregisterByHostPid(host, ccPid, now);
      closing := if gone.Some? then Some(gone.value.sock) else None;
    }
  }
}
