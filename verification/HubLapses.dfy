/**
 * Runs of the hub (src/hub/ws-plugin.ts) after which teams and entries disagree: one for each kind of step to blame.
 */
module HubLapses {
  import opened Hub
  import opened JsMap
  import opened Options
  import N = Names
  import R = Registry
  import T = Teams

  /** The entry of a registration, in these teams, and no other. */
  function Only(q: R.Request, teams: set<string>): Table<R.Agent> {
    Table([q.name], map[q.name := R.Agent(N.Parse(q.name), q.sock, teams, q.channelCapable, q.ccPid, q.cwd)])
  }

  /** Nobody else has ever come online, and this agent is in these teams. */
  ghost predicate Alone(s: State, q: R.Request, teams: set<string>) {
    && s.owners == map[q.sock := q.name] && s.reg.disconnected == Empty()
    && s.reg.agents == Only(q, teams)
    && forall t, n :: T.IsMember(s.teams, t, n) <==> n == q.name && t in teams
  }

  lemma AloneAgrees(s: State, q: R.Request, teams: set<string>)
    requires Alone(s, q, teams)
    ensures Agree(s) && TeamsOf(s.reg, q.name) == teams && forall n :: n != q.name ==> TeamsOf(s.reg, n) == {}
  {
    hide T.IsMember;
  }

  lemma FirstAdmitted(c: R.Config, q: R.Request)
    requires N.IsValid(q.name)
    ensures R.Verdict(R.INITIAL, q) == R.Registered(false, None)
    ensures
      var t := R.Admitted(c, R.INITIAL, q);
      && t.disconnected == Empty()
      && t.agents == Only(q, {})
  {
    hide N.IsValid, N.Parse, R.Touched;
    assert NoDup(R.INITIAL.seen);
    R.TouchedKeeps(c.seenCapacity, R.INITIAL, q.name);
  }

  lemma AfterRegister(c: Config, q: R.Request)
    requires N.IsValid(q.name)
    ensures Alone(Run(c, [Register(q, true)]), q, {})
  {
    RunOne(c, [Register(q, true)], 0);
    EmptyRun(c);
    assert [Register(q, true)][..1] == [Register(q, true)] && [Register(q, true)][..0] == [];
    hide Run;
    FirstAdmitted(c.reg, q);
    hide R.Admitted, R.Verdict, N.IsValid, N.Parse;
  }

  lemma JoinedAlone(c: Config, s: State, q: R.Request, teams: set<string>, team: string)
    requires Inv(c, s) && Alone(s, q, teams)
    ensures Alone(Step(c, s, JoinTeam(q.sock, team)), q, teams + {team})
  {
    hide R.Inv, N.IsValid, N.Parse, T.Inv;
    T.JoinedMembers(s.teams, team, q.name);
    hide T.Joined, T.IsMember;
  }

  /** One more input: the state it leads to, which is reachable. */
  lemma {:induction false} After(c: Config, before: seq<Input>, i: Input)
    ensures Run(c, before + [i]) == Step(c, Run(c, before), i)
    ensures Inv(c, Run(c, before)) && Inv(c, Run(c, before + [i]))
  {
    RunKeeps(c, before);
    RunKeeps(c, before + [i]);
    assert (before + [i])[..|before + [i]| - 1] == before;
  }

  function Joins(q: R.Request, team: string): seq<Input> {
    [Register(q, true)] + [JoinTeam(q.sock, team)]
  }

  lemma AfterJoin(c: Config, q: R.Request, team: string)
    requires N.IsValid(q.name)
    ensures Alone(Run(c, Joins(q, team)), q, {team})
  {
    hide Run, Step, Inv, Alone, N.IsValid;
    var first := [Register(q, true)];
    var none: set<string> := {};
    assert none + {team} == {team};
    AfterRegister(c, q);
    After(c, first, JoinTeam(q.sock, team));
    JoinedAlone(c, Run(c, first), q, none, team);
  }

  // ----- Offline with an open socket -----

  /**
   * The process has come back on a new socket and has its name again, in these teams, but the socket it had before
   * is still on record.
   */
  ghost predicate Reclaimed(s: State, q: R.Request, stale: nat, teams: set<string>) {
    && stale != q.sock && s.owners == map[stale := q.name, q.sock := q.name]
    && q.name in s.reg.agents.at && s.reg.agents.at[q.name].sock == q.sock
    && Agree(s) && TeamsOf(s.reg, q.name) == teams
  }

  lemma ReclaimIs(s: State, q: R.Request, again: R.Request)
    requires Alone(s, q, {}) && N.IsValid(q.name) && q.ccPid.Some? && again == q.(sock := again.sock)
    ensures R.Verdict(s.reg, again) == R.Registered(false, None)
  {
    hide N.IsValid, N.Parse;
    R.HeldIs(s.reg.agents, s.reg.agents.order, again.sock, q.name);
    hide R.Held;
  }

  /** The hub has not seen the old socket close when the same process registers on a new one. */
  lemma AfterReclaim(c: Config, q: R.Request, sock: nat)
    requires N.IsValid(q.name) && q.ccPid.Some? && sock != q.sock
    ensures Reclaimed(Run(c, Reclaim(q, sock)), q.(sock := sock), q.sock, {})
  {
    var before, again := [Register(q, true)], q.(sock := sock);
    AfterRegister(c, q);
    After(c, before, Register(again, true));
    var s := Run(c, before);
    AloneAgrees(s, q, {});
    ReclaimIs(s, q, again);
    hide Run, N.IsValid, N.Parse, R.Inv, R.Verdict, R.Admitted, Agree;
    R.AdmittedEntries(c.reg, s.reg, again);
    RegisteredTeams(c, s, again);
    StepAgrees(c, s, Register(again, true));
    hide TeamsOf;
  }

  function Reclaim(q: R.Request, sock: nat): seq<Input> {
    [Register(q, true)] + [Register(q.(sock := sock), true)]
  }

  lemma JoinedReclaimed(c: Config, s: State, q: R.Request, stale: nat, teams: set<string>, team: string)
    requires Inv(c, s) && Reclaimed(s, q, stale, teams)
    ensures Reclaimed(Step(c, s, JoinTeam(q.sock, team)), q, stale, teams + {team})
  {
    StepAgrees(c, s, JoinTeam(q.sock, team));
    RetitledTeams(s.reg, q.name, EntryTeams(s.reg, q.name) + {team});
    hide Inv, Agree, TeamsOf, EntryTeams, T.Joined;
  }

  /** Only the old socket is left, and the name it has on record is offline. */
  lemma ClosedReclaimed(c: Config, s: State, q: R.Request, stale: nat, teams: set<string>, now: int)
    requires Inv(c, s) && Reclaimed(s, q, stale, teams)
    ensures
      var t := Step(c, s, Close(q.sock, now));
      && Agree(t) && t.owners == map[stale := q.name] && FromOffline(t, stale) && TeamsOf(t.reg, q.name) == teams
  {
    CloseIs(c, s, q, stale, teams, now);
    StepAgrees(c, s, Close(q.sock, now));
    hide R.Inv, R.Left, Agree, TeamsOf, Step;
    R.LeftEntries(c.reg, s.reg, q.name, Some(q.sock), now);
    LeftTeams(c.reg, s.reg, q.name, Some(q.sock), now);
    hide Inv;
  }

  lemma CloseIs(c: Config, s: State, q: R.Request, stale: nat, teams: set<string>, now: int)
    requires Reclaimed(s, q, stale, teams)
    ensures Step(c, s, Close(q.sock, now)) ==
            s.(owners := map[stale := q.name], reg := R.Left(c.reg, s.reg, q.name, Some(q.sock), now))
  {
    hide R.Left, Agree, TeamsOf;
    assert map[stale := q.name, q.sock := q.name] - {q.sock} == map[stale := q.name];
  }

  /**
   * Leaving a team on a socket that a reclaim left behind, when the new socket is gone: the entry that is waited for
   * keeps a team that no longer lists the name.
   */
  lemma LeavingOffline(c: Config, q: R.Request, sock: nat, team: string, now: int)
    requires N.IsValid(q.name) && q.ccPid.Some? && sock != q.sock
    ensures
      !Listed(Run(c, Reclaim(q, sock) + [JoinTeam(sock, team)] + [Close(sock, now)] + [LeaveTeam(q.sock, team)]))
  {
    var before, again := Reclaim(q, sock), q.(sock := sock);
    var joined := before + [JoinTeam(sock, team)];
    var gone := joined + [Close(sock, now)];
    AfterReclaim(c, q, sock);
    After(c, before, JoinTeam(sock, team));
    After(c, joined, Close(sock, now));
    After(c, gone, LeaveTeam(q.sock, team));
    hide Run, Step, Inv, N.IsValid, Reclaim, Reclaimed;
    JoinedReclaimed(c, Run(c, before), again, q.sock, {}, team);
    ClosedReclaimed(c, Run(c, joined), again, q.sock, {} + {team}, now);
    StepAgrees(c, Run(c, gone), LeaveTeam(q.sock, team));
    hide Listed, Backed, TeamsOf;
  }

  /** Joining a team on such a socket: the team lists a name whose entry does not have the team. */
  lemma JoiningOffline(c: Config, q: R.Request, sock: nat, team: string, now: int)
    requires N.IsValid(q.name) && q.ccPid.Some? && sock != q.sock
    ensures !Agree(Run(c, Reclaim(q, sock) + [Close(sock, now)] + [JoinTeam(q.sock, team)]))
  {
    var before, again := Reclaim(q, sock), q.(sock := sock);
    var gone := before + [Close(sock, now)];
    AfterReclaim(c, q, sock);
    After(c, before, Close(sock, now));
    After(c, gone, JoinTeam(q.sock, team));
    hide Run, Step, Inv, N.IsValid, Reclaim, Reclaimed;
    ClosedReclaimed(c, Run(c, before), again, q.sock, {}, now);
    StepAgrees(c, Run(c, gone), JoinTeam(q.sock, team));
    hide Agree, TeamsOf;
  }

  // ----- Renames -----

  lemma IsRename(s: State, q: R.Request, mine: string)
    requires R.Inv(s.reg) && N.IsValid(q.name) && mine != q.name
    requires mine in s.reg.agents.at && s.reg.agents.at[mine].sock == q.sock
    requires q.name in s.reg.agents.at ==>
               s.reg.agents.at[q.name].sock != q.sock && q.ccPid.Some? && s.reg.agents.at[q.name].ccPid == q.ccPid
    ensures R.Verdict(s.reg, q).Registered? && R.Verdict(s.reg, q).renamedFrom == Some(mine)
  {
    hide N.IsValid, R.GoneOk, R.AgentOk, NoDup;
    R.HeldIs(s.reg.agents, s.reg.agents.order, q.sock, q.name);
    hide R.Held;
    assert mine in s.reg.agents.order;
  }

  /** A rename that is cut short: the new entry has teams that list only the old name. */
  lemma RenameCutShort(c: Config, q: R.Request, to: R.Request, team: string)
    requires N.IsValid(q.name) && N.IsValid(to.name) && to.sock == q.sock && to.name != q.name
    ensures !Listed(Run(c, Joins(q, team) + [Register(to, false)]))
  {
    var before := Joins(q, team);
    AfterJoin(c, q, team);
    After(c, before, Register(to, false));
    var s := Run(c, before);
    AloneAgrees(s, q, {team});
    hide Run, Step, N.IsValid, N.Parse, Joins, R.Inv;
    IsRename(s, to, q.name);
    assert !T.IsMember(s.teams, team, to.name) && team in TeamsOf(s.reg, q.name);
    StepAgrees(c, s, Register(to, false));
    hide Inv, Alone, Listed, Backed, R.Verdict, TeamsOf, T.IsMember;
  }

  lemma SecondOnline(c: Config, s: State, q: R.Request, teams: set<string>, other: R.Request)
    requires Inv(c, s) && Alone(s, q, teams)
    requires N.IsValid(other.name) && other.name != q.name && other.sock != q.sock
    ensures
      var t := Step(c, s, Register(other, true));
      && Agree(t) && q.name in t.reg.agents.at && t.reg.agents.at[q.name] == s.reg.agents.at[q.name]
      && other.name in t.reg.agents.at && t.reg.agents.at[other.name].sock == other.sock
      && TeamsOf(t.reg, q.name) == teams && TeamsOf(t.reg, other.name) == {}
  {
    AloneAgrees(s, q, teams);
    hide N.IsValid, N.Parse, R.Inv, Agree;
    R.HeldIs(s.reg.agents, s.reg.agents.order, other.sock, other.name);
    hide R.Held;
    assert R.Verdict(s.reg, other) == R.Registered(false, None);
    hide R.Verdict, R.Admitted;
    R.AdmittedEntries(c.reg, s.reg, other);
    RegisteredTeams(c, s, other);
    StepAgrees(c, s, Register(other, true));
    hide TeamsOf;
  }

  /**
   * A rename to a name that another socket of the same process is online with: the new entry lacks that name's teams.
   */
  lemma RenameOntoMember(c: Config, q: R.Request, other: R.Request, team: string)
    requires N.IsValid(q.name) && N.IsValid(other.name) && other.name != q.name && other.sock != q.sock
    requires q.ccPid.Some?
    ensures
      var again := q.(sock := other.sock);
      !Agree(Run(c, Joins(q, team) + [Register(other, true)] + [Register(again, true)]))
  {
    var before := Joins(q, team);
    var again := q.(sock := other.sock);
    AfterJoin(c, q, team);
    After(c, before, Register(other, true));
    After(c, before + [Register(other, true)], Register(again, true));
    hide Run, Step, N.IsValid, N.Parse, Joins, R.Inv;
    SecondOnline(c, Run(c, before), q, {team}, other);
    var s := Run(c, before + [Register(other, true)]);
    IsRename(s, again, other.name);
    StepAgrees(c, s, Register(again, true));
    assert team in TeamsOf(s.reg, q.name);
    hide Inv, Agree, R.Verdict, TeamsOf;
  }
}
