/** Teams and their members, in the order of joining (src/hub/teams.ts). */
module Teams {
  import opened JsMap

  type Roster = map<string, seq<string>>

  function MembersOf(ts: Roster, team: string): seq<string> {
    if team in ts then ts[team] else []
  }

  predicate IsMember(ts: Roster, team: string, name: string) {
    name in MembersOf(ts, team)
  }

  /** No team is empty, and nobody is in a team twice. */
  ghost predicate Inv(ts: Roster) {
    forall t :: t in ts ==> ts[t] != [] && NoDup(ts[t])
  }

  // ----- The operations -----

  function Added(members: seq<string>, name: string): seq<string> {
    if name in members then members else members + [name]
  }

  function Joined(ts: Roster, team: string, name: string): Roster {
    ts[team := Added(MembersOf(ts, team), name)]
  }

  function Left(ts: Roster, team: string, name: string): Roster {
    if team !in ts then ts
    else if Without(ts[team], name) == [] then ts - {team}
    else ts[team := Without(ts[team], name)]
  }

  function Swapped(members: seq<string>, oldName: string, newName: string): seq<string> {
    if oldName in members then Added(Without(members, oldName), newName) else members
  }

  function Renamed(ts: Roster, oldName: string, newName: string): Roster {
    map t | t in ts :: Swapped(ts[t], oldName, newName)
  }

  /** Someone who did not come back is taken out of the teams he was in. */
  function LeftAll(ts: Roster, teams: set<string>, name: string): Roster {
    map t | t in ts && !(t in teams && Without(ts[t], name) == []) :: if t in teams then Without(ts[t], name) else ts[t]
  }

  // ----- Who is a member afterwards -----

  lemma JoinedMembers(ts: Roster, team: string, name: string)
    requires Inv(ts)
    ensures Inv(Joined(ts, team, name))
    ensures forall t, n :: IsMember(Joined(ts, team, name), t, n) <==> IsMember(ts, t, n) || (t == team && n == name)
  {
  }

  lemma LeftMembers(ts: Roster, team: string, name: string)
    requires Inv(ts)
    ensures Inv(Left(ts, team, name))
    ensures forall t, n :: IsMember(Left(ts, team, name), t, n) <==> IsMember(ts, t, n) && !(t == team && n == name)
  {
    if team in ts {
      WithoutMembers(ts[team], name);
      WithoutNoDup(ts[team], name);
      hide Without, NoDup;
    }
  }

  lemma LeftAllMembers(ts: Roster, teams: set<string>, name: string)
    requires Inv(ts)
    ensures Inv(LeftAll(ts, teams, name))
    ensures forall t, n :: IsMember(LeftAll(ts, teams, name), t, n) <==>
                             IsMember(ts, t, n) && !(t in teams && n == name)
  {
    forall t | t in ts
      ensures NoDup(Without(ts[t], name)) && forall n :: n in Without(ts[t], name) <==> n in ts[t] && n != name
    {
      WithoutMembers(ts[t], name);
      WithoutNoDup(ts[t], name);
    }
    hide Without, NoDup;
  }

  lemma SwappedMembers(members: seq<string>, oldName: string, newName: string)
    requires NoDup(members) && members != []
    ensures
      var m := Swapped(members, oldName, newName);
      && NoDup(m) && m != []
      && forall n :: n in m <==> (n in members && n != oldName) || (n == newName && oldName in members)
  {
    WithoutMembers(members, oldName);
    WithoutNoDup(members, oldName);
    var w := Without(members, oldName);
    if newName !in w {
      NoDupAppend(w, newName);
    }
    hide Without, NoDup;
  }

  lemma RenamedMembers(ts: Roster, oldName: string, newName: string)
    requires Inv(ts)
    ensures Inv(Renamed(ts, oldName, newName))
    ensures forall t, n :: IsMember(Renamed(ts, oldName, newName), t, n) <==>
              ((IsMember(ts, t, n) && n != oldName) || (n == newName && IsMember(ts, t, oldName)))
  {
    forall t | t in ts
      ensures
        var m := Swapped(ts[t], oldName, newName);
        && NoDup(m) && m != []
        && forall n :: n in m <==> (n in ts[t] && n != oldName) || (n == newName && oldName in ts[t])
    {
      SwappedMembers(ts[t], oldName, newName);
    }
    hide Swapped, NoDup;
  }

  // ----- In which order -----

  /** Who joins comes last; who was there already keeps his place. */
  lemma JoinsLast(ts: Roster, team: string, name: string)
    ensures MembersOf(Joined(ts, team, name), team) ==
            MembersOf(ts, team) + if IsMember(ts, team, name) then [] else [name]
    ensures forall t :: t != team ==> MembersOf(Joined(ts, team, name), t) == MembersOf(ts, t)
  {
  }

  /** Who stays keeps his place among those who stay, whoever leaves; `f` is any order. */
  lemma {:induction false} LeavesInOrder(ts: Roster, team: string, name: string, f: string -> int)
    requires Increasing(MembersOf(ts, team), f)
    ensures Increasing(MembersOf(Left(ts, team, name), team), f)
    ensures forall t :: t != team ==> MembersOf(Left(ts, team, name), t) == MembersOf(ts, t)
  {
    hide Increasing, Without;
    if team in ts {
      WithoutIncreasing(ts[team], name, f);
    }
    if team in ts && Without(ts[team], name) == [] {
      NothingInOrder(f);
    }
  }

  lemma NothingInOrder(f: string -> int)
    ensures Increasing([], f)
  {
  }

  /** Who is renamed to a name that is not in the team yet comes last; the others keep their places. */
  lemma {:induction false} RenamedLast(ts: Roster, oldName: string, newName: string, team: string, f: string -> int)
    requires IsMember(ts, team, oldName) && !IsMember(ts, team, newName) && Increasing(MembersOf(ts, team), f)
    ensures
      var m := MembersOf(Renamed(ts, oldName, newName), team);
      m != [] && m[|m| - 1] == newName && Increasing(m[..|m| - 1], f)
  {
    WithoutMembers(ts[team], oldName);
    WithoutIncreasing(ts[team], oldName, f);
    var w := Without(ts[team], oldName);
    assert (w + [newName])[..|w|] == w;
    hide Without, Increasing;
  }

  // ----- The teams themselves -----

  class Teams {
    var teams: Roster

    constructor ()
      ensures teams == map[]
    {
      teams := map[];
    }

    method Join(team: string, name: string) returns (members: seq<string>)
      modifies this
      ensures teams == Joined(old(teams), team, name) && members == MembersOf(teams, team)
    {
      members := if team in teams then teams[team] else [];
      if name !in members {
        members := members + [name];
      }
      teams := teams[team := members];
    }

    method Leave(team: string, name: string) returns (remaining: nat)
      modifies this
      ensures teams == Left(old(teams), team, name) && remaining == |MembersOf(teams, team)|
    {
      if team !in teams {
        return 0;
      }
      var members := Without(teams[team], name);
      if |members| == 0 {
        teams := teams - {team};
        return 0;
      }
      teams := teams[team := members];
      return |members|;
    }

    method GetTeamsForAgent(name: string) returns (result: set<string>)
      ensures forall t :: t in result <==> IsMember(teams, t, name)
    {
      result := set t | t in teams && name in teams[t];
    }

    /** Each team in turn swaps the old name for the new one. */
    method RenameMember(oldName: string, newName: string)
      modifies this
      ensures teams == Renamed(old(teams), oldName, newName)
    {
      var left := teams.Keys;
      while left != {}
        invariant left <= teams.Keys && teams.Keys == old(teams).Keys
        invariant forall t :: t in teams ==>
                    teams[t] == if t in left then old(teams)[t] else Swapped(old(teams)[t], oldName, newName)
        decreases left
      {
        hide Without;
        var t :| t in left;
        left := left - {t};
        if oldName in teams[t] {
          var members := Without(teams[t], oldName);
          teams := teams[t := Added(members, newName)];
        }
      }
    }

    /** What the hub does when it gives up waiting for `name`. */
    method LeaveAll(from: set<string>, name: string)
      modifies this
      ensures teams == LeftAll(old(teams), from, name)
    {
      var left := from;
      while left != {}
        invariant left <= from && teams == LeftAll(old(teams), from - left, name)
        decreases left
      {
        hide Without;
        var t :| t in left;
        assert from - (left - {t}) == (from - left) + {t};
        LeftOneMore(old(teams), from - left, t, name);
        var _ := Leave(t, name);
        left := left - {t};
      }
      assert from - left == from;
    }
  }

  lemma LeftOneMore(ts: Roster, teams: set<string>, team: string, name: string)
    requires team !in teams
    ensures LeftAll(ts, teams + {team}, name) == Left(LeftAll(ts, teams, name), team, name)
  {
    hide Without;
  }
}
