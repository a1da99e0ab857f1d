/**
 * Every run of the hub is, for its registry, a run of the registry (src/hub/ws-plugin.ts and src/hub/registry.ts):
 * what is proved about the memory of the registry holds inside the hub.
 */
module HubHistory {
  import opened Options
  import Hub
  import R = Registry
  import H = RegistryHistory

  /** What a step of the hub asks of the registry: one operation, or nothing. */
  function Asked(s: Hub.State, i: Hub.Input): seq<H.Input> {
    match i
    case Register(q, _) => [H.Enter(q)]
    case JoinTeam(sock, team) => Changed(s, sock, team, true)
    case LeaveTeam(sock, team) => Changed(s, sock, team, false)
    case SetChannel(sock, capable) =>
      if sock in s.owners && s.owners[sock] in s.reg.agents.at then
        [H.Change(s.owners[sock], s.reg.agents.at[s.owners[sock]].teams, capable)]
      else []
    case Close(sock, now) =>
      if sock in s.owners && (s.owners[sock] in s.reg.agents.at ==> s.reg.agents.at[s.owners[sock]].sock == sock) then
        [H.Leave(s.owners[sock], Some(sock), now)]
      else []
    case Timeout(t, now) => if s.reg.timers.CanFire(t, now) then [H.TimeOut(t)] else []
    case Orphan(host, ccPid, now) => [H.Orphan(host, ccPid, now)]
    case Send(_, _, _) => []
    case SendTeam(_, _, _) => []
    case Notify(_, _, _) => []
    case ReadMailbox(_, _) => []
  }

  function Changed(s: Hub.State, sock: nat, team: string, joins: bool): seq<H.Input> {
    if sock in s.owners && s.owners[sock] in s.reg.agents.at then
      var a := s.reg.agents.at[s.owners[sock]];
      [H.Change(s.owners[sock], if joins then a.teams + {team} else a.teams - {team}, a.channelCapable)]
    else []
  }

  ghost function AllAsked(c: Hub.Config, inputs: seq<Hub.Input>): seq<H.Input> {
    if inputs == [] then []
    else AllAsked(c, inputs[..|inputs| - 1]) + Asked(Hub.Run(c, inputs[..|inputs| - 1]), inputs[|inputs| - 1])
  }

  lemma StepAsks(c: Hub.Config, s: Hub.State, i: Hub.Input)
    ensures
      var asked := Asked(s, i);
      Hub.Step(c, s, i).reg == if asked == [] then s.reg else H.Step(c.reg, s.reg, asked[0])
    ensures |Asked(s, i)| <= 1
  {
    hide R.Admitted, R.Verdict, R.Left, R.Orphaned, R.GivenUp, Hub.DirectPosted;
  }

  lemma {:induction false} RegistryRuns(c: Hub.Config, inputs: seq<Hub.Input>)
    ensures Hub.Run(c, inputs).reg == H.Run(c.reg, AllAsked(c, inputs))
  {
    if inputs != [] {
      var before, i := inputs[..|inputs| - 1], inputs[|inputs| - 1];
      RegistryRuns(c, before);
      StepAsks(c, Hub.Run(c, before), i);
      hide Hub.Step, H.Step, Asked;
      var p, asked := AllAsked(c, before), Asked(Hub.Run(c, before), i);
      if asked == [] {
        assert p + asked == p;
      } else {
        assert (p + asked)[..|p|] == p && (p + asked)[|p|] == asked[0];
      }
    }
  }

  /**
   * In every run of the hub, names count as concurrent exactly if two of them were online and recorded at one moment,
   * neither renamed away or evicted since, nor eight times back online since.
   */
  lemma {:induction false} ConcurrentInHub(c: Hub.Config, inputs: seq<Hub.Input>, names: seq<string>)
    ensures
      var tr := H.Trace(c.reg, AllAsked(c, inputs));
      R.EverConcurrent(Hub.Run(c, inputs).reg, names) <==>
        exists k, l :: 0 <= k < l < |names| && H.EverTogether(tr, names[k], names[l])
  {
    RegistryRuns(c, inputs);
    hide Hub.Run, H.Run, H.Trace, H.EverTogether, AllAsked, R.EverConcurrent;
    H.ConcurrentIffTogether(c.reg, AllAsked(c, inputs), names);
  }
}
