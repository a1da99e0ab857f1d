/**
 * What the hub does (src/hub/ws-plugin.ts), told by its sockets, teams and mailbox before and after a step of any run;
 * what a step asks of the registry is in HubHistory.
 */
module HubRules {
  import opened Hub
  import opened JsMap
  import opened Options
  import H = HubHistory
  import M = Mailbox
  import N = Names
  import P = Router
  import R = Registry
  import Q = RegistryRules
  import T = Teams

  lemma {:induction false} OneMoreStep(c: Config, inputs: seq<Input>, i: Input)
    ensures Run(c, inputs + [i]) == Step(c, Run(c, inputs), i) && Inv(c, Run(c, inputs))
  {
    RunKeeps(c, inputs);
    assert (inputs + [i])[..|inputs + [i]| - 1] == inputs;
  }

  /** The request is accepted. */
  predicate Accepts(s: State, q: R.Request) {
    N.IsValid(q.name) && !R.Collides(s.reg.agents.at, q)
  }

  /** An accepted request that gives the name `x` up, and gets as far as telling mailbox and teams. */
  predicate Moves(s: State, i: Input, x: string) {
    i.Register? && i.completes && Accepts(s, i.q) && R.Renamed(s.reg.agents.at, i.q, x)
  }

  lemma MovesIs(c: Config, s: State, i: Input, x: string)
    requires Inv(c, s) && i.Register?
    ensures Accepts(s, i.q) <==> R.Verdict(s.reg, i.q).Registered?
    ensures Moves(s, i, x) <==>
            R.Verdict(s.reg, i.q).Registered? && i.completes && R.Verdict(s.reg, i.q).renamedFrom == Some(x)
  {
    R.VerdictIs(s.reg, i.q);
    hide R.Inv, N.IsValid, R.Verdict, R.Collides, R.Renamed, T.Inv, M.Inv, OwnersOk, KnownOk;
  }

  // ----- Sockets -----

  /** A socket is on record under the name it registered last, until it closes. */
  lemma {:induction false} SocketsKnow(c: Config, inputs: seq<Input>, i: Input)
    ensures
      var s, t := Run(c, inputs), Run(c, inputs + [i]);
      t.owners == if i.Register? && Accepts(s, i.q) then s.owners[i.q.sock := i.q.name]
                  else if i.Close? then s.owners - {i.sock} else s.owners
  {
    OneMoreStep(c, inputs, i);
    hide Run;
    var s := Run(c, inputs);
    if i.Register? {
      MovesIs(c, s, i, "");
    }
    hide Inv, Accepts, R.Verdict, R.Left, DirectPosted;
    if i.Close? && i.sock !in s.owners {
      assert s.owners - {i.sock} == s.owners;
    }
  }

  // ----- Teams -----

  /** Every membership after a step, from those before. */
  ghost predicate MemberAfter(s: State, i: Input, team: string, n: string) {
    var was := T.IsMember(s.teams, team, n);
    match i
    case Register(q, _) =>
      (was && !Moves(s, i, n)) || (n == q.name && exists x :: Moves(s, i, x) && T.IsMember(s.teams, team, x))
    case JoinTeam(sock, joined) => was || (team == joined && sock in s.owners && n == s.owners[sock])
    case LeaveTeam(sock, left) => was && !(team == left && sock in s.owners && n == s.owners[sock])
    case Timeout(t, now) =>
      was && !(&& t in s.reg.timers.armed && s.reg.timers.armed[t].due <= now && s.reg.timers.armed[t].owner == n
               && n in s.reg.disconnected.at && team in s.reg.disconnected.at[n].teams)
    case _ => was
  }

  /** In every run a step changes exactly these memberships. */
  lemma {:induction false} MembersChange(c: Config, inputs: seq<Input>, i: Input, team: string, n: string)
    ensures T.IsMember(Run(c, inputs + [i]).teams, team, n) <==> MemberAfter(Run(c, inputs), i, team, n)
  {
    OneMoreStep(c, inputs, i);
    hide Run, R.Inv, M.Inv, T.Inv, OwnersOk, KnownOk, DirectPosted, R.Admitted, R.Left, R.GivenUp, M.Rekeyed;
    var s := Run(c, inputs);
    match i
    case Register(q, completes) => RegisterMembers(c, s, q, completes, team, n);
    case JoinTeam(sock, joined) =>
      if sock in s.owners {
        T.JoinedMembers(s.teams, joined, s.owners[sock]);
      }
    case LeaveTeam(sock, left) =>
      if sock in s.owners {
        T.LeftMembers(s.teams, left, s.owners[sock]);
      }
    case Timeout(t, now) =>
      if s.reg.timers.CanFire(t, now) {
        var name := s.reg.timers.armed[t].owner;
        T.LeftAllMembers(s.teams, if name in s.reg.disconnected.at then s.reg.disconnected.at[name].teams else {},
                         name);
      }
    case _ =>
  }

  lemma {:induction false} RegisterMembers(c: Config, s: State, q: R.Request, completes: bool, team: string, n: string)
    requires Inv(c, s)
    ensures T.IsMember(Registered(c, s, q, completes).teams, team, n) <==>
            MemberAfter(s, Register(q, completes), team, n)
  {
    hide R.Verdict, Moves, R.Admitted, M.Rekeyed, T.Renamed, R.Inv, M.Inv, KnownOk, OwnersOk;
    var i, v := Register(q, completes), R.Verdict(s.reg, q);
    forall x: string
      ensures Moves(s, i, x) <==> v.Registered? && completes && v.renamedFrom == Some(x)
    {
      MovesIs(c, s, i, x);
    }
    if v.Registered? && completes && v.renamedFrom.Some? {
      T.RenamedMembers(s.teams, v.renamedFrom.value, q.name);
    }
    hide T.IsMember, T.Inv;
  }

  // ----- The mailbox -----

  /** The slot of a name after the name `x` has become `y`: the later of two messages, the one for `y` on a tie. */
  ghost predicate SlotMoved(s: M.Slots, t: M.Slots, x: string, y: string) {
    && x !in t.at
    && (forall k :: k != x && k != y ==> (k in t.at <==> k in s.at) && (k in t.at ==> t.at[k] == s.at[k]))
    && (y in t.at <==> x in s.at || y in s.at)
    && (y in t.at ==>
          t.at[y] == if x in s.at && (y in s.at ==> s.at[y].sentAt < s.at[x].sentAt) then s.at[x].(to := y)
                     else s.at[y])
    && (x in s.at && (y in s.at ==> s.at[y].sentAt < s.at[x].sentAt) ==>
          t.order != [] && t.order[|t.order| - 1] == y)
  }

  /** In every run the mailbox follows a completed rename, and no other registration touches it. */
  lemma {:induction false} MailFollows(c: Config, inputs: seq<Input>, q: R.Request, completes: bool)
    ensures
      var i := Register(q, completes);
      var s, t := Run(c, inputs), Run(c, inputs + [i]);
      && (forall x :: Moves(s, i, x) ==> SlotMoved(s.slots, t.slots, x, q.name))
      && ((forall x :: !Moves(s, i, x)) ==> t.slots == s.slots)
  {
    var i := Register(q, completes);
    OneMoreStep(c, inputs, i);
    var s := Run(c, inputs);
    var v := R.Verdict(s.reg, q);
    forall x: string
      ensures Moves(s, i, x) <==> v.Registered? && completes && v.renamedFrom == Some(x)
      ensures Moves(s, i, x) ==> x != q.name
    {
      MovesIs(c, s, i, x);
    }
    hide Run, R.Verdict, Moves, R.Admitted, T.Renamed, R.Inv, T.Inv, KnownOk, OwnersOk, SlotMoved;
    if v.Registered? && completes && v.renamedFrom.Some? {
      assert Moves(s, i, v.renamedFrom.value);
      Rekeys(c.capacity, s.slots, v.renamedFrom.value, q.name);
    }
    hide M.Rekeyed, M.Inv;
  }

  lemma Rekeys(capacity: int, slots: M.Slots, x: string, y: string)
    requires M.Inv(capacity, slots) && x != y
    ensures SlotMoved(slots, M.Rekeyed(slots, x, y), x, y)
  {
    hide Without, NoDup;
  }

  /** In every run: reading marks the reader's own slot, once; nothing but mail and renames touches the mailbox. */
  lemma {:induction false} MailIsRead(c: Config, inputs: seq<Input>, i: Input)
    requires !i.Register? && !i.Send? && !i.SendTeam? && !i.Notify?
    ensures
      var s, t := Run(c, inputs).slots, Run(c, inputs + [i]).slots;
      var owners := Run(c, inputs).owners;
      && t.order == s.order && t.at.Keys == s.at.Keys
      && forall k :: k in s.at ==>
           var marked := i.ReadMailbox? && i.sock in owners && owners[i.sock] == k && s.at[k].readAt.None?;
           t.at[k] == if marked then s.at[k].(readAt := Some(i.now)) else s.at[k]
  {
    OneMoreStep(c, inputs, i);
    hide Run, Inv, R.Left;
  }

  /**
   * In every run whom an address means: the one online name that it means, and if it means none of those online, the
   * one that it stands for among all names seen.
   */
  lemma {:induction false} AddresseeIs(c: Config, inputs: seq<Input>, to: string, n: string)
    ensures
      var reg := Run(c, inputs).reg;
      P.Addressee(reg, to) == R.Online(n) <==>
        || Q.MeansOnly(to, reg.agents.order, n)
        || ((forall m :: !N.IsAddressed(to, reg.agents.order, m)) && R.ResolvedSeen(reg, to) == R.Online(n))
  {
    H.RegistryRuns(c, inputs);
    Q.LiveLookup(c.reg, H.AllAsked(c, inputs), to, n);
    hide Run, H.AllAsked, Q.MeansOnly, N.IsAddressed, R.ResolvedSeen, R.Resolved;
  }

  lemma RoomFor(c: Config, s: State, name: string, ok: set<string>, why: Option<M.Reason>)
    requires Inv(c, s) && P.Because(s.reg, ok, name, why)
    ensures s.reg.agents.Wf() && M.Inv(c.capacity, s.slots)
    ensures forall team :: NoDup(T.MembersOf(s.teams, team))
  {
    hide P.Because, KnownOk, OwnersOk;
    R.AgentsWf(s.reg);
    hide R.Inv, M.Inv, NoDup;
  }

  /** In every run, what the slot of the one that a sender means tells after the send. */
  lemma {:induction false} SendIsTold(c: Config, inputs: seq<Input>, m: P.Message, to: string, ok: set<string>,
                                      why: Option<M.Reason>)
    requires
      var reg := Run(c, inputs).reg;
      P.Addressee(reg, to).Online? && P.Because(reg, ok, P.Addressee(reg, to).name, why)
    ensures
      var name := P.Addressee(Run(c, inputs).reg, to).name;
      var t := Run(c, inputs + [Send(m, to, ok)]).slots;
      name in t.at && P.IsRecord(t.at[name], m, name, P.OutcomeOf(why), why) <==> M.Room(c.capacity) > 0
  {
    hide Run, Step, Inv, P.Addressee, P.Posted, P.FateOf, P.Because, P.IsRecord, M.Inv, NoDup;
    var i := Send(m, to, ok);
    OneMoreStep(c, inputs, i);
    var s, t := Run(c, inputs), Run(c, inputs + [i]);
    var name := P.Addressee(s.reg, to).name;
    RoomFor(c, s, name, ok, why);
    SendIs(c, s, i);
    P.DirectTellsTheTruth(c.capacity, s.slots, t.slots, s.reg, ok, m, to, P.DirectAnswer(P.FateOf(s.reg, ok, name)));
  }

  lemma SendIs(c: Config, s: State, i: Input)
    requires i.Send? && P.Addressee(s.reg, i.to).Online?
    ensures P.DirectIs(c.capacity, s.slots, Step(c, s, i).slots, s.reg, i.ok, i.m, i.to,
                       P.DirectAnswer(P.FateOf(s.reg, i.ok, P.Addressee(s.reg, i.to).name)))
  {
    hide P.Addressee, P.Posted, P.FateOf, P.DirectAnswer;
  }

  /** In every run, what the slot of a member tells after a send to the team. */
  lemma {:induction false} TeamSendIsTold(c: Config, inputs: seq<Input>, m: P.Message, team: string, ok: set<string>,
                                          x: string, why: Option<M.Reason>)
    requires
      var s := Run(c, inputs);
      T.IsMember(s.teams, team, x) && x != m.from && P.Because(s.reg, ok, x, why)
    ensures
      var s, t := Run(c, inputs), Run(c, inputs + [SendTeam(m, team, ok)]).slots;
      if x in P.LastOf(P.Reached(s.reg, ok, m.from, T.MembersOf(s.teams, team)), M.Room(c.capacity)) then
        x in t.at && P.IsRecord(t.at[x], m, x, P.OutcomeOf(why), why)
      else x !in t.at
  {
    hide Run, Step, Inv, P.Because, P.IsRecord, P.TeamPosted, P.Reached, P.LastOf, M.Inv, NoDup;
    OneMoreStep(c, inputs, SendTeam(m, team, ok));
    var s := Run(c, inputs);
    RoomFor(c, s, x, ok, why);
    TeamSendIs(c, s, m, team, ok);
    P.TeamIsTold(c.capacity, s.slots, s.reg, ok, m, T.MembersOf(s.teams, team), x, why);
  }

  lemma TeamSendIs(c: Config, s: State, m: P.Message, team: string, ok: set<string>)
    ensures Step(c, s, SendTeam(m, team, ok)).slots ==
            P.TeamPosted(c.capacity, s.slots, s.reg, ok, m, T.MembersOf(s.teams, team))
    ensures Step(c, s, Notify(m, team, ok)).slots == P.Noticed(c.capacity, s.slots, s.reg, ok, m, team)
  {
    hide P.TeamPosted, P.Noticed, T.MembersOf;
  }

  /** In every run, what the slot of the one that a notice is for tells after the notice. */
  lemma {:induction false} NoticeInHub(c: Config, inputs: seq<Input>, m: P.Message, to: string, ok: set<string>,
                                       why: Option<M.Reason>)
    requires
      var reg := Run(c, inputs).reg;
      P.Addressee(reg, to).Online? && P.Because(reg, ok, P.Addressee(reg, to).name, why)
    ensures
      var s, t := Run(c, inputs).slots, Run(c, inputs + [Notify(m, to, ok)]).slots;
      var name := P.Addressee(Run(c, inputs).reg, to).name;
      var unseen := name in s.at && s.at[name].readAt == None && s.at[name].outcome != M.Delivered
                    && s.at[name].from != "system@claude-net";
      if why == None || unseen then t == s
      else name in t.at && P.IsRecord(t.at[name], m, name, M.Skipped, why) <==> M.Room(c.capacity) > 0
  {
    hide Run, Step, Inv, P.Because, P.IsRecord, P.Noticed, M.Inv, NoDup, P.Addressee;
    OneMoreStep(c, inputs, Notify(m, to, ok));
    var s := Run(c, inputs);
    RoomFor(c, s, P.Addressee(s.reg, to).name, ok, why);
    TeamSendIs(c, s, m, to, ok);
    P.NoticeIsTold(c.capacity, s.slots, s.reg, ok, m, to, why);
  }

  /** In every run: a send or a notice that finds nobody, or too many, changes no slot. */
  lemma {:induction false} NobodyIsTold(c: Config, inputs: seq<Input>, i: Input)
    requires (i.Send? || i.Notify?) && !P.Addressee(Run(c, inputs).reg, i.to).Online?
    ensures Run(c, inputs + [i]).slots == Run(c, inputs).slots
  {
    hide Run, Inv, P.Addressee;
    OneMoreStep(c, inputs, i);
  }

  /** In every run: another name's slot survives a send, unless it is the oldest and there is no room for a new one. */
  lemma {:induction false} SendSpares(c: Config, inputs: seq<Input>, m: P.Message, to: string, ok: set<string>,
                                      k: string)
    requires
      var s := Run(c, inputs);
      P.Addressee(s.reg, to).Online? && k in s.slots.at && k != P.Addressee(s.reg, to).name
    ensures
      var s, t := Run(c, inputs), Run(c, inputs + [Send(m, to, ok)]).slots;
      var name := P.Addressee(s.reg, to).name;
      (k in t.at && t.at[k] == s.slots.at[k]) <==>
        !(name !in s.slots.at && |s.slots.order| == M.Room(c.capacity) && P.IsOldest(s.slots, k))
  {
    hide Run, Step, R.Inv, T.Inv, M.Inv, KnownOk, OwnersOk, P.Addressee, M.Deposited, P.FateOf;
    OneMoreStep(c, inputs, Send(m, to, ok));
    var s := Run(c, inputs);
    var name := P.Addressee(s.reg, to).name;
    R.AgentsWf(s.reg);
    P.AddresseeIsKnown(s.reg, ok, to);
    SendIs(c, s, Send(m, to, ok));
    var fate := P.FateOf(s.reg, ok, name);
    P.DepositSpares(c.capacity, s.slots, P.Letter(m, name, fate.outcome, fate.reason), k);
  }
}
