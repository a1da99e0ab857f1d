/**
 * What the registry remembers about who was online together (src/hub/registry.ts), against the history of the run.
 */
module RegistryHistory {
  import opened Options
  import opened JsMap
  import opened Names
  import opened Timers
  import opened Registry

  // The history is a sequence of moments, one after each step. A step does one of four things to the intervals of a
  // name, and whichever it does, the list keeps telling the truth about every earlier moment, as far as it remembers.

  // ----- Runs -----

  datatype Input =
    | Enter(q: Request)
    | Leave(name: string, sock: Option<nat>, now: int)
    | Orphan(host: string, ccPid: int, now: int)
    | TimeOut(timer: nat)
    | Change(name: string, teams: set<string>, channelCapable: bool)

  function Step(c: Config, s: State, i: Input): State {
    match i
    case Enter(q) => if Verdict(s, q).Registered? then Admitted(c, s, q) else s
    case Leave(name, sock, now) => Left(c, s, name, sock, now)
    case Orphan(host, ccPid, now) => Orphaned(c, s, host, ccPid, now)
    case TimeOut(t) => GivenUp(s, t)
    case Change(name, teams, channelCapable) =>
      if name in s.agents.at then
        s.(agents := s.agents.Set(name, s.agents.at[name].(teams := teams, channelCapable := channelCapable)))
      else s
  }

  /**
   * A moment of the run: who is online after a step, the logical time then, and what the step did to the names: one
   * started, one dropped by a rename, one evicted from the seen names, one registered.
   */
  datatype Moment = Moment(online: set<string>, clock: nat, started: Option<string>, dropped: Option<string>,
                           evicted: Option<string>, registered: Option<string>)

  /** The oldest seen name has to make room for this one, if there are too many. */
  function Evicts(c: Config, s: State, name: string): Option<string> {
    var touched := Without(s.seen, name) + [name];
    if |touched| > c.seenCapacity then Some(touched[0]) else None
  }

  /** A new entry starts a name; a rename drops the old name; any accepted request registers its name. */
  function After(c: Config, s: State, i: Input): Moment {
    var t := Step(c, s, i);
    var entered := i.Enter? && Verdict(s, i.q).Registered?;
    Moment(t.agents.at.Keys, t.clock,
           if entered && !Renewed(s, i.q) then Some(i.q.name) else None,
           if entered then Held(s.agents, s.agents.order, i.q.sock, i.q.name) else None,
           if entered then Evicts(c, s, i.q.name) else None,
           if entered then Some(i.q.name) else None)
  }

  function Run(c: Config, inputs: seq<Input>): State {
    if inputs == [] then INITIAL else Step(c, Run(c, inputs[..|inputs| - 1]), inputs[|inputs| - 1])
  }

  function Trace(c: Config, inputs: seq<Input>): seq<Moment> {
    if inputs == [] then []
    else Trace(c, inputs[..|inputs| - 1]) + [After(c, Run(c, inputs[..|inputs| - 1]), inputs[|inputs| - 1])]
  }

  // ----- The history of one name -----

  predicate Within(i: Interval, t: nat) {
    i.start <= t && (i.end.Some? ==> t < i.end.value)
  }

  /** The registry forgets the name: renamed away, or evicted. */
  predicate Loses(m: Moment, name: string) {
    m.dropped == Some(name) || m.evicted == Some(name)
  }

  /** Since moment `i` the name was not forgotten. */
  ghost predicate Kept(tr: seq<Moment>, i: nat, name: string) {
    forall k :: i < k < |tr| ==> !Loses(tr[k], name)
  }

  predicate Records(m: Moment, name: string, before: bool) {
    name in m.online && (m.started == Some(name) || (before && m.evicted != Some(name)))
  }

  /** The name is online, and was not evicted since it came online. */
  predicate Recorded(tr: seq<Moment>, name: string) {
    tr != [] && Records(tr[|tr| - 1], name, Recorded(tr[..|tr| - 1], name))
  }

  lemma RecordedGrows(tr: seq<Moment>, m: Moment, name: string)
    ensures Recorded(tr + [m], name) <==> Records(m, name, Recorded(tr, name))
  {
    assert (tr + [m])[..|tr + [m]| - 1] == tr;
  }

  /** How often the name came online after moment `i`. */
  function Starts(tr: seq<Moment>, i: nat, name: string): nat {
    if |tr| <= i + 1 || tr == [] then 0
    else Starts(tr[..|tr| - 1], i, name) + if tr[|tr| - 1].started == Some(name) then 1 else 0
  }

  /** The last interval has not ended. */
  predicate IsOpen(l: seq<Interval>) {
    l != [] && l[|l| - 1].end.None?
  }

  /** Ordered, disjoint, not too many, and the last one open just when it should be. */
  ghost predicate Ordered(l: seq<Interval>, clock: nat, open: bool) {
    && |l| <= MAX_INTERVALS_PER_NAME
    && (forall j :: 0 <= j < |l| - 1 ==> l[j].end.Some? && l[j].end.value <= l[j + 1].start)
    && (forall j :: 0 <= j < |l| ==> l[j].start <= clock && (l[j].end.Some? ==> l[j].start < l[j].end.value <= clock))
    && (open <==> IsOpen(l))
  }

  /**
   * Of a moment at time `t`, at which the name was recorded and from which on it was kept (`live`), and after
   * which it started `k` times: just the interval with `k` later ones is around it, unless it is too old.
   */
  ghost predicate Told(l: seq<Interval>, t: nat, live: bool, k: nat) {
    && (forall j :: 0 <= j < |l| ==> (Within(l[j], t) <==> live && j + k == |l| - 1))
    && (live && k < MAX_INTERVALS_PER_NAME ==> k < |l|)
  }

  ghost predicate Live(tr: seq<Moment>, i: nat, name: string)
    requires i < |tr|
  {
    Recorded(tr[..i + 1], name) && Kept(tr, i, name)
  }

  /** What the interval list tells of every moment of the run is true. */
  ghost predicate Remembers(l: seq<Interval>, tr: seq<Moment>, name: string) {
    && (forall i :: 0 <= i < |tr| ==> Told(l, tr[i].clock, Live(tr, i, name), Starts(tr, i, name)))
    && Begun(l, tr)
  }

  /** Every interval begins with a moment of the run. */
  ghost predicate Begun(l: seq<Interval>, tr: seq<Moment>) {
    forall j :: 0 <= j < |l| ==> IsMoment(l[j].start, tr)
  }

  ghost predicate IsMoment(t: nat, tr: seq<Moment>) {
    exists i :: 0 <= i < |tr| && tr[i].clock == t
  }

  /** Each interval of `n` begins like one of `l`, or at `start`. */
  ghost predicate BeginLike(n: seq<Interval>, l: seq<Interval>, start: nat) {
    forall j :: 0 <= j < |n| ==> n[j].start == start || exists k :: 0 <= k < |l| && l[k].start == n[j].start
  }

  ghost predicate Clocked(tr: seq<Moment>, clock: nat) {
    forall i :: 0 <= i < |tr| ==> tr[i].clock <= clock
  }

  // ----- What one step may do to the intervals of one name -----

  ghost predicate Untouched(l: seq<Interval>, n: seq<Interval>, name: string, clock: nat, m: Moment) {
    && n == l && clock <= m.clock && m.started != Some(name) && !Loses(m, name)
    && (Records(m, name, IsOpen(l)) <==> IsOpen(l))
  }

  /** An open interval that the entry of another process left behind ends first, unless it is evicted. */
  function Displaced(l: seq<Interval>, name: string, clock: nat, m: Moment): (seq<Interval>, nat) {
    if m.evicted == Some(name) then ([], clock) else if IsOpen(l) then (Ended(l, clock + 1), clock + 1) else (l, clock)
  }

  ghost predicate Started(l: seq<Interval>, n: seq<Interval>, name: string, clock: nat, m: Moment) {
    && m.started == Some(name) && m.dropped != Some(name) && name in m.online
    && var (e, at) := Displaced(l, name, clock, m);
       m.clock == at + 1 && n == OneMore(e, m.clock)
  }

  ghost predicate Finished(l: seq<Interval>, n: seq<Interval>, name: string, clock: nat, m: Moment) {
    && IsOpen(l) && m.clock == clock + 1 && n == Ended(l, m.clock)
    && m.started != Some(name) && !Loses(m, name) && name !in m.online
  }

  ghost predicate Erased(n: seq<Interval>, name: string, clock: nat, m: Moment) {
    && n == [] && clock <= m.clock && Loses(m, name) && m.started != Some(name)
    && (name in m.online ==> m.evicted == Some(name))
  }

  lemma KeptGrows(tr: seq<Moment>, m: Moment, i: nat, name: string)
    requires i < |tr|
    ensures Kept(tr + [m], i, name) <==> Kept(tr, i, name) && !Loses(m, name)
    ensures Live(tr + [m], i, name) <==> Live(tr, i, name) && !Loses(m, name)
    ensures Starts(tr + [m], i, name) == Starts(tr, i, name) + if m.started == Some(name) then 1 else 0
  {
    hide Recorded, Loses;
    var n := tr + [m];
    assert n[..|n| - 1] == tr && n[|tr|] == m && n[..i + 1] == tr[..i + 1];
    assert forall k :: 0 <= k < |tr| ==> n[k] == tr[k];
    if Kept(n, i, name) {
      assert forall k :: i < k < |tr| ==> !Loses(n[k], name);
    }
  }

  lemma KeptNow(tr: seq<Moment>, m: Moment, name: string)
    ensures Live(tr + [m], |tr|, name) <==> Records(m, name, Recorded(tr, name))
    ensures Starts(tr + [m], |tr|, name) == 0
  {
    assert (tr + [m])[..|tr| + 1] == tr + [m];
    RecordedGrows(tr, m, name);
  }

  lemma {:induction false} ToldStart(l: seq<Interval>, t: nat, live: bool, k: nat, start: nat)
    requires Told(l, t, live, k) && t < start
    ensures Told(OneMore(l, start), t, live, k + 1)
  {
    var n := OneMore(l, start);
    forall j | 0 <= j < |n|
      ensures Within(n[j], t) <==> live && j + k + 1 == |n| - 1
    {
      if j < |n| - 1 {
        assert n[j] == l[j + |l| + 1 - |n|];
      }
    }
  }

  lemma {:induction false} ToldEnd(l: seq<Interval>, t: nat, live: bool, k: nat, end: nat)
    requires Told(l, t, live, k) && t < end
    ensures Told(Ended(l, end), t, live, k)
  {
    var n := Ended(l, end);
    assert forall j :: 0 <= j < |n| ==> (Within(n[j], t) <==> Within(l[j], t));
  }

  /** The moment after the last step. */
  lemma {:induction false} ToldNow(l: seq<Interval>, clock: nat, open: bool, t: nat)
    requires Ordered(l, clock, open) && clock <= t
    ensures Told(l, t, open, 0)
  {
  }

  lemma {:induction false} OrderedNow(l: seq<Interval>, clock: nat, open: bool, t: nat)
    requires Ordered(l, clock, open) && clock <= t
    ensures Ordered(l, t, open)
  {
  }

  lemma {:induction false} OrderedDrop(l: seq<Interval>, clock: nat)
    requires Ordered(l, clock, false) && l != []
    ensures Ordered(l[1..], clock, false)
  {
    var n := l[1..];
    assert forall j :: 0 <= j < |n| ==> n[j] == l[j + 1];
  }

  lemma {:induction false} OrderedPush(l: seq<Interval>, clock: nat, start: nat)
    requires Ordered(l, clock, false) && clock < start && |l| < MAX_INTERVALS_PER_NAME
    ensures Ordered(l + [Interval(start, None)], start, true)
  {
    var n := l + [Interval(start, None)];
    assert n[|l|] == Interval(start, None) && forall j :: 0 <= j < |l| ==> n[j] == l[j];
  }

  lemma {:induction false} OrderedStart(l: seq<Interval>, clock: nat, start: nat)
    requires Ordered(l, clock, false) && clock < start
    ensures Ordered(OneMore(l, start), start, true)
  {
    SizeOk(l, clock, false);
    if |l| == MAX_INTERVALS_PER_NAME {
      OrderedDrop(l, clock);
      assert OneMore(l, start) == l[1..] + [Interval(start, None)];
      hide Ordered;
      OrderedPush(l[1..], clock, start);
    } else {
      hide Ordered;
      OrderedPush(l, clock, start);
    }
  }

  lemma {:induction false} OrderedEnd(l: seq<Interval>, clock: nat, end: nat)
    requires Ordered(l, clock, true) && clock < end
    ensures Ordered(Ended(l, end), end, false)
  {
  }

  /** The intervals begin at moments that stay where they are. */
  lemma {:induction false} StartsRemain(l: seq<Interval>, n: seq<Interval>, tr: seq<Moment>, m: Moment)
    requires Begun(l, tr) && BeginLike(n, l, m.clock)
    ensures Begun(n, tr + [m])
  {
    var h := tr + [m];
    forall j | 0 <= j < |n|
      ensures IsMoment(n[j].start, h)
    {
      if n[j].start == m.clock {
        assert h[|tr|].clock == n[j].start;
      } else {
        var k :| 0 <= k < |l| && l[k].start == n[j].start;
        assert IsMoment(l[k].start, tr);
        var i :| 0 <= i < |tr| && tr[i].clock == l[k].start;
        assert h[i] == tr[i];
      }
    }
  }

  /** Everything told of one name, in one place. */
  ghost predicate NameOk(l: seq<Interval>, tr: seq<Moment>, name: string, clock: nat) {
    Ordered(l, clock, Recorded(tr, name)) && Remembers(l, tr, name)
  }

  /** To show that a longer history is remembered: moment by moment, and the beginnings. */
  lemma {:induction false} RememberMore(l: seq<Interval>, n: seq<Interval>, tr: seq<Moment>, name: string, m: Moment)
    requires Remembers(l, tr, name)
    requires Ordered(n, m.clock, Records(m, name, Recorded(tr, name)))
    requires forall i :: 0 <= i < |tr| ==>
               Told(n, tr[i].clock, Live(tr, i, name) && !Loses(m, name),
                    Starts(tr, i, name) + if m.started == Some(name) then 1 else 0)
    requires BeginLike(n, l, m.clock)
    ensures NameOk(n, tr + [m], name, m.clock)
  {
    StartsRemain(l, n, tr, m);
    KeptNow(tr, m, name);
    RecordedGrows(tr, m, name);
    ToldNow(n, m.clock, Records(m, name, Recorded(tr, name)), m.clock);
    hide Live, Starts, Told, Begun, BeginLike, Ordered, Records, Recorded, Loses;
    var h := tr + [m];
    forall i | 0 <= i < |h|
      ensures Told(n, h[i].clock, Live(h, i, name), Starts(h, i, name))
    {
      if i < |tr| {
        KeptGrows(tr, m, i, name);
        assert h[i] == tr[i];
      }
    }
  }

  lemma {:induction false} UntouchedKeeps(l: seq<Interval>, tr: seq<Moment>, name: string, clock: nat, m: Moment)
    requires NameOk(l, tr, name, clock) && Clocked(tr, clock) && Untouched(l, l, name, clock, m)
    ensures NameOk(l, tr + [m], name, m.clock)
  {
    OrderedNow(l, clock, Recorded(tr, name), m.clock);
    assert BeginLike(l, l, m.clock);
    hide Told, Live, Starts, BeginLike, Begun, Recorded, IsOpen;
    RememberMore(l, l, tr, name, m);
  }

  lemma {:induction false} FinishedKeeps(l: seq<Interval>, tr: seq<Moment>, name: string, clock: nat, m: Moment)
    requires NameOk(l, tr, name, clock) && Clocked(tr, clock) && Finished(l, Ended(l, clock + 1), name, clock, m)
    ensures NameOk(Ended(l, clock + 1), tr + [m], name, m.clock)
  {
    var n := Ended(l, clock + 1);
    OrderedEnd(l, clock, clock + 1);
    EndedStarts(l, clock + 1);
    hide Told, Live, Starts, Ended, Ordered, BeginLike, Begun, Recorded;
    forall i | 0 <= i < |tr|
      ensures Told(n, tr[i].clock, Live(tr, i, name), Starts(tr, i, name))
    {
      ToldEnd(l, tr[i].clock, Live(tr, i, name), Starts(tr, i, name), clock + 1);
    }
    RememberMore(l, n, tr, name, m);
  }

  lemma {:induction false} EndedStarts(l: seq<Interval>, end: nat)
    ensures forall start: nat :: BeginLike(Ended(l, end), l, start)
  {
    assert forall j :: 0 <= j < |l| ==> Ended(l, end)[j].start == l[j].start;
  }

  lemma {:induction false} BeginTwice(n: seq<Interval>, e: seq<Interval>, l: seq<Interval>, start: nat)
    requires BeginLike(n, e, start) && BeginLike(e, l, start)
    ensures BeginLike(n, l, start)
  {
    forall j | 0 <= j < |n| && n[j].start != start
      ensures exists k :: 0 <= k < |l| && l[k].start == n[j].start
    {
      var k :| 0 <= k < |e| && e[k].start == n[j].start;
    }
  }

  lemma {:induction false} OneMoreStarts(l: seq<Interval>, start: nat)
    ensures BeginLike(OneMore(l, start), l, start)
  {
    var n := OneMore(l, start);
    forall j | 0 <= j < |n| && n[j].start != start
      ensures exists k :: 0 <= k < |l| && l[k].start == n[j].start
    {
      assert n[j] == l[j + |l| + 1 - |n|];
    }
  }

  lemma {:induction false} ErasedKeeps(l: seq<Interval>, tr: seq<Moment>, name: string, clock: nat, m: Moment)
    requires NameOk(l, tr, name, clock) && Erased([], name, clock, m)
    ensures NameOk([], tr + [m], name, m.clock)
  {
    hide Live, Starts, Recorded;
    RememberMore(l, [], tr, name, m);
  }

  /** The name comes online when `e` tells of its past. */
  lemma {:induction false} StartedFrom(l: seq<Interval>, e: seq<Interval>, tr: seq<Moment>, name: string, clock: nat,
                                       m: Moment)
    requires Remembers(l, tr, name) && Clocked(tr, clock) && clock < m.clock
    requires Ordered(e, clock, false) && BeginLike(e, l, m.clock)
    requires forall i :: 0 <= i < |tr| ==>
               Told(e, tr[i].clock, Live(tr, i, name) && !Loses(m, name), Starts(tr, i, name))
    requires m.started == Some(name) && name in m.online
    ensures NameOk(OneMore(e, m.clock), tr + [m], name, m.clock)
  {
    var n := OneMore(e, m.clock);
    OneMoreStarts(e, m.clock);
    BeginTwice(n, e, l, m.clock);
    OrderedStart(e, clock, m.clock);
    hide Told, Live, Starts, Ordered, OneMore, BeginLike, Begun, Loses, Recorded;
    forall i | 0 <= i < |tr|
      ensures Told(n, tr[i].clock, Live(tr, i, name) && !Loses(m, name), Starts(tr, i, name) + 1)
    {
      ToldStart(e, tr[i].clock, Live(tr, i, name) && !Loses(m, name), Starts(tr, i, name), m.clock);
    }
    RememberMore(l, n, tr, name, m);
  }

  /** An interval that was left open ends first, and so does all that is told of it. */
  lemma {:induction false} DisplacedTells(l: seq<Interval>, tr: seq<Moment>, name: string, clock: nat, m: Moment)
    requires NameOk(l, tr, name, clock) && Clocked(tr, clock) && m.dropped != Some(name) && clock < m.clock
    ensures
      var (e, at) := Displaced(l, name, clock, m);
      && Ordered(e, at, false) && BeginLike(e, l, m.clock)
      && forall i :: 0 <= i < |tr| ==>
           Told(e, tr[i].clock, Live(tr, i, name) && !Loses(m, name), Starts(tr, i, name))
  {
    var e := Displaced(l, name, clock, m).0;
    hide Live, Starts, Begun, Recorded;
    if m.evicted == Some(name) {
    } else if IsOpen(l) {
      EndedStarts(l, clock + 1);
      OrderedEnd(l, clock, clock + 1);
      hide Ended, Ordered, BeginLike, Told, IsOpen;
      forall i | 0 <= i < |tr|
        ensures Told(e, tr[i].clock, Live(tr, i, name), Starts(tr, i, name))
      {
        ToldEnd(l, tr[i].clock, Live(tr, i, name), Starts(tr, i, name), clock + 1);
      }
    } else {
      assert BeginLike(l, l, m.clock);
      hide Told, BeginLike;
    }
  }

  lemma {:induction false} StartedKeeps(l: seq<Interval>, tr: seq<Moment>, name: string, clock: nat, m: Moment)
    requires NameOk(l, tr, name, clock) && Clocked(tr, clock)
    requires Started(l, OneMore(Displaced(l, name, clock, m).0, m.clock), name, clock, m)
    ensures NameOk(OneMore(Displaced(l, name, clock, m).0, m.clock), tr + [m], name, m.clock)
  {
    var (e, at) := Displaced(l, name, clock, m);
    assert clock <= at <= clock + 1;
    hide Live, Starts, OneMore, Begun, Recorded, Told, Ordered, BeginLike, Displaced;
    DisplacedTells(l, tr, name, clock, m);
    StartedFrom(l, e, tr, name, at, m);
  }

  // ----- Every step does one of these things to every name -----

  ghost predicate Evolves(l: seq<Interval>, n: seq<Interval>, name: string, clock: nat, m: Moment) {
    || Untouched(l, n, name, clock, m) || Started(l, n, name, clock, m)
    || Finished(l, n, name, clock, m) || Erased(n, name, clock, m)
  }

  lemma {:induction false} EvolvedOk(l: seq<Interval>, n: seq<Interval>, tr: seq<Moment>, name: string, clock: nat,
                                     m: Moment)
    requires NameOk(l, tr, name, clock) && Clocked(tr, clock) && Evolves(l, n, name, clock, m)
    ensures NameOk(n, tr + [m], name, m.clock)
  {
    hide NameOk, Clocked, Ended, OneMore, Displaced, Records;
    if Untouched(l, n, name, clock, m) {
      UntouchedKeeps(l, tr, name, clock, m);
    } else if Started(l, n, name, clock, m) {
      StartedKeeps(l, tr, name, clock, m);
    } else if Finished(l, n, name, clock, m) {
      FinishedKeeps(l, tr, name, clock, m);
    } else {
      ErasedKeeps(l, tr, name, clock, m);
    }
  }

  /** A name whose last interval is open is online. */
  ghost predicate OpenIsOnline(s: State) {
    forall name :: IsOpen(IntervalsOf(s, name)) ==> name in s.agents.at
  }

  lemma ClosedIntervals(s: State, name: string)
    ensures
      var t := Closed(s, name);
      var open := IsOpen(IntervalsOf(s, name));
      && t.clock == s.clock + (if open then 1 else 0) && t.agents == s.agents
      && forall x: string ::
           IntervalsOf(t, x) == if x == name && open then Ended(IntervalsOf(s, x), s.clock + 1) else IntervalsOf(s, x)
  {
  }

  lemma OpenedIntervals(s: State, name: string)
    ensures
      var t := Opened(s, name);
      && t.clock == s.clock + 1 && t.agents == s.agents
      && forall x: string ::
           IntervalsOf(t, x) == if x == name then OneMore(IntervalsOf(s, x), s.clock + 1) else IntervalsOf(s, x)
  {
  }

  lemma ForgottenIntervals(s: State, name: string)
    ensures
      var t := Forgotten(s, name);
      && t.clock == s.clock && t.agents == s.agents.Delete(name)
      && forall x: string :: IntervalsOf(t, x) == if x == name then [] else IntervalsOf(s, x)
  {
  }

  lemma LeftEvolves(c: Config, s: State, name: string, sock: Option<nat>, now: int, x: string, m: Moment)
    requires OpenIsOnline(s) && m.started.None? && m.dropped.None? && m.evicted.None?
    requires m.clock == Left(c, s, name, sock, now).clock && m.online == Left(c, s, name, sock, now).agents.at.Keys
    ensures Evolves(IntervalsOf(s, x), IntervalsOf(Left(c, s, name, sock, now), x), x, s.clock, m)
  {
    hide IsOpen, IntervalsOf;
    assert IsOpen(IntervalsOf(s, x)) ==> x in s.agents.at;
    if name in s.agents.at && (sock.Some? ==> s.agents.at[name].sock == sock.value) {
      var d := s.(agents := s.agents.Delete(name));
      ClosedIntervals(d, name);
      SameIntervals(s, d);
      WaitingIntervals(c, Closed(d, name), name, s.agents.at[name].teams, now);
      hide Ended, Closed, Without, Waiting;
    }
  }

  lemma SameIntervals(s: State, t: State)
    requires t.intervals == s.intervals
    ensures forall x: string :: IntervalsOf(t, x) == IntervalsOf(s, x)
  {
  }

  lemma WaitingIntervals(c: Config, s: State, name: string, teams: set<string>, now: int)
    ensures
      var t := Waiting(c, s, name, teams, now);
      t.clock == s.clock && t.agents == s.agents && forall x: string :: IntervalsOf(t, x) == IntervalsOf(s, x)
  {
  }

  lemma TouchedIntervals(c: Config, s: State, name: string)
    ensures
      var t, e := Touched(c.seenCapacity, s, name), Evicts(c, s, name);
      && t.seen == LessOne(Without(s.seen, name) + [name], e)
      && t == s.(seen := t.seen, intervals := t.intervals)
      && forall x: string :: IntervalsOf(t, x) == if e == Some(x) then [] else IntervalsOf(s, x)
  {
    hide Without;
  }

  /**
   * What a fresh entry does to the intervals: an evicted name's go, the old name's go, a displaced entry's end, and
   * one starts.
   */
  lemma AdmittedIntervals(c: Config, s: State, q: Request)
    requires Verdict(s, q).Registered? && !Renewed(s, q) && OpenIsOnline(s)
    ensures
      var t, evicted := Admitted(c, s, q), Evicts(c, s, q.name);
      var mine := Held(s.agents, s.agents.order, q.sock, q.name);
      var l := if evicted == Some(q.name) then [] else IntervalsOf(s, q.name);
      var open := IsOpen(l);
      && t.agents.at.Keys == s.agents.at.Keys - (if mine.Some? then {mine.value} else {}) + {q.name}
      && t.clock == s.clock + (if open then 2 else 1) && mine != Some(q.name)
      && forall x: string ::
           IntervalsOf(t, x) ==
             if x == q.name then OneMore(if open then Ended(l, s.clock + 1) else l, t.clock)
             else if mine == Some(x) || evicted == Some(x) then [] else IntervalsOf(s, x)
  {
    hide IsValid, Parse, NoDup, TeamsFor, Touched, Held, Forgotten, Without, Closed, Welcomed, Opened, OneMore, Ended;
    hide IntervalsOf, IsOpen, Evicts, OpenIsOnline;
    var mine := Held(s.agents, s.agents.order, q.sock, q.name);
    HeldIs(s.agents, s.agents.order, q.sock, q.name);
    var t0 := Touched(c.seenCapacity, s, q.name);
    TouchedIntervals(c, s, q.name);
    ForgottenIntervals(t0, if mine.Some? then mine.value else q.name);
    var t1 := if mine.Some? then Forgotten(t0, mine.value) else t0;
    var e := if q.name in s.agents.at then Closed(t1.(agents := t1.agents.Delete(q.name)), q.name) else t1;
    NotOpenOffline(s, t1, q.name);
    DisplacedIntervals(s, t1, q.name);
    var a := Agent(Parse(q.name), q.sock, TeamsFor(s, q), q.channelCapable, q.ccPid, q.cwd);
    var w := Welcomed(e, q.name);
    WelcomedIntervals(e, q.name, a);
    OpenedIntervals(w.(agents := w.agents.Set(q.name, a)), q.name);
    assert Admitted(c, s, q) == Opened(w.(agents := w.agents.Set(q.name, a)), q.name);
    hide Admitted;
  }

  lemma NothingIsOpen()
    ensures !IsOpen([])
  {
  }

  lemma NotOpenOffline(s: State, t: State, name: string)
    requires OpenIsOnline(s) && name !in s.agents.at
             ==> IntervalsOf(t, name) == IntervalsOf(s, name) || IntervalsOf(t, name) == []
    requires OpenIsOnline(s)
    ensures name !in s.agents.at ==> !IsOpen(IntervalsOf(t, name))
  {
  }

  lemma WelcomedIntervals(s: State, name: string, a: Agent)
    ensures
      var w := Welcomed(s, name);
      && w.clock == s.clock && w.agents == s.agents
      && forall x: string :: IntervalsOf(w.(agents := w.agents.Set(name, a)), x) == IntervalsOf(s, x)
  {
    hide Without;
  }

  /** A displaced entry's last interval ends. */
  lemma DisplacedIntervals(s: State, t: State, name: string)
    requires name !in s.agents.at ==> !IsOpen(IntervalsOf(t, name))
    ensures
      var e := if name in s.agents.at then Closed(t.(agents := t.agents.Delete(name)), name) else t;
      var open := IsOpen(IntervalsOf(t, name));
      && e.agents == (if name in s.agents.at then t.agents.Delete(name) else t.agents)
      && e.clock == t.clock + (if open then 1 else 0)
      && forall x: string :: IntervalsOf(e, x) ==
           if x == name && open then Ended(IntervalsOf(t, x), t.clock + 1) else IntervalsOf(t, x)
  {
    hide Closed, Ended, Without, IsOpen, IntervalsOf;
    if name in s.agents.at {
      var d := t.(agents := t.agents.Delete(name));
      ClosedIntervals(d, name);
      SameIntervals(t, d);
    }
  }

  lemma {:induction false} RenewedEvolves(c: Config, s: State, q: Request, x: string, m: Moment)
    requires Inv(s) && OpenIsOnline(s) && Verdict(s, q).Registered? && Renewed(s, q) && m == After(c, s, Enter(q))
    ensures Evolves(IntervalsOf(s, x), IntervalsOf(Admitted(c, s, q), x), x, s.clock, m)
  {
    hide Held, Inv, Parse, IsValid, Without, Touched, Evicts, IsOpen, After, IntervalsOf;
    NoOther(s, q);
    TouchedIntervals(c, s, q.name);
    AfterEntering(c, s, q);
    assert IsOpen(IntervalsOf(s, x)) ==> x in s.agents.at;
    hide OpenIsOnline, Verdict;
    SameIntervals(Touched(c.seenCapacity, s, q.name), Admitted(c, s, q));
  }

  lemma {:induction false} AdmittedEvolves(c: Config, s: State, q: Request, x: string, m: Moment)
    requires Inv(s) && OpenIsOnline(s) && Verdict(s, q).Registered? && m == After(c, s, Enter(q))
    ensures Evolves(IntervalsOf(s, x), IntervalsOf(Admitted(c, s, q), x), x, s.clock, m)
  {
    hide Inv, Admitted, IsValid, OneMore, Ended, Evicts, Held;
    assert IsOpen(IntervalsOf(s, x)) ==> x in s.agents.at;
    hide IntervalsOf, IsOpen, OpenIsOnline;
    if Renewed(s, q) {
      hide Evolves;
      RenewedEvolves(c, s, q, x, m);
    } else {
      AdmittedIntervals(c, s, q);
      AfterEntering(c, s, q);
      NothingIsOpen();
      hide After;
    }
  }

  /** Every step does one of four things to the intervals of a name. */
  lemma {:induction false} StepEvolves(c: Config, s: State, i: Input, x: string)
    requires Inv(s) && OpenIsOnline(s)
    ensures Evolves(IntervalsOf(s, x), IntervalsOf(Step(c, s, i), x), x, s.clock, After(c, s, i))
  {
    hide Admitted, Left, IsValid, Inv;
    var m := After(c, s, i);
    assert IsOpen(IntervalsOf(s, x)) ==> x in s.agents.at;
    match i
    case Enter(q) =>
      if Verdict(s, q).Registered? {
        AdmittedEvolves(c, s, q, x, m);
      }
    case Leave(name, sock, now) => LeftEvolves(c, s, name, sock, now, x, m);
    case Orphan(host, ccPid, now) =>
      var found := HostPidMatches(s.agents, s.agents.order, host, ccPid);
      if host != "" && found.Some? {
        LeftEvolves(c, s, found.value, None, now, x, m);
      }
    case TimeOut(t) =>
    case Change(_, _, _) =>
  }

  lemma {:induction false} StepKeeps(c: Config, s: State, i: Input)
    requires Inv(s)
    ensures Inv(Step(c, s, i))
  {
    hide Inv, Admitted, Left, GivenUp;
    match i
    case Enter(q) =>
      if Verdict(s, q).Registered? {
        AdmittedKeeps(c, s, q);
      }
    case Leave(name, sock, now) => LeftKeeps(c, s, name, sock, now);
    case Orphan(host, ccPid, now) =>
      var found := HostPidMatches(s.agents, s.agents.order, host, ccPid);
      if found.Some? {
        LeftKeeps(c, s, found.value, None, now);
      }
    case TimeOut(t) => GivenUpKeeps(s, t);
    case Change(name, teams, channelCapable) => ChangeKeeps(s, name, teams, channelCapable);
  }

  lemma ChangeKeeps(s: State, name: string, teams: set<string>, channelCapable: bool)
    requires Inv(s)
    ensures name in s.agents.at ==>
              Inv(s.(agents := s.agents.Set(name,
                                            s.agents.at[name].(teams := teams, channelCapable := channelCapable))))
  {
    if name in s.agents.at {
      AddedKeeps(s, name, s.agents.at[name].(teams := teams, channelCapable := channelCapable));
    }
  }

  lemma {:induction false} RunKeeps(c: Config, inputs: seq<Input>)
    ensures Inv(Run(c, inputs))
  {
    hide Step;
    if inputs != [] {
      RunKeeps(c, inputs[..|inputs| - 1]);
      StepKeeps(c, Run(c, inputs[..|inputs| - 1]), inputs[|inputs| - 1]);
    }
  }

  ghost predicate AllRemembered(s: State, tr: seq<Moment>) {
    && Clocked(tr, s.clock)
    && forall x: string :: NameOk(IntervalsOf(s, x), tr, x, s.clock) && (Recorded(tr, x) ==> x in s.agents.at)
  }

  lemma NothingToRemember()
    ensures AllRemembered(INITIAL, [])
  {
  }

  lemma OkIsOpenIsOnline(s: State, tr: seq<Moment>)
    requires AllRemembered(s, tr)
    ensures OpenIsOnline(s)
  {
    hide Remembers, Recorded;
    forall x: string | IsOpen(IntervalsOf(s, x))
      ensures x in s.agents.at
    {
      assert NameOk(IntervalsOf(s, x), tr, x, s.clock);
    }
  }

  lemma {:induction false} StepRemembers(c: Config, s: State, tr: seq<Moment>, i: Input)
    requires Inv(s) && AllRemembered(s, tr)
    ensures AllRemembered(Step(c, s, i), tr + [After(c, s, i)])
  {
    OkIsOpenIsOnline(s, tr);
    hide Inv, NameOk, OpenIsOnline, IntervalsOf, Step, Evolves, Recorded;
    var t, m := Step(c, s, i), After(c, s, i);
    forall x: string
      ensures NameOk(IntervalsOf(t, x), tr + [m], x, t.clock) && (Recorded(tr + [m], x) ==> x in t.agents.at)
    {
      StepEvolves(c, s, i, x);
      EvolvedOk(IntervalsOf(s, x), IntervalsOf(t, x), tr, x, s.clock, m);
      RecordedGrows(tr, m, x);
    }
    StepEvolves(c, s, i, "");
    ClockGrows(IntervalsOf(s, ""), IntervalsOf(t, ""), "", s.clock, m);
  }

  lemma ClockGrows(l: seq<Interval>, n: seq<Interval>, name: string, clock: nat, m: Moment)
    requires Evolves(l, n, name, clock, m)
    ensures clock <= m.clock
  {
  }

  /** The interval lists of all names tell the truth about the run. */
  lemma {:induction false} RunRemembers(c: Config, inputs: seq<Input>)
    ensures AllRemembered(Run(c, inputs), Trace(c, inputs))
  {
    hide AllRemembered, Step, After;
    if inputs == [] {
      NothingToRemember();
    } else {
      var before := inputs[..|inputs| - 1];
      RunRemembers(c, before);
      RunKeeps(c, before);
      StepRemembers(c, Run(c, before), Trace(c, before), inputs[|inputs| - 1]);
    }
  }

  // ----- What is remembered -----

  /** Moments match states: after the first i + 1 steps, those in `online` are online. */
  lemma {:induction false} TraceIsRun(c: Config, inputs: seq<Input>, i: nat)
    requires i < |inputs|
    ensures |Trace(c, inputs)| == |inputs|
    ensures Trace(c, inputs)[i].online == Run(c, inputs[..i + 1]).agents.at.Keys
  {
    hide Step;
    var before := inputs[..|inputs| - 1];
    if i < |before| {
      TraceIsRun(c, before, i);
      assert before[..i + 1] == inputs[..i + 1];
    } else {
      assert inputs[..i + 1] == inputs;
      if before != [] {
        TraceIsRun(c, before, 0);
      }
    }
  }

  /**
   * Each name's list is ordered and disjoint, has at most eight intervals, and ends open exactly when the name is
   * online and was not evicted since it came online.
   */
  lemma {:induction false} IntervalsInOrder(c: Config, inputs: seq<Input>, name: string)
    ensures
      var s := Run(c, inputs);
      Ordered(IntervalsOf(s, name), s.clock, Recorded(Trace(c, inputs), name))
  {
    RunRemembers(c, inputs);
    hide Run, Trace;
    assert NameOk(IntervalsOf(Run(c, inputs), name), Trace(c, inputs), name, Run(c, inputs).clock);
  }

  /**
   * At moment `i` both names were online and recorded, neither was forgotten since, and both intervals are retained.
   */
  ghost predicate TogetherAt(tr: seq<Moment>, i: nat, a: string, b: string)
    requires i < |tr|
  {
    && Live(tr, i, a) && Live(tr, i, b)
    && Starts(tr, i, a) < MAX_INTERVALS_PER_NAME && Starts(tr, i, b) < MAX_INTERVALS_PER_NAME
  }

  /** So both were online then. */
  lemma TogetherIsOnline(tr: seq<Moment>, i: nat, a: string, b: string)
    requires i < |tr| && TogetherAt(tr, i, a, b)
    ensures a in tr[i].online && b in tr[i].online
  {
    assert tr[..i + 1][|tr[..i + 1]| - 1] == tr[i];
  }

  lemma MeetMeans(a: seq<Interval>, b: seq<Interval>, clock: nat, onlineA: bool, onlineB: bool, j: nat, k: nat)
    requires Ordered(a, clock, onlineA) && Ordered(b, clock, onlineB) && j < |a| && k < |b|
    ensures
      var t := if a[j].start < b[k].start then b[k].start else a[j].start;
      Meet(a[j], b[k], clock + 1) <==> Within(a[j], t) && Within(b[k], t)
  {
  }

  lemma WithinMeets(a: Interval, b: Interval, t: nat, clock: nat)
    requires Within(a, t) && Within(b, t) && t <= clock
    ensures Meet(a, b, clock + 1)
  {
  }

  ghost predicate EverTogether(tr: seq<Moment>, a: string, b: string) {
    exists i: nat :: i < |tr| && TogetherAt(tr, i, a, b)
  }

  /** What the lists of two names tell about their having been online together. */
  lemma {:induction false} OverlapMeans(a: seq<Interval>, b: seq<Interval>, tr: seq<Moment>, x: string, y: string,
                                        clock: nat)
    requires NameOk(a, tr, x, clock) && NameOk(b, tr, y, clock) && Clocked(tr, clock)
    ensures Overlap(a, b, clock + 1) <==> EverTogether(tr, x, y)
  {
    hide Live, Starts, Ordered;
    if Overlap(a, b, clock + 1) {
      var j: nat, k: nat :| j < |a| && k < |b| && Meet(a[j], b[k], clock + 1);
      MeetMeans(a, b, clock, Recorded(tr, x), Recorded(tr, y), j, k);
      SizeOk(a, clock, Recorded(tr, x));
      SizeOk(b, clock, Recorded(tr, y));
      var t := if a[j].start < b[k].start then b[k].start else a[j].start;
      assert IsMoment(a[j].start, tr) && IsMoment(b[k].start, tr);
      var i: nat :| i < |tr| && tr[i].clock == t;
      assert Told(a, t, Live(tr, i, x), Starts(tr, i, x)) && Told(b, t, Live(tr, i, y), Starts(tr, i, y));
      assert TogetherAt(tr, i, x, y);
    }
    if i: nat :| i < |tr| && TogetherAt(tr, i, x, y) {
      var t := tr[i].clock;
      assert Told(a, t, Live(tr, i, x), Starts(tr, i, x)) && Told(b, t, Live(tr, i, y), Starts(tr, i, y));
      var j, k := |a| - 1 - Starts(tr, i, x), |b| - 1 - Starts(tr, i, y);
      assert Within(a[j], t) && Within(b[k], t);
      WithinMeets(a[j], b[k], t, clock);
    }
  }

  lemma SizeOk(l: seq<Interval>, clock: nat, online: bool)
    requires Ordered(l, clock, online)
    ensures |l| <= MAX_INTERVALS_PER_NAME
  {
  }

  /**
   * The registry calls names concurrent exactly if two of them were online and recorded at the same moment of the
   * run, neither of the two forgotten since (renamed away or evicted), nor eight times back online since.
   */
  lemma {:induction false} ConcurrentIffTogether(c: Config, inputs: seq<Input>, names: seq<string>)
    ensures EverConcurrent(Run(c, inputs), names) <==>
            exists k, l :: 0 <= k < l < |names| && EverTogether(Trace(c, inputs), names[k], names[l])
  {
    RunRemembers(c, inputs);
    hide Run, Trace, EverTogether, Overlap;
    var s, tr := Run(c, inputs), Trace(c, inputs);
    forall k, l | 0 <= k < l < |names|
      ensures Overlap(IntervalsOf(s, names[k]), IntervalsOf(s, names[l]), s.clock + 1)
              <==> EverTogether(tr, names[k], names[l])
    {
      PairOverlaps(s, tr, names[k], names[l]);
    }
    hide AllRemembered;
  }

  lemma PairOverlaps(s: State, tr: seq<Moment>, a: string, b: string)
    requires AllRemembered(s, tr)
    ensures Overlap(IntervalsOf(s, a), IntervalsOf(s, b), s.clock + 1) <==> EverTogether(tr, a, b)
  {
    hide EverTogether, Overlap, NameOk;
    OverlapMeans(IntervalsOf(s, a), IntervalsOf(s, b), tr, a, b, s.clock);
  }

  // ----- The seen names -----

  /** When the name was last registered, and -1 if it never was. */
  function LastRegistered(tr: seq<Moment>, name: string): int {
    if tr == [] then -1
    else if tr[|tr| - 1].registered == Some(name) then |tr| - 1
    else LastRegistered(tr[..|tr| - 1], name)
  }

  lemma {:induction false} LastRegisteredBound(tr: seq<Moment>, name: string)
    ensures -1 <= LastRegistered(tr, name) < |tr|
  {
    if tr != [] {
      LastRegisteredBound(tr[..|tr| - 1], name);
    }
  }

  ghost predicate StillSeen(tr: seq<Moment>, name: string) {
    var i := LastRegistered(tr, name);
    0 <= i < |tr| && tr[i].evicted != Some(name) && Kept(tr, i, name)
  }

  /** The seen names are those registered and not forgotten since, in the order of their last registration. */
  ghost predicate SeenOk(s: State, tr: seq<Moment>) {
    && NoDup(s.seen) && Increasing(s.seen, name => LastRegistered(tr, name))
    && forall name :: name in s.seen <==> StillSeen(tr, name)
  }

  lemma {:induction false} LastRegisteredGrows(tr: seq<Moment>, m: Moment, name: string)
    ensures LastRegistered(tr + [m], name) == if m.registered == Some(name) then |tr| else LastRegistered(tr, name)
    ensures StillSeen(tr + [m], name) <==>
            if m.registered == Some(name) then m.evicted != Some(name) else StillSeen(tr, name) && !Loses(m, name)
  {
    assert (tr + [m])[..|tr|] == tr && forall i :: 0 <= i < |tr| ==> (tr + [m])[i] == tr[i];
    LastRegisteredBound(tr, name);
    if m.registered != Some(name) && LastRegistered(tr, name) >= 0 {
      KeptGrows(tr, m, LastRegistered(tr, name), name);
    }
  }

  lemma {:induction false} AdmittedSeen(c: Config, s: State, q: Request)
    requires Inv(s) && Verdict(s, q).Registered?
    ensures
      var mine := Held(s.agents, s.agents.order, q.sock, q.name);
      mine != Some(q.name) && Admitted(c, s, q).seen == Reseen(s.seen, q.name, Evicts(c, s, q.name), mine)
  {
    hide NoDup, GoneOk, AgentOk, OneNameEach, IsValid, Parse, TeamsFor, Without, Held, Evicts;
    HeldIs(s.agents, s.agents.order, q.sock, q.name);
    TouchedIntervals(c, s, q.name);
    hide Touched;
    if Renewed(s, q) {
      NoOther(s, q);
    }
  }

  lemma NoOther(s: State, q: Request)
    requires Inv(s) && Renewed(s, q)
    ensures Held(s.agents, s.agents.order, q.sock, q.name).None?
  {
    HeldIs(s.agents, s.agents.order, q.sock, q.name);
  }

  function Reseen(seen: seq<string>, name: string, evicted: Option<string>, dropped: Option<string>): seq<string> {
    LessOne(LessOne(Without(seen, name) + [name], evicted), dropped)
  }

  function LessOne(names: seq<string>, name: Option<string>): seq<string> {
    if name.Some? then Without(names, name.value) else names
  }

  lemma {:induction false} LessOneKeeps(names: seq<string>, name: Option<string>, f: string -> int)
    requires NoDup(names) && Increasing(names, f)
    ensures NoDup(LessOne(names, name)) && Increasing(LessOne(names, name), f)
    ensures forall y :: y in LessOne(names, name) <==> y in names && name != Some(y)
  {
    if name.Some? {
      WithoutMembers(names, name.value);
      WithoutNoDup(names, name.value);
      WithoutIncreasing(names, name.value, f);
      hide Without, NoDup, Increasing;
    }
  }

  /** A name is put last, and others are taken out. */
  lemma {:induction false} ReseenKeeps(seen: seq<string>, name: string, evicted: Option<string>,
                                       dropped: Option<string>, f: string -> int, g: string -> int)
    requires NoDup(seen) && Increasing(seen, f)
    requires forall y :: y != name ==> g(y) == f(y) && f(y) < g(name)
    ensures
      var n := Reseen(seen, name, evicted, dropped);
      && NoDup(n) && Increasing(n, g)
      && forall y :: y in n <==> (y == name || y in seen) && dropped != Some(y) && evicted != Some(y)
  {
    WithoutMembers(seen, name);
    WithoutNoDup(seen, name);
    WithoutIncreasing(seen, name, f);
    var w := Without(seen, name);
    TouchIncreases(w, name, f, g);
    hide Without, NoDup, Increasing, LessOne;
    LessOneKeeps(w + [name], evicted, g);
    LessOneKeeps(LessOne(w + [name], evicted), dropped, g);
  }

  lemma {:induction false} EnteredSeen(c: Config, s: State, tr: seq<Moment>, q: Request)
    requires Inv(s) && Verdict(s, q).Registered? && SeenOk(s, tr)
    ensures SeenOk(Admitted(c, s, q), tr + [After(c, s, Enter(q))])
  {
    var m := After(c, s, Enter(q));
    AdmittedSeen(c, s, q);
    AfterEntering(c, s, q);
    hide After, Inv, Verdict, Admitted, StillSeen, Held, Reseen, Evicts, NoDup, Increasing;
    RegisteredSeen(s, Admitted(c, s, q), tr, m, q.name);
  }

  lemma AfterEntering(c: Config, s: State, q: Request)
    requires Verdict(s, q).Registered?
    ensures
      var m := After(c, s, Enter(q));
      && m.registered == Some(q.name) && m.started == (if Renewed(s, q) then None else Some(q.name))
      && m.dropped == Held(s.agents, s.agents.order, q.sock, q.name) && m.evicted == Evicts(c, s, q.name)
      && m.online == Admitted(c, s, q).agents.at.Keys && m.clock == Admitted(c, s, q).clock
  {
    hide Admitted, Held, Evicts, IsValid;
  }

  lemma {:induction false} RegisteredSeen(s: State, t: State, tr: seq<Moment>, m: Moment, name: string)
    requires SeenOk(s, tr) && m.registered == Some(name) && m.dropped != Some(name)
    requires t.seen == Reseen(s.seen, name, m.evicted, m.dropped)
    ensures SeenOk(t, tr + [m])
  {
    var f, g := (n: string) => LastRegistered(tr, n), (n: string) => LastRegistered(tr + [m], n);
    hide StillSeen, NoDup, Increasing, Reseen;
    forall n: string
      ensures g(n) == if n == name then |tr| else f(n)
      ensures f(n) < |tr|
      ensures StillSeen(tr + [m], n) <==> if n == name then m.evicted != Some(n) else StillSeen(tr, n) && !Loses(m, n)
    {
      LastRegisteredGrows(tr, m, n);
      LastRegisteredBound(tr, n);
    }
    SameIncreasing(s.seen, (n: string) => LastRegistered(tr, n), f);
    ReseenKeeps(s.seen, name, m.evicted, m.dropped, f, g);
    SameIncreasing(t.seen, g, (n: string) => LastRegistered(tr + [m], n));
  }

  lemma SameIncreasing(s: seq<string>, f: string -> int, g: string -> int)
    requires Increasing(s, f) && forall n: string :: f(n) == g(n)
    ensures Increasing(s, g)
  {
  }

  lemma OthersKeepSeen(c: Config, s: State, i: Input)
    requires Inv(s)
    requires !(i.Enter? && Verdict(s, i.q).Registered?)
    ensures Step(c, s, i).seen == s.seen
    ensures var m := After(c, s, i); m.registered.None? && m.dropped.None? && m.evicted.None?
  {
    hide NoDup, Without, IsValid, Parse;
  }

  lemma {:induction false} StepSeen(c: Config, s: State, tr: seq<Moment>, i: Input)
    requires Inv(s) && SeenOk(s, tr)
    ensures SeenOk(Step(c, s, i), tr + [After(c, s, i)])
  {
    if i.Enter? && Verdict(s, i.q).Registered? {
      hide After, Admitted, SeenOk;
      EnteredSeen(c, s, tr, i.q);
    } else {
      OthersKeepSeen(c, s, i);
      hide Step, After, Inv, NoDup, StillSeen;
      var m := After(c, s, i);
      forall name
        ensures LastRegistered(tr + [m], name) == LastRegistered(tr, name)
                && (StillSeen(tr + [m], name) <==> StillSeen(tr, name))
      {
        LastRegisteredGrows(tr, m, name);
      }
      hide LastRegistered;
    }
  }

  /** The seen names are exactly the names registered and not forgotten since, in order of their last registration. */
  lemma {:induction false} RunSeen(c: Config, inputs: seq<Input>)
    ensures SeenOk(Run(c, inputs), Trace(c, inputs))
  {
    if inputs == [] {
      hide Step, After;
      assert forall name :: !StillSeen([], name);
    } else {
      hide SeenOk, Step, After, Inv;
      var before := inputs[..|inputs| - 1];
      RunSeen(c, before);
      RunKeeps(c, before);
      StepSeen(c, Run(c, before), Trace(c, before), inputs[|inputs| - 1]);
    }
  }

  /** Who has to make room for a name is the one of the others that was registered least recently. */
  lemma {:induction false} OldestIsEvicted(c: Config, inputs: seq<Input>, name: string)
    ensures
      var s, tr := Run(c, inputs), Trace(c, inputs);
      var e := Evicts(c, s, name);
      e.Some? && e.value != name ==>
        && StillSeen(tr, e.value)
        && forall n :: StillSeen(tr, n) && n != name ==> LastRegistered(tr, e.value) <= LastRegistered(tr, n)
  {
    RunSeen(c, inputs);
    hide Run, Trace, StillSeen, LastRegistered;
    var s, tr := Run(c, inputs), Trace(c, inputs);
    var w, f := Without(s.seen, name), (n: string) => LastRegistered(tr, n);
    WithoutMembers(s.seen, name);
    SameIncreasing(s.seen, n => LastRegistered(tr, n), f);
    WithoutIncreasing(s.seen, name, f);
    hide Without, NoDup, Increasing;
    if w != [] {
      FirstIsLeast(w, f);
      assert (w + [name])[0] == w[0];
    }
  }

  lemma FirstIsLeast(names: seq<string>, f: string -> int)
    requires Increasing(names, f) && names != []
    ensures forall n :: n in names ==> f(names[0]) <= f(n)
  {
  }

  /** There are never more seen names than the capacity. */
  lemma {:induction false} SeenIsBounded(c: Config, inputs: seq<Input>)
    ensures |Run(c, inputs).seen| <= if c.seenCapacity < 0 then 0 else c.seenCapacity
  {
    if inputs != [] {
      var before, i := inputs[..|inputs| - 1], inputs[|inputs| - 1];
      SeenIsBounded(c, before);
      RunKeeps(c, before);
      hide Step, Inv;
      var s := Run(c, before);
      if i.Enter? && Verdict(s, i.q).Registered? {
        hide Run, Verdict, Admitted;
        EnteredIs(c, s, i.q);
        AdmittedSeen(c, s, i.q);
        ReseenSize(c, s, i.q.name, Held(s.agents, s.agents.order, i.q.sock, i.q.name));
      } else {
        OthersKeepSeen(c, s, i);
      }
    }
  }

  lemma EnteredIs(c: Config, s: State, q: Request)
    requires Verdict(s, q).Registered?
    ensures Step(c, s, Enter(q)) == Admitted(c, s, q)
  {
  }

  lemma {:induction false} ReseenSize(c: Config, s: State, name: string, dropped: Option<string>)
    requires Inv(s) && |s.seen| <= if c.seenCapacity < 0 then 0 else c.seenCapacity
    ensures |Reseen(s.seen, name, Evicts(c, s, name), dropped)| <= if c.seenCapacity < 0 then 0 else c.seenCapacity
  {
    var w := Without(s.seen, name);
    WithoutMembers(s.seen, name);
    WithoutNoDup(s.seen, name);
    NoDupAppend(w, name);
    WithoutFirst(w + [name]);
    var rest := LessOne(w + [name], Evicts(c, s, name));
    if dropped.Some? {
      WithoutMembers(rest, dropped.value);
    }
    hide Without, NoDup;
  }

  lemma {:induction false} SelectIncreasing(names: seq<string>, c: Criterion, f: string -> int)
    requires Increasing(names, f)
    ensures Increasing(Select(names, c), f)
  {
    if names != [] {
      var p, x := names[..|names| - 1], names[|names| - 1];
      SelectIncreasing(p, c, f);
      SelectMembers(p, c);
      assert forall y :: y in p ==> f(y) < f(x);
    }
  }

  /**
   * A two-part address that matches several seen names stands for the one registered last, unless two of them
   * were online together as far as is remembered; then it is ambiguous.
   */
  lemma {:induction false} TwoPartAddress(c: Config, inputs: seq<Input>, query: string)
    requires (':' in query) != ('@' in query)
    ensures
      var s, tr := Run(c, inputs), Trace(c, inputs);
      var matches := MatchNames(query, s.seen);
      && (forall n :: n in matches ==> StillSeen(tr, n))
      && (match ResolvedSeen(s, query)
          case NotOnline => matches == []
          case Online(name) =>
            && name in matches && (forall n :: n in matches ==> LastRegistered(tr, n) <= LastRegistered(tr, name))
            && forall k, l :: 0 <= k < l < |matches| ==> !EverTogether(tr, matches[k], matches[l])
          case Several(names) =>
            names == matches && exists k, l :: 0 <= k < l < |matches| && EverTogether(tr, matches[k], matches[l]))
  {
    var s, tr := Run(c, inputs), Trace(c, inputs);
    RunSeen(c, inputs);
    ConcurrentIffTogether(c, inputs, MatchNames(query, s.seen));
    hide Run, Trace, EverTogether, EverConcurrent, StillSeen, LastRegistered, FirstTwo, NoDup, Increasing, MatchNames;
    LastMatch(s.seen, query, name => LastRegistered(tr, name));
  }

  /** A two-part address selects a part of the names, in their order. */
  lemma {:induction false} LastMatch(names: seq<string>, query: string, f: string -> int)
    requires Increasing(names, f) && (':' in query) != ('@' in query)
    ensures
      var matches := MatchNames(query, names);
      && (forall n :: n in matches ==> n in names)
      && (matches != [] ==> forall n :: n in matches ==> f(n) <= f(matches[|matches| - 1]))
  {
    hide FirstTwo;
    var criterion := if ':' in query then BySessionUser(FirstTwo(query, ':').0, FirstTwo(query, ':').1)
                     else ByUserHost(FirstTwo(query, '@').0, FirstTwo(query, '@').1);
    var matches := Select(names, criterion);
    assert MatchNames(query, names) == matches;
    SelectMembers(names, criterion);
    SelectIncreasing(names, criterion, f);
    hide Select, MatchNames, Increasing;
    if matches != [] {
      LastIsLargest(matches, f);
    }
  }

  lemma LastIsLargest(names: seq<string>, f: string -> int)
    requires Increasing(names, f) && names != []
    ensures forall n :: n in names ==> f(n) <= f(names[|names| - 1])
  {
  }
}
