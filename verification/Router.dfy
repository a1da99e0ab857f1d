/**
 * Delivering messages (src/hub/router.ts): to one agent, to a team, and from the hub itself, each leaving a
 * copy in the recipients' mailbox slots.
 */
module Router {
  import opened Options
  import opened JsMap
  import opened Mailbox
  import opened Names
  import R = Registry
  import T = Teams

  const SYSTEM := "system@claude-net"
  const DASHBOARD_AGENT_NAME := "dashboard@hub"
  const DASHBOARD_SHORT_NAME := "dashboard"

  /** A field of a frame, before anyone has looked at its type. */
  datatype Field = Absent | NotText | Text(value: string)

  datatype Message = Message(id: nat, from: string, kind: string, content: string, replyTo: Option<string>,
                             team: Option<string>, sentAt: int)

  /** What becomes of a message for one recipient: nobody knows him, or it is recorded with an outcome. */
  datatype Fate = Unknown | Recorded(outcome: Outcome, reason: Option<Reason>)

  datatype Refusal = InvalidContent | NoDashboard | Ambiguous | IsOffline | HasNoChannel | TransportFailed

  datatype DirectResult = Sent(toDashboard: bool) | Refused(reason: Refusal, mailbox: bool)

  datatype TeamResult =
    | TeamSent(deliveredTo: nat, skippedNoChannel: nat, mailbox: bool)
    | TeamRefused(mailbox: bool)

  datatype Notice = Notified | NotNotified(ambiguous: bool, reason: Option<Reason>)

  function Letter(m: Message, to: string, outcome: Outcome, reason: Option<Reason>): Entry {
    Entry(m.id, m.from, to, m.kind, m.content, m.replyTo, m.team, outcome, reason, m.sentAt, None)
  }

  // ----- What becomes of a message -----

  /** Someone online gets it if his channel works; `ok` are those whose socket takes a frame now. */
  function FateOf(reg: R.State, ok: set<string>, name: string): Fate {
    if name !in reg.agents.at then (if name in reg.seen then Recorded(Nak, Some(Offline)) else Unknown)
    else if !reg.agents.at[name].channelCapable then Recorded(Nak, Some(NoChannel))
    else if name in ok then Recorded(Delivered, None)
    else Recorded(Nak, Some(TransportError))
  }

  /** Why a message for a name that is known does not get through, or nothing if it does. */
  predicate Because(reg: R.State, ok: set<string>, name: string, why: Option<Reason>) {
    match why
    case Some(Offline) => name !in reg.agents.at && name in reg.seen
    case Some(NoChannel) => name in reg.agents.at && !reg.agents.at[name].channelCapable
    case Some(TransportError) => name in reg.agents.at && reg.agents.at[name].channelCapable && name !in ok
    case None => name in reg.agents.at && reg.agents.at[name].channelCapable && name in ok
  }

  /** A slot that tells what became of the message. */
  predicate IsRecord(e: Entry, m: Message, to: string, outcome: Outcome, why: Option<Reason>) {
    && e.id == m.id && e.from == m.from && e.to == to && e.kind == m.kind && e.team == m.team && e.sentAt == m.sentAt
    && e.content == CapContent(m.content) && e.replyTo == CapReplyTo(m.replyTo)
    && e.outcome == outcome && e.reason == why && e.readAt == None
  }

  function OutcomeOf(why: Option<Reason>): Outcome {
    if why == None then Delivered else Nak
  }

  lemma FateIs(reg: R.State, ok: set<string>, name: string, why: Option<Reason>)
    ensures Because(reg, ok, name, why) <==> FateOf(reg, ok, name) == Recorded(OutcomeOf(why), why)
    ensures FateOf(reg, ok, name).Unknown? <==> name !in reg.agents.at && name !in reg.seen
  {
  }

  lemma LetterIs(m: Message, to: string, outcome: Outcome, why: Option<Reason>)
    ensures IsRecord(Capped(Letter(m, to, outcome, why)), m, to, outcome, why)
  {
  }

  function Posted(capacity: int, slots: Slots, m: Message, to: string, fate: Fate): Slots {
    if fate.Unknown? then slots else Deposited(capacity, slots, Letter(m, to, fate.outcome, fate.reason))
  }

  /** Whom an address means: an online agent, else someone seen before, else nobody, or too many. */
  ghost function Addressee(reg: R.State, to: string): R.Found {
    var live := R.Resolved(reg, to);
    if live.NotOnline? then R.ResolvedSeen(reg, to) else live
  }

  function ReplyTo(f: Field): (r: Option<string>)
    ensures forall v :: r == Some(v) <==> f == Text(v)
  {
    if f.Text? then Some(f.value) else None
  }

  // ----- One agent -----

  predicate ToDashboard(to: string) {
    to == DASHBOARD_AGENT_NAME || to == DASHBOARD_SHORT_NAME
  }

  function DirectAnswer(fate: Fate): DirectResult {
    match fate
    case Unknown => Refused(IsOffline, false)
    case Recorded(Delivered, _) => Sent(false)
    case Recorded(_, Some(Offline)) => Refused(IsOffline, true)
    case Recorded(_, Some(NoChannel)) => Refused(HasNoChannel, true)
    case Recorded(_, _) => Refused(TransportFailed, true)
  }

  // ----- A team -----

  /** The members a team message goes to, and what becomes of it, in the order of the members. */
  function TeamPosted(capacity: int, slots: Slots, reg: R.State, ok: set<string>, m: Message,
                      members: seq<string>): Slots {
    if members == [] then slots
    else
      var before, x := TeamPosted(capacity, slots, reg, ok, m, members[..|members| - 1]), members[|members| - 1];
      if x == m.from then before else Posted(capacity, before, m, x, FateOf(reg, ok, x))
  }

  /** How many members other than the sender meet this fate. */
  function Count(reg: R.State, ok: set<string>, from: string, members: seq<string>, fate: Fate): nat {
    if members == [] then 0
    else
      var x := members[|members| - 1];
      Count(reg, ok, from, members[..|members| - 1], fate) + if x != from && FateOf(reg, ok, x) == fate then 1 else 0
  }

  const DELIVERED := Recorded(Delivered, None)
  const OFFLINE := Recorded(Nak, Some(Offline))
  const NO_CHANNEL := Recorded(Nak, Some(NoChannel))
  const TRANSPORT_ERROR := Recorded(Nak, Some(TransportError))

  lemma CountSnoc(reg: R.State, ok: set<string>, from: string, members: seq<string>, i: nat, fate: Fate)
    requires i < |members|
    ensures Count(reg, ok, from, members[..i + 1], fate) ==
            Count(reg, ok, from, members[..i], fate)
            + if members[i] != from && FateOf(reg, ok, members[i]) == fate then 1 else 0
  {
    assert members[..i + 1][..i] == members[..i];
  }

  lemma NoneYet(capacity: int, slots: Slots, reg: R.State, ok: set<string>, m: Message)
    ensures TeamPosted(capacity, slots, reg, ok, m, []) == slots && Reached(reg, ok, m.from, []) == []
    ensures forall fate :: Count(reg, ok, m.from, [], fate) == 0
  {
  }

  lemma TeamSnoc(capacity: int, slots: Slots, reg: R.State, ok: set<string>, m: Message, members: seq<string>, i: nat)
    requires i < |members|
    ensures
      var before, x := TeamPosted(capacity, slots, reg, ok, m, members[..i]), members[i];
      TeamPosted(capacity, slots, reg, ok, m, members[..i + 1]) ==
      if x == m.from then before else Posted(capacity, before, m, x, FateOf(reg, ok, x))
    ensures Reached(reg, ok, m.from, members[..i + 1]) ==
            Reached(reg, ok, m.from, members[..i])
            + if members[i] != m.from && !FateOf(reg, ok, members[i]).Unknown? then [members[i]] else []
  {
    assert members[..i + 1][..i] == members[..i];
    hide FateOf, Posted;
  }

  /** Each member other than the sender meets exactly one of five fates. */
  lemma {:induction false} FatesAddUp(reg: R.State, ok: set<string>, from: string, members: seq<string>)
    requires NoDup(members)
    ensures Count(reg, ok, from, members, DELIVERED) + Count(reg, ok, from, members, NO_CHANNEL)
            + Count(reg, ok, from, members, TRANSPORT_ERROR) + Count(reg, ok, from, members, OFFLINE)
            + Count(reg, ok, from, members, Unknown) == |members| - if from in members then 1 else 0
  {
    if members != [] {
      var p, x := members[..|members| - 1], members[|members| - 1];
      FatesAddUp(reg, ok, from, p);
      assert members == p + [x] && x !in p;
      hide FateOf, NoDup;
      FateIsOne(reg, ok, x);
    }
  }

  lemma FateIsOne(reg: R.State, ok: set<string>, name: string)
    ensures FateOf(reg, ok, name) in {DELIVERED, NO_CHANNEL, TRANSPORT_ERROR, OFFLINE, Unknown}
  {
  }

  /** Refused if nobody got it and nobody was skipped for want of a channel; else both are counted. */
  predicate TeamTells(r: TeamResult, delivered: nat, skipped: nat, boxed: bool) {
    && (r == TeamSent(delivered, skipped, boxed) <==> delivered > 0 || skipped > 0)
    && (r == TeamRefused(boxed) <==> delivered == 0 && skipped == 0)
  }

  /** The members other than the sender whom a message does not reach for this reason, or does reach. */
  ghost function Those(reg: R.State, ok: set<string>, from: string, members: seq<string>,
                       why: Option<Reason>): set<string> {
    set n | n in members && n != from && Because(reg, ok, n, why)
  }

  /** Each fate is counted once for each such member. */
  lemma {:induction false} CountIsSize(reg: R.State, ok: set<string>, from: string, members: seq<string>,
                                       why: Option<Reason>)
    requires NoDup(members)
    ensures Count(reg, ok, from, members, Recorded(OutcomeOf(why), why)) == |Those(reg, ok, from, members, why)|
  {
    hide FateOf, Because;
    if members != [] {
      var p, x := members[..|members| - 1], members[|members| - 1];
      assert members == p + [x] && x !in p;
      CountIsSize(reg, ok, from, p, why);
      FateIs(reg, ok, x, why);
      hide NoDup;
      var before, now := Those(reg, ok, from, p, why), Those(reg, ok, from, members, why);
      assert now == before + if x != from && Because(reg, ok, x, why) then {x} else {};
    }
  }

  /** The members whose slots a team message reaches, in order. */
  function Reached(reg: R.State, ok: set<string>, from: string, members: seq<string>): seq<string> {
    if members == [] then []
    else
      var x := members[|members| - 1];
      Reached(reg, ok, from, members[..|members| - 1])
      + if x != from && !FateOf(reg, ok, x).Unknown? then [x] else []
  }

  lemma {:induction false} ReachedMembers(reg: R.State, ok: set<string>, from: string, members: seq<string>)
    ensures forall x :: x in Reached(reg, ok, from, members) <==>
                          x in members && x != from && !FateOf(reg, ok, x).Unknown?
  {
    if members != [] {
      var p := members[..|members| - 1];
      ReachedMembers(reg, ok, from, p);
      assert members == p + [members[|members| - 1]];
    }
  }

  /** So whether any slot is reached, and which. */
  lemma ReachedAre(reg: R.State, ok: set<string>, from: string, members: seq<string>)
    ensures forall x :: x in Reached(reg, ok, from, members) <==>
                          x in members && x != from && (x in reg.agents.at || x in reg.seen)
    ensures Reached(reg, ok, from, members) != [] <==>
            exists x :: x in members && x != from && (x in reg.agents.at || x in reg.seen)
  {
    ReachedMembers(reg, ok, from, members);
    var reached := Reached(reg, ok, from, members);
    hide Reached;
    if reached != [] {
      assert reached[0] in reached;
    }
  }

  function LetterFor(reg: R.State, ok: set<string>, m: Message, x: string): Entry
    requires !FateOf(reg, ok, x).Unknown?
  {
    Letter(m, x, FateOf(reg, ok, x).outcome, FateOf(reg, ok, x).reason)
  }

  /** These names come last, in this order, and the slots are within their room. */
  ghost predicate ComeLast(capacity: int, slots: Slots, names: seq<string>) {
    && slots.Wf() && |names| <= |slots.order| <= Room(capacity)
    && forall k :: 0 <= k < |names| ==> slots.order[|slots.order| - |names| + k] == names[k]
  }

  /** As many of the last names as there is room for. */
  function LastOf(names: seq<string>, room: nat): seq<string> {
    if |names| > room then names[|names| - room..] else names
  }

  lemma LastIsPart(names: seq<string>, room: nat, x: string)
    requires x !in names
    ensures x !in LastOf(names, room)
  {
  }

  lemma {:induction false} OneMoreLast(capacity: int, slots: Slots, names: seq<string>, e: Entry)
    requires ComeLast(capacity, slots, LastOf(names, Room(capacity))) && e.to !in names && Inv(capacity, slots)
    ensures ComeLast(capacity, Deposited(capacity, slots, e), LastOf(names + [e.to], Room(capacity)))
  {
    hide Without, NoDup, Deposited, Inv, Capped, LastOf;
    var last := LastOf(names, Room(capacity));
    LastIsPart(names, Room(capacity), e.to);
    var a := slots.order[..|slots.order| - |last|];
    assert slots.order == a + last;
    WithoutConcat(a, last, e.to);
    WithoutAbsent(last, e.to);
    WithoutMembers(a, e.to);
    DepositOrder(capacity, slots, e);
    DepositedKeeps(capacity, slots, e);
    InvShape(capacity, Deposited(capacity, slots, e));
    AppendLast(Without(a, e.to), names, e.to, Room(capacity));
  }

  lemma InvShape(capacity: int, slots: Slots)
    requires Inv(capacity, slots)
    ensures slots.Wf() && |slots.order| <= Room(capacity)
  {
  }

  lemma {:induction false} LastSnoc(names: seq<string>, x: string, room: nat)
    ensures
      var before := LastOf(names, room);
      && |before| <= room
      && LastOf(names + [x], room) ==
         if room == 0 then [] else (if |before| == room then before[1..] else before) + [x]
  {
  }

  lemma {:induction false} EndsWith(v: seq<string>, last: seq<string>, u: seq<string>)
    requires u == v + last
    ensures |last| <= |u| && u[|u| - |last|..] == last
  {
  }

  /** What is appended comes last, even if the first has to go. */
  lemma {:induction false} AppendLast(w: seq<string>, names: seq<string>, x: string, room: nat)
    requires |w| + |LastOf(names, room)| <= room
    ensures
      var t := w + LastOf(names, room) + [x];
      var u := if |t| > room then t[1..] else t;
      var last := LastOf(names + [x], room);
      |last| <= |u| && u[|u| - |last|..] == last
  {
    LastSnoc(names, x, room);
    hide LastOf;
    var before := LastOf(names, room);
    var last := LastOf(names + [x], room);
    var t := w + before + [x];
    if |before| == room {
      assert w == [] && t == before + [x];
      EndsWith([], last, t[1..]);
    } else if |t| > room {
      assert t[1..] == w[1..] + last;
      EndsWith(w[1..], last, t[1..]);
    } else {
      assert t == w + last;
      EndsWith(w, last, t);
    }
  }

  /** The last members the message reached hold it, each with the outcome of his own fate. */
  ghost predicate AllHold(capacity: int, slots: Slots, reg: R.State, ok: set<string>, m: Message,
                          members: seq<string>) {
    var last := LastOf(Reached(reg, ok, m.from, members), Room(capacity));
    && Inv(capacity, slots) && ComeLast(capacity, slots, last)
    && forall x :: x in last && !FateOf(reg, ok, x).Unknown? ==> slots.Get(x) == Some(Capped(LetterFor(reg, ok, m, x)))
  }

  /**
   * Of the recipients of a team message exactly the last ones hold it afterwards, as many as the mailbox has room
   * for, each with the outcome of his own fate, whatever was evicted for it; the others have no slot.
   */
  lemma {:induction false} TeamHolds(capacity: int, slots: Slots, reg: R.State, ok: set<string>, m: Message,
                                     members: seq<string>)
    requires Inv(capacity, slots) && NoDup(members)
    ensures
      var after := TeamPosted(capacity, slots, reg, ok, m, members);
      var reached := Reached(reg, ok, m.from, members);
      forall x :: x in reached && !FateOf(reg, ok, x).Unknown? ==>
                    after.Get(x) ==
                    if x in LastOf(reached, Room(capacity)) then Some(Capped(LetterFor(reg, ok, m, x))) else None
  {
    hide FateOf, Inv, NoDup, TeamPosted, LastOf, Capped;
    var after := TeamPosted(capacity, slots, reg, ok, m, members);
    var reached := Reached(reg, ok, m.from, members);
    LastHold(capacity, slots, reg, ok, m, members);
    hide Reached, ComeLast;
    forall x | x in reached && x !in LastOf(reached, Room(capacity))
      ensures x !in after.at
    {
      OthersGone(capacity, after, reached, x);
    }
  }

  /** What each recipient's slot tells of a team message. */
  lemma {:induction false} TeamIsTold(capacity: int, slots: Slots, reg: R.State, ok: set<string>, m: Message,
                                      members: seq<string>, x: string, why: Option<Reason>)
    requires Inv(capacity, slots) && NoDup(members)
    requires x in members && x != m.from && Because(reg, ok, x, why)
    ensures
      var after := TeamPosted(capacity, slots, reg, ok, m, members);
      if x in LastOf(Reached(reg, ok, m.from, members), Room(capacity)) then
        x in after.at && IsRecord(after.at[x], m, x, OutcomeOf(why), why)
      else x !in after.at
  {
    FateIs(reg, ok, x, why);
    ReachedMembers(reg, ok, m.from, members);
    TeamHolds(capacity, slots, reg, ok, m, members);
    LetterIs(m, x, OutcomeOf(why), why);
    hide FateOf, Because, Reached, LastOf, TeamPosted, Inv, NoDup, Capped, IsRecord;
  }

  lemma OthersGone(capacity: int, slots: Slots, names: seq<string>, x: string)
    requires ComeLast(capacity, slots, LastOf(names, Room(capacity))) && x in names
             && x !in LastOf(names, Room(capacity))
    ensures x !in slots.at
  {
    hide NoDup;
    assert slots.order == LastOf(names, Room(capacity));
  }

  lemma {:induction false} LastHold(capacity: int, slots: Slots, reg: R.State, ok: set<string>, m: Message,
                                    members: seq<string>)
    requires Inv(capacity, slots) && NoDup(members)
    ensures AllHold(capacity, TeamPosted(capacity, slots, reg, ok, m, members), reg, ok, m, members)
  {
    hide FateOf, AllHold, Inv, Posted;
    if members == [] {
      NoneHold(capacity, slots, reg, ok, m);
    } else {
      var p, x := members[..|members| - 1], members[|members| - 1];
      assert members == p + [x] && x !in p;
      LastHold(capacity, slots, reg, ok, m, p);
      hide NoDup;
      var before := TeamPosted(capacity, slots, reg, ok, m, p);
      var fate := FateOf(reg, ok, x);
      if x == m.from || fate.Unknown? {
        UnknownPosts(capacity, before, m, x, fate);
        assert TeamPosted(capacity, slots, reg, ok, m, members) == before;
        hide TeamPosted;
        SkippedHolds(capacity, before, reg, ok, m, p, x);
      } else {
        assert TeamPosted(capacity, slots, reg, ok, m, members) == Posted(capacity, before, m, x, fate);
        hide TeamPosted;
        PostedHolds(capacity, before, reg, ok, m, p, x);
      }
    }
  }

  lemma UnknownPosts(capacity: int, slots: Slots, m: Message, x: string, fate: Fate)
    ensures fate.Unknown? ==> Posted(capacity, slots, m, x, fate) == slots
  {
  }

  lemma {:induction false} NoneHold(capacity: int, slots: Slots, reg: R.State, ok: set<string>, m: Message)
    requires Inv(capacity, slots)
    ensures AllHold(capacity, slots, reg, ok, m, [])
  {
    InvShape(capacity, slots);
  }

  lemma {:induction false} SkippedHolds(capacity: int, slots: Slots, reg: R.State, ok: set<string>, m: Message,
                                        p: seq<string>, x: string)
    requires AllHold(capacity, slots, reg, ok, m, p) && (x == m.from || FateOf(reg, ok, x).Unknown?)
    ensures AllHold(capacity, slots, reg, ok, m, p + [x])
  {
    hide FateOf, Capped, Inv, ComeLast, LastOf;
    assert (p + [x])[..|p|] == p;
    assert Reached(reg, ok, m.from, p + [x]) == Reached(reg, ok, m.from, p);
  }

  lemma {:induction false} PostedHolds(capacity: int, slots: Slots, reg: R.State, ok: set<string>, m: Message,
                                       p: seq<string>, x: string)
    requires AllHold(capacity, slots, reg, ok, m, p)
    requires x !in p && x != m.from && !FateOf(reg, ok, x).Unknown?
    ensures AllHold(capacity, Posted(capacity, slots, m, x, FateOf(reg, ok, x)), reg, ok, m, p + [x])
  {
    hide FateOf, Capped, Inv;
    assert (p + [x])[..|p|] == p;
    var names, e := Reached(reg, ok, m.from, p), LetterFor(reg, ok, m, x);
    assert Reached(reg, ok, m.from, p + [x]) == names + [x];
    ReachedMembers(reg, ok, m.from, p);
    hide Reached;
    OneMoreLast(capacity, slots, names, e);
    DepositedKeeps(capacity, slots, e);
    InvShape(capacity, slots);
    DepositOrder(capacity, slots, e);
    hide Deposited, Without;
    var after := Deposited(capacity, slots, e);
    forall y | y in LastOf(names + [x], Room(capacity))
      ensures y in after.at && (y == x || y in LastOf(names, Room(capacity)))
    {
      LastIsThere(capacity, after, LastOf(names + [x], Room(capacity)), y);
      LastBefore(names, x, Room(capacity), y);
    }
    hide ComeLast, LastOf;
  }

  lemma LastBefore(names: seq<string>, x: string, room: nat, y: string)
    requires y in LastOf(names + [x], room)
    ensures y == x || y in LastOf(names, room)
  {
    var last := LastOf(names + [x], room);
    var i :| 0 <= i < |last| && last[i] == y;
    if i < |last| - 1 {
      var before := LastOf(names, room);
      assert before[|before| - (|last| - 1) + i] == y;
    }
  }

  lemma LastIsThere(capacity: int, slots: Slots, names: seq<string>, y: string)
    requires ComeLast(capacity, slots, names) && y in names
    ensures y in slots.at
  {
    var k :| 0 <= k < |names| && names[k] == y;
    assert slots.order[|slots.order| - |names| + k] == y;
  }

  // ----- The hub's own notices -----

  /** An agent's message that the recipient has not seen: neither delivered nor read. */
  predicate Guarded(e: Entry) {
    e.readAt.None? && e.outcome != Delivered && e.from != SYSTEM
  }

  predicate HoldsGuarded(slots: Slots, name: string) {
    name in slots.at && Guarded(slots.at[name])
  }

  predicate IsOldest(slots: Slots, name: string) {
    slots.order != [] && slots.order[0] == name
  }

  /** A notice that was not delivered is recorded, unless that would replace an unseen message. */
  function NoticePosted(capacity: int, slots: Slots, m: Message, to: string, fate: Fate): Slots {
    if fate.Unknown? || fate == DELIVERED || HoldsGuarded(slots, to) then slots
    else Deposited(capacity, slots, Letter(m, to, Skipped, fate.reason))
  }

  ghost function Noticed(capacity: int, slots: Slots, reg: R.State, ok: set<string>, m: Message, to: string): Slots {
    match Addressee(reg, to)
    case Online(name) => NoticePosted(capacity, slots, m, name, FateOf(reg, ok, name))
    case _ => slots
  }

  /** A deposit changes no other slot but the oldest, and that only if there is no room for a new one. */
  lemma DepositSpares(capacity: int, slots: Slots, e: Entry, k: string)
    requires Inv(capacity, slots) && k in slots.at && k != e.to
    ensures
      var after := Deposited(capacity, slots, e);
      (k in after.at && after.at[k] == slots.at[k]) <==>
        !(e.to !in slots.at && |slots.order| == Room(capacity) && IsOldest(slots, k))
  {
    var t := Without(slots.order, e.to) + [e.to];
    DepositOrder(capacity, slots, e);
    DepositedKeeps(capacity, slots, e);
    if e.to in slots.at {
      WithoutSize(slots.order, e.to);
    } else {
      WithoutAbsent(slots.order, e.to);
    }
    WithoutMembers(slots.order, e.to);
    var after := Deposited(capacity, slots, e);
    assert k in Without(slots.order, e.to);
    assert k in t;
    hide Without, Deposited, SlotOk;
    if |t| > Room(capacity) {
      assert t == slots.order + [e.to];
      FirstOnly(slots.order, e.to, k);
    }
  }

  lemma FirstOnly(s: seq<string>, x: string, k: string)
    requires NoDup(s) && s != [] && k in s && x != k
    ensures k in (s + [x])[1..] <==> s[0] != k
  {
    var i :| 0 <= i < |s| && s[i] == k;
    if i > 0 {
      assert (s + [x])[1..][i - 1] == k;
    }
    var t := (s + [x])[1..];
    if k in t {
      var j :| 0 <= j < |t| && t[j] == k;
      assert (s + [x])[j + 1] == k;
    }
  }

  /**
   * An unseen message of anyone survives a notice, unless a slot is made for the one the notice is for, there
   * is no room for it, and this message is the oldest.
   */
  lemma NoticeSpares(capacity: int, slots: Slots, m: Message, to: string, fate: Fate, k: string)
    requires Inv(capacity, slots) && HoldsGuarded(slots, k)
    ensures
      var after := NoticePosted(capacity, slots, m, to, fate);
      (k in after.at && after.at[k] == slots.at[k]) <==>
        !(&& !fate.Unknown? && fate != DELIVERED && to !in slots.at
          && |slots.order| == Room(capacity) && IsOldest(slots, k))
  {
    hide Deposited, Inv;
    if !fate.Unknown? && fate != DELIVERED && !HoldsGuarded(slots, to) {
      DepositSpares(capacity, slots, Letter(m, to, Skipped, fate.reason), k);
    }
  }

  /**
   * A notice for someone it does not reach is recorded as skipped, with the reason, if and only if no message of an
   * agent that he has neither read nor been delivered is in his slot, and there is any room; if one is, or if the
   * notice reaches him, no slot changes.
   */
  lemma {:induction false} NoticeIsTold(capacity: int, slots: Slots, reg: R.State, ok: set<string>, m: Message,
                                        to: string, why: Option<Reason>)
    requires reg.agents.Wf() && Inv(capacity, slots)
    requires Addressee(reg, to).Online? && Because(reg, ok, Addressee(reg, to).name, why)
    ensures
      var name, after := Addressee(reg, to).name, Noticed(capacity, slots, reg, ok, m, to);
      var unseen := name in slots.at && slots.at[name].readAt == None && slots.at[name].outcome != Delivered
                    && slots.at[name].from != "system@claude-net";
      if why == None || unseen then after == slots
      else name in after.at && IsRecord(after.at[name], m, name, Skipped, why) <==> Room(capacity) > 0
  {
    hide Inv, NoDup, R.Resolved, R.ResolvedSeen;
    var name := Addressee(reg, to).name;
    FateIs(reg, ok, name, why);
    hide Addressee, FateOf, Because;
    LetterIs(m, name, Skipped, why);
    hide Capped, Deposited, IsRecord;
    var e := Letter(m, name, Skipped, why);
    if Room(capacity) > 0 {
      DepositIsHeld(capacity, slots, e);
    } else {
      NothingIsHeld(capacity, slots, e);
    }
  }

  // ----- The router itself -----

  /** Whoever is found only among the names seen before is not online. */
  lemma SeenIsOffline(reg: R.State, to: string)
    requires reg.agents.Wf() && R.Resolved(reg, to).NotOnline? && R.ResolvedSeen(reg, to).Online?
    ensures
      var name := R.ResolvedSeen(reg, to).name;
      name in reg.seen && name !in reg.agents.at
  {
    MatchesFit(to, reg.seen);
    MatchesFit(to, reg.agents.order);
    hide MatchNames, Fits, NoDup;
  }

  lemma LiveIsOnline(reg: R.State, to: string)
    requires reg.agents.Wf() && R.Resolved(reg, to).Online?
    ensures R.Resolved(reg, to).name in reg.agents.at
  {
    MatchesFit(to, reg.agents.order);
    hide MatchNames, Fits, NoDup;
  }

  /** Who is found is online or was seen, so a message for him is never lost without a record. */
  lemma {:induction false} AddresseeIsKnown(reg: R.State, ok: set<string>, to: string)
    requires reg.agents.Wf() && Addressee(reg, to).Online?
    ensures !FateOf(reg, ok, Addressee(reg, to).name).Unknown?
  {
    if R.Resolved(reg, to).Online? {
      LiveIsOnline(reg, to);
    } else {
      SeenIsOffline(reg, to);
    }
  }

  /** What a direct send comes to, once its fields are strings and it is not for the dashboard. */
  ghost predicate DirectIs(capacity: int, before: Slots, after: Slots, reg: R.State, ok: set<string>, m: Message,
                           to: string, r: DirectResult)
  {
    match Addressee(reg, to)
    case Several(_) => r == Refused(Ambiguous, false) && after == before
    case NotOnline => r == Refused(IsOffline, false) && after == before
    case Online(name) =>
      r == DirectAnswer(FateOf(reg, ok, name)) && after == Posted(capacity, before, m, name, FateOf(reg, ok, name))
  }

  /** What a sender is told, and why. */
  predicate Tells(r: DirectResult, reg: R.State, ok: set<string>, name: string) {
    && (r == Sent(false) <==> Because(reg, ok, name, None))
    && (r == Refused(IsOffline, true) <==> Because(reg, ok, name, Some(Offline)))
    && (r == Refused(HasNoChannel, true) <==> Because(reg, ok, name, Some(NoChannel)))
    && (r == Refused(TransportFailed, true) <==> Because(reg, ok, name, Some(TransportError)))
  }

  lemma AnswerTells(reg: R.State, ok: set<string>, name: string)
    requires name in reg.agents.at || name in reg.seen
    ensures Tells(DirectAnswer(FateOf(reg, ok, name)), reg, ok, name)
  {
  }

  /**
   * The answer to a direct send tells the truth: the sender learns whether the one the address means got it, and else
   * why not. The same is in his slot, exactly if the mailbox has any room; without room the hub still reports a
   * record, and keeps none. A send that finds nobody, or too many, is refused and changes no slot.
   */
  lemma {:induction false} DirectTellsTheTruth(capacity: int, before: Slots, after: Slots, reg: R.State,
                                               ok: set<string>, m: Message, to: string, r: DirectResult)
    requires reg.agents.Wf() && Inv(capacity, before)
    requires DirectIs(capacity, before, after, reg, ok, m, to, r)
    ensures
      match Addressee(reg, to)
      case Online(name) =>
        && Tells(r, reg, ok, name)
        && (exists why :: Because(reg, ok, name, why))
        && forall why :: Because(reg, ok, name, why) ==>
             && (name in after.at && IsRecord(after.at[name], m, name, OutcomeOf(why), why) <==> Room(capacity) > 0)
             && (Room(capacity) == 0 ==> after.order == [])
      case Several(_) => r == Refused(Ambiguous, false) && after == before
      case NotOnline => r == Refused(IsOffline, false) && after == before
  {
    hide Inv, NoDup;
    if Addressee(reg, to).Online? {
      var name := Addressee(reg, to).name;
      AddresseeIsKnown(reg, ok, to);
      FateIs(reg, ok, name, None);
      AnswerTells(reg, ok, name);
      hide Addressee, Tells, DirectAnswer;
      SomeReason(reg, ok, name);
      forall why | Because(reg, ok, name, why)
        ensures name in after.at && IsRecord(after.at[name], m, name, OutcomeOf(why), why) <==> Room(capacity) > 0
        ensures Room(capacity) == 0 ==> after.order == []
      {
        FateIs(reg, ok, name, why);
        LetterIs(m, name, OutcomeOf(why), why);
        hide Because, FateOf, Capped, Deposited, IsRecord;
        var e := Letter(m, name, OutcomeOf(why), why);
        if Room(capacity) > 0 {
          DepositIsHeld(capacity, before, e);
        } else {
          NothingIsHeld(capacity, before, e);
        }
      }
    }
  }

  lemma SomeReason(reg: R.State, ok: set<string>, name: string)
    requires name in reg.agents.at || name in reg.seen
    ensures exists why :: Because(reg, ok, name, why)
  {
    assert Because(reg, ok, name, None) || Because(reg, ok, name, Some(Offline))
           || Because(reg, ok, name, Some(NoChannel)) || Because(reg, ok, name, Some(TransportError));
  }

  /** With any room at all, a deposit is there afterwards. */
  lemma DepositIsHeld(capacity: int, slots: Slots, e: Entry)
    requires Inv(capacity, slots) && Room(capacity) > 0
    ensures Deposited(capacity, slots, e).Get(e.to) == Some(Capped(e))
  {
    DepositOrder(capacity, slots, e);
    DepositedKeeps(capacity, slots, e);
    WithoutMembers(slots.order, e.to);
    hide Deposited, Without, Capped, SlotOk, NoDup;
    var t := Without(slots.order, e.to) + [e.to];
    var after := Deposited(capacity, slots, e);
    assert after.order[|after.order| - 1] == e.to;
  }

  /** Without room, a deposit leaves nothing behind. */
  lemma NothingIsHeld(capacity: int, slots: Slots, e: Entry)
    requires Inv(capacity, slots) && Room(capacity) == 0
    ensures Deposited(capacity, slots, e).order == [] && Deposited(capacity, slots, e).Get(e.to).None?
  {
    DepositedKeeps(capacity, slots, e);
    hide Deposited, Capped, SlotOk, NoDup;
  }

  class Router {
    const registry: R.Registry
    const teams: T.Teams
    const mailbox: Mailbox

    constructor (registry: R.Registry, teams: T.Teams, mailbox: Mailbox)
      ensures this.registry == registry && this.teams == teams && this.mailbox == mailbox
    {
      this.registry, this.teams, this.mailbox := registry, teams, mailbox;
    }

    /** `dashboards` says whether a dashboard is connected, `ok` whose sockets take a frame now. */
    method RouteDirect(from: string, to: string, content: Field, kind: string, replyTo: Field, dashboards: bool,
                       ok: set<string>, id: nat, now: int) returns (r: DirectResult)
      requires registry.Valid()
      modifies mailbox
      ensures content.Text? && !replyTo.NotText? && to !in {"dashboard", "dashboard@hub"} ==>
                DirectIs(mailbox.capacity, old(mailbox.entries), mailbox.entries, registry.Abs(), ok,
                         Message(id, from, kind, content.value, ReplyTo(replyTo), None, now), to, r)
      ensures !content.Text? || replyTo.NotText? || to in {"dashboard", "dashboard@hub"} ==>
                mailbox.entries == old(mailbox.entries)
      ensures !content.Text? || replyTo.NotText? ==> r == Refused(InvalidContent, false)
      ensures content.Text? && !replyTo.NotText? && to in {"dashboard", "dashboard@hub"} ==>
                r == if dashboards then Sent(true) else Refused(NoDashboard, false)
    {
      if !content.Text? || replyTo.NotText? {
        return Refused(InvalidContent, false);
      }
      if ToDashboard(to) {
        return if dashboards then Sent(true) else Refused(NoDashboard, false);
      }
      hide DirectIs, R.Inv;
      r := RouteToAgent(Message(id, from, kind, content.value, ReplyTo(replyTo), None, now), to, ok);
    }

    method RouteToAgent(m: Message, to: string, ok: set<string>) returns (r: DirectResult)
      requires registry.Valid()
      modifies mailbox
      ensures DirectIs(mailbox.capacity, old(mailbox.entries), mailbox.entries, registry.Abs(), ok, m, to, r)
    {
      hide R.Inv, R.Resolved, R.ResolvedSeen, Deposited;
      var live := registry.Resolve(to);
      if live.Several? {
        return Refused(Ambiguous, false);
      }
      if live.Online? {
        R.AgentsWf(registry.Abs());
        LiveIsOnline(registry.Abs(), to);
        r := RouteToEntry(m, live.name, ok);
        return;
      }
      var seen := registry.ResolveSeenNameOrAmbiguous(to);
      match seen
      case Several(_) => return Refused(Ambiguous, false);
      case NotOnline => return Refused(IsOffline, false);
      case Online(name) =>
        R.AgentsWf(registry.Abs());
        SeenIsOffline(registry.Abs(), to);
        mailbox.Deposit(Letter(m, name, Nak, Some(Offline)));
        return Refused(IsOffline, true);
    }

    method RouteToEntry(m: Message, name: string, ok: set<string>) returns (r: DirectResult)
      requires name in registry.agents.at
      modifies mailbox
      ensures r == DirectAnswer(FateOf(registry.Abs(), ok, name))
      ensures Tells(r, registry.Abs(), ok, name)
      ensures mailbox.entries == Posted(mailbox.capacity, old(mailbox.entries), m, name,
                                        FateOf(registry.Abs(), ok, name))
    {
      if !registry.agents.at[name].channelCapable {
        mailbox.Deposit(Letter(m, name, Nak, Some(NoChannel)));
        return Refused(HasNoChannel, true);
      }
      if name !in ok {
        mailbox.Deposit(Letter(m, name, Nak, Some(TransportError)));
        return Refused(TransportFailed, true);
      }
      mailbox.Deposit(Letter(m, name, Delivered, None));
      return Sent(false);
    }

    method RouteTeam(from: string, team: string, content: Field, kind: string, replyTo: Field, ok: set<string>, id: nat,
                     now: int)
        returns (r: TeamResult)
      modifies mailbox
      ensures !content.Text? || replyTo.NotText? || team !in teams.teams ==>
                r == TeamRefused(false) && mailbox.entries == old(mailbox.entries)
      ensures content.Text? && !replyTo.NotText? && team in teams.teams ==>
                var m := Message(id, from, kind, content.value, ReplyTo(replyTo), Some(team), now);
                var reg, members := registry.Abs(), teams.teams[team];
                var delivered := Count(reg, ok, from, members, DELIVERED);
                var skipped := Count(reg, ok, from, members, NO_CHANNEL);
                var boxed := Reached(reg, ok, from, members) != [];
                && mailbox.entries == TeamPosted(mailbox.capacity, old(mailbox.entries), reg, ok, m, members)
                && r == if delivered == 0 && skipped == 0 then TeamRefused(boxed)
                    else TeamSent(delivered, skipped, boxed)
      ensures content.Text? && !replyTo.NotText? && team in teams.teams && NoDup(teams.teams[team]) ==>
                var reg, members := registry.Abs(), teams.teams[team];
                TeamTells(r, |Those(reg, ok, from, members, None)|, |Those(reg, ok, from, members, Some(NoChannel))|,
                          exists x :: x in members && x != from && (x in reg.agents.at || x in reg.seen))
    {
      if !content.Text? || replyTo.NotText? || team !in teams.teams {
        return TeamRefused(false);
      }
      hide Deposited, Posted, FateOf, Because, Count, TeamPosted, Reached, Those, NoDup;
      NoneYet(mailbox.capacity, mailbox.entries, registry.Abs(), ok,
              Message(id, from, kind, content.value, ReplyTo(replyTo), Some(team), now));
      var members := teams.teams[team];
      var m := Message(id, from, kind, content.value, ReplyTo(replyTo), Some(team), now);
      var delivered, skipped, boxed := 0, 0, false;
      ghost var reg := registry.Abs();
      for i := 0 to |members|
        invariant registry.Abs() == reg && teams.teams == old(teams.teams)
        invariant mailbox.entries == TeamPosted(mailbox.capacity, old(mailbox.entries), reg, ok, m, members[..i])
        invariant delivered == Count(reg, ok, from, members[..i], DELIVERED)
        invariant skipped == Count(reg, ok, from, members[..i], NO_CHANNEL)
        invariant boxed <==> Reached(reg, ok, from, members[..i]) != []
      {
        var x := members[i];
        TeamSnoc(mailbox.capacity, old(mailbox.entries), reg, ok, m, members, i);
        CountSnoc(reg, ok, from, members, i, DELIVERED);
        CountSnoc(reg, ok, from, members, i, NO_CHANNEL);
        if x != from {
          var gave := PostTo(m, x, ok);
          boxed := boxed || !gave.Unknown?;
          if gave == DELIVERED {
            delivered := delivered + 1;
          } else if gave == NO_CHANNEL {
            skipped := skipped + 1;
          }
        }
      }
      assert members[..|members|] == members;
      ReachedAre(reg, ok, from, members);
      if NoDup(members) {
        CountIsSize(reg, ok, from, members, None);
        CountIsSize(reg, ok, from, members, Some(NoChannel));
      }
      return if delivered == 0 && skipped == 0 then TeamRefused(boxed) else TeamSent(delivered, skipped, boxed);
    }

    /** One member of the team: sent to if he can be, and recorded unless nobody knows him. */
    method PostTo(m: Message, member: string, ok: set<string>) returns (fate: Fate)
      modifies mailbox
      ensures fate == FateOf(registry.Abs(), ok, member)
      ensures fate.Unknown? <==> member !in registry.agents.at && member !in registry.seenNames
      ensures forall why :: fate == Recorded(OutcomeOf(why), why) <==> Because(registry.Abs(), ok, member, why)
      ensures mailbox.entries == Posted(mailbox.capacity, old(mailbox.entries), m, member, fate)
    {
      if member !in registry.agents.at {
        if member in registry.seenNames {
          mailbox.Deposit(Letter(m, member, Nak, Some(Offline)));
          return OFFLINE;
        }
        return Unknown;
      }
      if !registry.agents.at[member].channelCapable {
        mailbox.Deposit(Letter(m, member, Nak, Some(NoChannel)));
        return NO_CHANNEL;
      }
      if member !in ok {
        mailbox.Deposit(Letter(m, member, Nak, Some(TransportError)));
        return TRANSPORT_ERROR;
      }
      mailbox.Deposit(Letter(m, member, Delivered, None));
      return DELIVERED;
    }

    method HasUnreadAgentMessage(to: string) returns (r: bool)
      ensures r == HoldsGuarded(mailbox.entries, to)
      ensures r <==> exists e :: mailbox.entries.Get(to) == Some(e) && e.readAt == None && e.outcome != Delivered
                                 && e.from != "system@claude-net"
    {
      var existing := mailbox.Get(to);
      r := existing.Some? && existing.value.readAt.None?
           && existing.value.outcome != Delivered && existing.value.from != SYSTEM;
    }

    method RouteSystemNotification(to: string, content: string, ok: set<string>, id: nat, now: int) returns (r: Notice)
      requires registry.Valid()
      modifies mailbox
      ensures mailbox.entries ==
              Noticed(mailbox.capacity, old(mailbox.entries), registry.Abs(), ok,
                      Message(id, SYSTEM, "message", content, None, None, now), to)
      ensures r.Notified? <==>
              && Addressee(registry.Abs(), to).Online?
              && FateOf(registry.Abs(), ok, Addressee(registry.Abs(), to).name) == DELIVERED
      ensures r.NotNotified? && r.ambiguous <==> R.Resolved(registry.Abs(), to).Several?
      ensures r.NotNotified? && r.reason == None <==> R.Resolved(registry.Abs(), to).Several?
      ensures r == NotNotified(false, Some(Offline)) <==> R.Resolved(registry.Abs(), to).NotOnline?
      ensures
        var live, reg := R.Resolved(registry.Abs(), to), registry.Abs();
        && (r == NotNotified(false, Some(NoChannel)) <==>
            live.Online? && Because(reg, ok, live.name, Some(NoChannel)))
        && (r == NotNotified(false, Some(TransportError)) <==>
            live.Online? && Because(reg, ok, live.name, Some(TransportError)))
        && (r == Notified <==> live.Online? && Because(reg, ok, live.name, None))
    {
      var m := Message(id, SYSTEM, "message", content, None, None, now);
      hide R.Inv, R.Resolved, R.ResolvedSeen, Deposited;
      var live := registry.Resolve(to);
      if live.Several? {
        return NotNotified(true, None);
      }
      if live.NotOnline? {
        var seen := registry.ResolveSeenNameOrAmbiguous(to);
        if seen.Online? {
          R.AgentsWf(registry.Abs());
          SeenIsOffline(registry.Abs(), to);
          RecordNotice(m, seen.name, Offline);
        }
        return NotNotified(false, Some(Offline));
      }
      R.AgentsWf(registry.Abs());
      LiveIsOnline(registry.Abs(), to);
      if !registry.agents.at[live.name].channelCapable {
        RecordNotice(m, live.name, NoChannel);
        return NotNotified(false, Some(NoChannel));
      }
      if live.name !in ok {
        RecordNotice(m, live.name, TransportError);
        return NotNotified(false, Some(TransportError));
      }
      return Notified;
    }

    method RecordNotice(m: Message, to: string, reason: Reason)
      modifies mailbox
      ensures mailbox.entries == NoticePosted(mailbox.capacity, old(mailbox.entries), m, to,
                                              Recorded(Nak, Some(reason)))
    {
      var unread := HasUnreadAgentMessage(to);
      if !unread {
        mailbox.Deposit(Letter(m, to, Skipped, Some(reason)));
      }
    }
  }
}
