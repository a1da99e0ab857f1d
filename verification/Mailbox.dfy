/**
 * The single-slot mailbox (src/hub/mailbox.ts): one message for each recipient, for a bounded number of
 * recipients, the one deposited to least recently going first.
 */
module Mailbox {
  import opened Options
  import opened JsMap

  // ----- Capped entries -----

  const MAX_CONTENT_LENGTH := 16_000
  const MAX_REPLY_TO_LENGTH := 500
  const TRUNCATION_MARKER := "\n\U{2026}[truncated]"

  datatype Outcome = Delivered | Nak | Skipped
  datatype Reason = Offline | NoChannel | TransportError

  datatype Entry = Entry(id: nat, from: string, to: string, kind: string, content: string, replyTo: Option<string>,
                         team: Option<string>, outcome: Outcome, reason: Option<Reason>, sentAt: int,
                         readAt: Option<int>)

  /** A beginning of the text, and the marker. */
  predicate IsCut(text: string, r: string) {
    var kept := |r| - |TRUNCATION_MARKER|;
    kept >= 0 && r[..kept] <= text && r[kept..] == TRUNCATION_MARKER
  }

  function CapContent(content: string): (r: string)
    ensures |r| <= MAX_CONTENT_LENGTH && (r == content <==> |content| <= MAX_CONTENT_LENGTH)
    ensures r != content ==> |r| == MAX_CONTENT_LENGTH && IsCut(content, r)
  {
    if |content| <= MAX_CONTENT_LENGTH then content
    else content[..MAX_CONTENT_LENGTH - |TRUNCATION_MARKER|] + TRUNCATION_MARKER
  }

  function CapReplyTo(replyTo: Option<string>): (r: Option<string>)
    ensures r.Some? ==> |r.value| <= MAX_REPLY_TO_LENGTH
    ensures r == replyTo <==> (replyTo.Some? ==> |replyTo.value| <= MAX_REPLY_TO_LENGTH)
    ensures r != replyTo ==>
              replyTo.Some? && r.Some? && |r.value| == MAX_REPLY_TO_LENGTH && IsCut(replyTo.value, r.value)
  {
    if replyTo.None? || |replyTo.value| <= MAX_REPLY_TO_LENGTH then replyTo
    else Some(replyTo.value[..MAX_REPLY_TO_LENGTH - |TRUNCATION_MARKER|] + TRUNCATION_MARKER)
  }

  function Capped(e: Entry): Entry {
    e.(content := CapContent(e.content), replyTo := CapReplyTo(e.replyTo))
  }

  // ----- The operations -----

  type Slots = Table<Entry>

  /** The key moves to the end; past the capacity the first key goes. */
  function Deposited(capacity: int, m: Slots, e: Entry): Slots {
    var m := m.Delete(e.to).Set(e.to, Capped(e));
    if m.Size() > capacity && m.order != [] then m.Delete(m.order[0]) else m
  }

  function MarkedRead(m: Slots, name: string, now: int): Slots {
    if name in m.at && m.at[name].readAt.None? then m.Set(name, m.at[name].(readAt := Some(now))) else m
  }

  /** After a rename the slot follows, unless the new name holds a message of the same age or newer. */
  function Rekeyed(m: Slots, oldName: string, newName: string): Slots {
    if oldName !in m.at then m
    else
      var e := m.at[oldName];
      var m := m.Delete(oldName);
      if newName in m.at && m.at[newName].sentAt >= e.sentAt then m
      else m.Delete(newName).Set(newName, e.(to := newName))
  }

  datatype Input =
    | Deposit(entry: Entry)
    | MarkRead(name: string, now: int)
    | Rekey(oldName: string, newName: string)

  function Step(capacity: int, m: Slots, i: Input): Slots {
    match i
    case Deposit(e) => Deposited(capacity, m, e)
    case MarkRead(name, now) => MarkedRead(m, name, now)
    case Rekey(oldName, newName) => Rekeyed(m, oldName, newName)
  }

  function Run(capacity: int, inputs: seq<Input>): Slots {
    if inputs == [] then Empty() else Step(capacity, Run(capacity, inputs[..|inputs| - 1]), inputs[|inputs| - 1])
  }

  // ----- What every run keeps -----

  function Room(capacity: int): nat {
    if capacity < 0 then 0 else capacity
  }

  /** Every slot is under the name it is addressed to, and holds no more than the caps allow. */
  ghost predicate Inv(capacity: int, m: Slots) {
    && m.Wf() && m.Size() <= Room(capacity)
    && forall k :: k in m.at ==> SlotOk(k, m.at[k])
  }

  ghost predicate SlotOk(k: string, e: Entry) {
    e.to == k && |e.content| <= MAX_CONTENT_LENGTH && (e.replyTo.Some? ==> |e.replyTo.value| <= MAX_REPLY_TO_LENGTH)
  }

  lemma DepositedKeeps(capacity: int, m: Slots, e: Entry)
    requires Inv(capacity, m)
    ensures Inv(capacity, Deposited(capacity, m, e))
  {
    m.DeleteWf(e.to);
    var d := m.Delete(e.to);
    hide Without;
    d.SetWf(e.to, Capped(e));
    var n := d.Set(e.to, Capped(e));
    assert SlotOk(e.to, Capped(e));
    assert n.order[0] in n.at;
    n.DeleteWf(n.order[0]);
    hide NoDup;
  }

  lemma RekeyedKeeps(capacity: int, m: Slots, oldName: string, newName: string)
    requires Inv(capacity, m)
    ensures Inv(capacity, Rekeyed(m, oldName, newName))
    ensures Rekeyed(m, oldName, newName).Size() <= m.Size()
  {
    if oldName in m.at {
      var e := m.at[oldName];
      m.DeleteWf(oldName);
      var d := m.Delete(oldName);
      d.DeleteWf(newName);
      hide Without;
      d.Delete(newName).SetWf(newName, e.(to := newName));
      assert SlotOk(newName, e.(to := newName));
      hide NoDup;
    }
  }

  lemma StepKeeps(capacity: int, m: Slots, i: Input)
    requires Inv(capacity, m)
    ensures Inv(capacity, Step(capacity, m, i))
  {
    hide Deposited, Rekeyed;
    match i
    case Deposit(e) => DepositedKeeps(capacity, m, e);
    case MarkRead(_, _) =>
    case Rekey(oldName, newName) => RekeyedKeeps(capacity, m, oldName, newName);
  }

  lemma {:induction false} RunKeeps(capacity: int, inputs: seq<Input>)
    ensures Inv(capacity, Run(capacity, inputs)) && Run(capacity, inputs).Size() <= Room(capacity)
  {
    hide Step;
    if inputs != [] {
      RunKeeps(capacity, inputs[..|inputs| - 1]);
      StepKeeps(capacity, Run(capacity, inputs[..|inputs| - 1]), inputs[|inputs| - 1]);
    }
  }

  /** Of two messages that meet in one slot the later one stays, the destination's if they are of the same age. */
  lemma RekeyKeepsLater(capacity: int, m: Slots, oldName: string, newName: string)
    requires Inv(capacity, m) && oldName in m.at && oldName != newName
    ensures
      var n := Rekeyed(m, oldName, newName);
      var kept := n.at[newName];
      && n.at.Keys == m.at.Keys - {oldName} + {newName}
      && (forall k :: k in m.at && k != oldName && k != newName ==> n.at[k] == m.at[k])
      && (kept == m.at[oldName].(to := newName) || (newName in m.at && kept == m.at[newName]))
      && kept.sentAt >= m.at[oldName].sentAt && (newName in m.at ==> kept.sentAt >= m.at[newName].sentAt)
      && (newName in m.at && m.at[newName].sentAt == m.at[oldName].sentAt ==> kept == m.at[newName])
  {
  }

  // ----- Without renames: the latest message of each of the most recent recipients -----

  ghost predicate NoRekey(inputs: seq<Input>) {
    forall i :: 0 <= i < |inputs| ==> !inputs[i].Rekey?
  }

  /** Everyone ever deposited to, ordered by last deposit. */
  function Recipients(inputs: seq<Input>): seq<string> {
    if inputs == [] then []
    else
      var before, i := Recipients(inputs[..|inputs| - 1]), inputs[|inputs| - 1];
      if i.Deposit? then Without(before, i.entry.to) + [i.entry.to] else before
  }

  /** The last message deposited to `name`, with the time when it was first marked as read. */
  function Latest(inputs: seq<Input>, name: string): Option<Entry> {
    if inputs == [] then None
    else
      var before, i := Latest(inputs[..|inputs| - 1], name), inputs[|inputs| - 1];
      match i
      case Deposit(e) => if e.to == name then Some(Capped(e)) else before
      case MarkRead(n, now) =>
        if n == name && before.Some? && before.value.readAt.None? then Some(before.value.(readAt := Some(now)))
        else before
      case Rekey(_, _) => before
  }

  /** When `name` was last deposited to, and -1 if it never was. */
  function LastDeposit(inputs: seq<Input>, name: string): int {
    if inputs == [] then -1
    else
      var i := inputs[|inputs| - 1];
      if i.Deposit? && i.entry.to == name then |inputs| - 1 else LastDeposit(inputs[..|inputs| - 1], name)
  }

  lemma {:induction false} LastDepositBound(inputs: seq<Input>, name: string)
    ensures -1 <= LastDeposit(inputs, name) < |inputs|
  {
    if inputs != [] {
      LastDepositBound(inputs[..|inputs| - 1], name);
    }
  }

  /** `Recipients` are those ever deposited to, and its order is that of the last deposits. */
  lemma {:induction false} RecipientsByLastDeposit(inputs: seq<Input>)
    ensures NoDup(Recipients(inputs)) && Increasing(Recipients(inputs), name => LastDeposit(inputs, name))
    ensures forall name :: name in Recipients(inputs) <==> LastDeposit(inputs, name) >= 0
  {
    if inputs != [] {
      var before, i := inputs[..|inputs| - 1], inputs[|inputs| - 1];
      var r := Recipients(before);
      RecipientsByLastDeposit(before);
      if i.Deposit? {
        var x := i.entry.to;
        WithoutMembers(r, x);
        WithoutNoDup(r, x);
        WithoutIncreasing(r, x, name => LastDeposit(before, name));
        forall name
          ensures LastDeposit(before, name) < |before|
        {
          LastDepositBound(before, name);
        }
        TouchIncreases(Without(r, x), x, name => LastDeposit(before, name), name => LastDeposit(inputs, name));
        hide Without;
      } else {
        assert forall name :: LastDeposit(inputs, name) == LastDeposit(before, name);
      }
    }
  }

  /** `s` is the end of `r`, as long as there is room. */
  ghost predicate IsEnd(s: seq<string>, r: seq<string>, room: nat) {
    |s| == (if |r| < room then |r| else room) && s == r[|r| - |s|..]
  }

  lemma TouchKeepsEnd(s: seq<string>, r: seq<string>, room: nat, x: string)
    requires IsEnd(s, r, room) && NoDup(r)
    ensures
      var t := Without(s, x) + [x];
      IsEnd(if |t| > room then t[1..] else t, Without(r, x) + [x], room)
  {
    var p := r[..|r| - |s|];
    assert r == p + s;
    WithoutConcat(p, s, x);
    TouchSizes(p, s, x);
    hide Without, NoDup;
    var w, t := Without(p, x), Without(s, x) + [x];
    assert Without(r, x) + [x] == w + t;
    EndOf(w, t, room);
  }

  lemma {:induction false} TouchSizes(p: seq<string>, s: seq<string>, x: string)
    requires NoDup(p + s)
    ensures |Without(s, x)| == (if x in s then |s| - 1 else |s|)
    ensures |Without(p, x)| == (if x in s || x !in p then |p| else |p| - 1)
  {
    Halves(p, s);
    if x in s {
      WithoutSize(s, x);
    } else {
      WithoutAbsent(s, x);
    }
    if x in p {
      WithoutSize(p, x);
    } else {
      WithoutAbsent(p, x);
    }
  }

  lemma Halves(p: seq<string>, s: seq<string>)
    requires NoDup(p + s)
    ensures NoDup(p) && NoDup(s) && forall x :: x in p ==> x !in s
  {
    var r := p + s;
    assert forall i :: 0 <= i < |p| ==> r[i] == p[i];
    assert forall i :: 0 <= i < |s| ==> r[|p| + i] == s[i];
  }

  lemma EndOf(p: seq<string>, t: seq<string>, room: nat)
    requires t != []
    requires |t| > room ==> |t| == room + 1
    requires |t| < room ==> p == []
    ensures IsEnd(if |t| > room then t[1..] else t, p + t, room)
  {
  }

  /** The slots are those of the end of `Recipients`, in that order, each with the latest message. */
  ghost predicate Agrees(capacity: int, m: Slots, inputs: seq<Input>) {
    && IsEnd(m.order, Recipients(inputs), Room(capacity))
    && forall k :: k in m.at ==> Latest(inputs, k) == Some(m.at[k])
  }

  lemma {:induction false} DepositOrder(capacity: int, m: Slots, e: Entry)
    requires m.Wf()
    ensures
      var t := Without(m.order, e.to) + [e.to];
      var n := Deposited(capacity, m, e);
      && n.order == (if |t| > Room(capacity) then t[1..] else t)
      && forall k :: k in n.at ==> if k == e.to then n.at[k] == Capped(e) else k in m.at && n.at[k] == m.at[k]
  {
    hide Without, NoDup, Capped;
    m.DeleteWf(e.to);
    var d := m.Delete(e.to);
    d.SetWf(e.to, Capped(e));
    var n := d.Set(e.to, Capped(e));
    WithoutFirst(n.order);
  }

  lemma DepositHistory(before: seq<Input>, e: Entry)
    ensures
      var h := before + [Deposit(e)];
      && Recipients(h) == Without(Recipients(before), e.to) + [e.to]
      && forall k: string :: Latest(h, k) == if k == e.to then Some(Capped(e)) else Latest(before, k)
  {
    hide Capped, Without;
    assert (before + [Deposit(e)])[..|before|] == before;
  }

  function Marked(e: Option<Entry>, now: int): Option<Entry> {
    if e.Some? && e.value.readAt.None? then Some(e.value.(readAt := Some(now))) else e
  }

  lemma MarkHistory(before: seq<Input>, name: string, now: int)
    ensures
      var h := before + [MarkRead(name, now)];
      && Recipients(h) == Recipients(before)
      && forall k: string :: Latest(h, k) == if k == name then Marked(Latest(before, k), now) else Latest(before, k)
  {
    assert (before + [MarkRead(name, now)])[..|before|] == before;
  }

  /** The slots agree with a list of recipients and the latest message of each. */
  ghost predicate AgreesWith(capacity: int, m: Slots, recipients: seq<string>, latest: string -> Option<Entry>) {
    && IsEnd(m.order, recipients, Room(capacity))
    && forall k :: k in m.at ==> latest(k) == Some(m.at[k])
  }

  lemma {:induction false} DepositAgrees(capacity: int, m: Slots, e: Entry, r: seq<string>, f: string -> Option<Entry>,
                                         g: string -> Option<Entry>)
    requires AgreesWith(capacity, m, r, f) && m.Wf() && NoDup(r)
    requires forall k: string :: g(k) == if k == e.to then Some(Capped(e)) else f(k)
    ensures AgreesWith(capacity, Deposited(capacity, m, e), Without(r, e.to) + [e.to], g)
  {
    hide Deposited, IsEnd, Capped, Without, NoDup;
    TouchKeepsEnd(m.order, r, Room(capacity), e.to);
    DepositOrder(capacity, m, e);
  }

  lemma {:induction false} MarkAgrees(capacity: int, m: Slots, name: string, now: int, r: seq<string>,
                                      f: string -> Option<Entry>, g: string -> Option<Entry>)
    requires AgreesWith(capacity, m, r, f) && m.Wf()
    requires forall k: string :: g(k) == if k == name then Marked(f(k), now) else f(k)
    ensures AgreesWith(capacity, MarkedRead(m, name, now), r, g)
  {
    hide IsEnd, NoDup;
  }

  /**
   * Without renames the mailbox holds exactly the latest message of each of the most recently deposited-to
   * recipients, as many as it has room for, in the order of their last deposits.
   */
  lemma {:induction false} HoldsLatestOfMostRecent(capacity: int, inputs: seq<Input>)
    requires NoRekey(inputs)
    ensures Run(capacity, inputs).Wf() && Agrees(capacity, Run(capacity, inputs), inputs)
  {
    hide Deposited, MarkedRead, Rekeyed, IsEnd, Capped, Without, NoDup, Inv, AgreesWith;
    RunKeeps(capacity, inputs);
    InvWf(capacity, Run(capacity, inputs));
    if inputs == [] {
      NothingAgrees(capacity);
    } else {
      var before, i := inputs[..|inputs| - 1], inputs[|inputs| - 1];
      HoldsLatestOfMostRecent(capacity, before);
      assert before + [i] == inputs;
      var m := Run(capacity, before);
      var f, g := (k: string) => Latest(before, k), (k: string) => Latest(inputs, k);
      AgreesAsFunction(capacity, m, before, f);
      RecipientsByLastDeposit(before);
      hide Run, Agrees, Increasing;
      if i.Deposit? {
        DepositHistory(before, i.entry);
        hide Recipients, Latest;
        DepositAgrees(capacity, m, i.entry, Recipients(before), f, g);
        AgreesAsFunction(capacity, Deposited(capacity, m, i.entry), inputs, g);
      } else {
        MarkHistory(before, i.name, i.now);
        hide Recipients, Latest;
        MarkAgrees(capacity, m, i.name, i.now, Recipients(before), f, g);
        AgreesAsFunction(capacity, MarkedRead(m, i.name, i.now), inputs, g);
      }
    }
  }

  lemma InvWf(capacity: int, m: Slots)
    requires Inv(capacity, m)
    ensures m.Wf()
  {
  }

  lemma {:induction false} AgreesAsFunction(capacity: int, m: Slots, inputs: seq<Input>, f: string -> Option<Entry>)
    requires forall k: string :: f(k) == Latest(inputs, k)
    ensures Agrees(capacity, m, inputs) <==> AgreesWith(capacity, m, Recipients(inputs), f)
  {
    hide IsEnd, Latest, Recipients;
  }

  lemma NothingAgrees(capacity: int)
    ensures Agrees(capacity, Empty(), [])
  {
    assert Recipients([]) == [];
  }

  // ----- The mailbox itself -----

  class Mailbox {
    const capacity: int
    var entries: Slots

    constructor (capacity: int)
      ensures this.capacity == capacity && entries == Empty()
    {
      this.capacity := capacity;
      entries := Empty();
    }

    method Deposit(e: Entry)
      modifies this
      ensures entries == Deposited(capacity, old(entries), e)
    {
      var stored := e.(content := CapContent(e.content), replyTo := CapReplyTo(e.replyTo));
      entries := entries.Delete(stored.to);
      entries := entries.Set(stored.to, stored);
      if entries.Size() > capacity {
        var oldest := if entries.order == [] then None else Some(entries.order[0]);
        if oldest.Some? {
          entries := entries.Delete(oldest.value);
        }
      }
    }

    method Get(fullName: string) returns (r: Option<Entry>)
      ensures r == entries.Get(fullName)
    {
      r := if fullName in entries.at then Some(entries.at[fullName]) else None;
    }

    method MarkRead(fullName: string, now: int)
      modifies this
      ensures entries == MarkedRead(old(entries), fullName, now)
    {
      if fullName in entries.at && entries.at[fullName].readAt.None? {
        entries := entries.Set(fullName, entries.at[fullName].(readAt := Some(now)));
      }
    }

    method Rekey(oldName: string, newName: string)
      modifies this
      ensures entries == Rekeyed(old(entries), oldName, newName)
    {
      if oldName !in entries.at {
        return;
      }
      var oldEntry := entries.at[oldName];
      entries := entries.Delete(oldName);
      if newName in entries.at && entries.at[newName].sentAt >= oldEntry.sentAt {
        return;
      }
      entries := entries.Delete(newName);
      entries := entries.Set(newName, oldEntry.(to := newName));
    }
  }
}
