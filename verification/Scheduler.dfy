/**
 * Delayed prompts (src/hub/scheduler.ts): an item waits for its time, is tried, and is tried again at a fixed
 * distance while its target is offline, until a deadline.
 *
 * The history of an item says what was done for it and when. Items and armed timers correspond to each other in
 * every run, an item's status tells what was last done for it, and the number of attempts is bounded by the deadline
 * and the backoff.
 */
module Scheduler {
  import opened Options
  import opened Products
  import opened Timers

  const MAX_DELAY_MS := 24 * 60 * 60 * 1000

  datatype Status = Pending | Sent | Failed | Cancelled

  /** Whose timer it is: the next attempt of an item, or the end of its retention. */
  datatype Owner = Attempting(id: nat) | Pruning(id: nat)

  datatype Item = Item(fireAt: int, createdAt: int, status: Status, attempts: nat,
                       timer: Option<nat>, pruneTimer: Option<nat>)

  /** What was done for an item so far: an attempt to deliver it, or its cancellation. */
  datatype Event = Tried(at: int, ok: bool) | Withdrawn
  datatype History = History(fireAt: int, events: seq<Event>)

  datatype Config = Config(retryDeadlineMs: int, retryBackoffMs: int, retainMs: int)

  datatype State = State(items: map<nat, Item>, timers: Runtime<Owner>, nextId: nat, past: map<nat, History>)

  const INITIAL := State(map[], Runtime(map[], 0), 0, map[])

  /** A JavaScript number as the caller may send it. */
  datatype Number = NotFinite | Finite(value: real)

  /** Everything that can happen. A fired attempt learns whether delivery worked, and the time after it. */
  datatype Input =
    | Schedule(delayMs: Number, now: int)
    | Cancel(id: nat, now: int)
    | Fire(timer: nat, now: int, ok: bool, after: int)
    | Stop

  // ----- The operations -----

  predicate Accepted(delayMs: Number) {
    delayMs.Finite? && 0 < delayMs.value.Floor <= MAX_DELAY_MS
  }

  function Scheduled(s: State, delay: int, now: int): State {
    var item := Item(now + delay, now, Pending, 0, Some(s.timers.next), None);
    State(s.items[s.nextId := item], s.timers.Arm(Attempting(s.nextId), now, delay), s.nextId + 1,
          s.past[s.nextId := History(now + delay, [])])
  }

  function Record(s: State, id: nat, e: Event): State {
    if id in s.past then s.(past := s.past[id := s.past[id].(events := s.past[id].events + [e])]) else s
  }

  /** The item reached a terminal status at `now`: it is kept for a while, then pruned. */
  function Settled(c: Config, s: State, id: nat, item: Item, now: int): State {
    var timers := if item.pruneTimer.Some? then s.timers.Disarm(item.pruneTimer.value) else s.timers;
    s.(items := s.items[id := item.(timer := None, pruneTimer := Some(timers.next))],
       timers := timers.Arm(Pruning(id), now, c.retainMs))
  }

  function Cancelling(c: Config, s: State, id: nat, now: int): State {
    if id !in s.items || s.items[id].status != Pending then s
    else
      var item := s.items[id];
      var s := Record(s, id, Withdrawn);
      var s := if item.timer.Some? then s.(timers := s.timers.Disarm(item.timer.value)) else s;
      Settled(c, s, id, item.(status := Cancelled), now)
  }

  function Attempted(c: Config, s: State, id: nat, now: int, ok: bool, after: int): State {
    if id !in s.items || s.items[id].status != Pending then s
    else
      var item := s.items[id].(timer := None, attempts := s.items[id].attempts + 1);
      var s := Record(s, id, Tried(now, ok));
      if ok then Settled(c, s, id, item.(status := Sent), after)
      else if after < item.fireAt + c.retryDeadlineMs then
        s.(items := s.items[id := item.(timer := Some(s.timers.next))],
           timers := s.timers.Arm(Attempting(id), after, c.retryBackoffMs))
      else Settled(c, s, id, item.(status := Failed), after)
  }

  function Fired(c: Config, s: State, t: nat, now: int, ok: bool, after: int): State {
    if !s.timers.CanFire(t, now) || after < now then s
    else
      var owner := s.timers.armed[t].owner;
      var s := s.(timers := s.timers.Disarm(t));
      match owner
      case Attempting(id) => Attempted(c, s, id, now, ok, after)
      case Pruning(id) => s.(items := s.items - {id})
  }

  function Stopped(s: State): State {
    var armed := map t | t in s.timers.armed && !Owned(s.items, t) :: s.timers.armed[t];
    s.(items := map[], timers := Runtime(armed, s.timers.next))
  }

  predicate Owned(items: map<nat, Item>, t: nat) {
    exists id :: id in items && (items[id].timer == Some(t) || items[id].pruneTimer == Some(t))
  }

  function Step(c: Config, s: State, i: Input): State {
    match i
    case Schedule(delayMs, now) => if Accepted(delayMs) then Scheduled(s, delayMs.value.Floor, now) else s
    case Cancel(id, now) => Cancelling(c, s, id, now)
    case Fire(t, now, ok, after) => Fired(c, s, t, now, ok, after)
    case Stop => Stopped(s)
  }

  function Run(c: Config, inputs: seq<Input>): State {
    if inputs == [] then INITIAL else Step(c, Run(c, inputs[..|inputs| - 1]), inputs[|inputs| - 1])
  }

  // ----- What every reachable state keeps -----

  /** A timer waits no less than 0 ms, whatever the configuration says. */
  function Backoff(c: Config): nat {
    if c.retryBackoffMs < 0 then 0 else c.retryBackoffMs
  }

  /** The ceiling of a / b, and 0 when a is negative. */
  function CeilDiv(a: int, b: int): nat
    requires b >= 1
  {
    if a <= 0 then 0 else (a + b - 1) / b
  }

  predicate Bounded(c: Config) {
    Backoff(c) >= 1 || c.retryDeadlineMs <= 0
  }

  /** The first attempt, and one for each backoff that begins before the deadline. */
  function MostAttempts(c: Config): nat
    requires Bounded(c)
  {
    1 + if c.retryDeadlineMs <= 0 then 0 else CeilDiv(c.retryDeadlineMs, Backoff(c))
  }

  /**
   * A lawful past: whatever was done after the first event followed a failed attempt (so at most one
   * attempt succeeded, and nothing follows a success or a cancellation); the k-th attempt came no
   * earlier than k backoffs after the time the item was due; and there were not too many.
   */
  ghost predicate Lawful(c: Config, h: History)
  {
    && (forall i :: 0 <= i < |h.events| - 1 ==> h.events[i].Tried? && !h.events[i].ok)
    && (forall i :: 0 <= i < |h.events| && h.events[i].Tried? ==> h.events[i].at >= h.fireAt + i * Backoff(c))
    && (Bounded(c) ==> |h.events| <= MostAttempts(c))
  }

  /** A pending item has only failed so far, and its next attempt comes late enough. */
  ghost predicate StillTrying(c: Config, item: Item, h: History, due: int)
  {
    && h.fireAt == item.fireAt && |h.events| == item.attempts
    && (forall i :: 0 <= i < |h.events| ==> h.events[i].Tried? && !h.events[i].ok)
    && due >= h.fireAt + item.attempts * Backoff(c)
    && (item.attempts >= 1 ==> (item.attempts - 1) * Backoff(c) < c.retryDeadlineMs)
  }

  /** The status of an item tells its past: what was last done for it. */
  ghost predicate StatusIsLastEvent(item: Item, h: History) {
    match item.status
    case Pending => forall e :: e in h.events ==> e.Tried? && !e.ok
    case Sent => h.events != [] && h.events[|h.events| - 1].Tried? && h.events[|h.events| - 1].ok
    case Failed => h.events != [] && h.events[|h.events| - 1].Tried? && !h.events[|h.events| - 1].ok
    case Cancelled => h.events != [] && h.events[|h.events| - 1].Withdrawn?
  }

  /** A pending item waits for its next attempt, a settled one for its removal, each by an armed timer. */
  ghost predicate ItemOk(c: Config, id: nat, item: Item, h: History, armed: map<nat, Timer<Owner>>) {
    && (item.status == Pending <==> item.timer.Some?)
    && (item.status != Pending <==> item.pruneTimer.Some?)
    && (item.timer.Some? ==>
          && item.timer.value in armed && armed[item.timer.value].owner == Attempting(id)
          && StillTrying(c, item, h, armed[item.timer.value].due))
    && (item.pruneTimer.Some? ==> item.pruneTimer.value in armed && armed[item.pruneTimer.value].owner == Pruning(id))
    && StatusIsLastEvent(item, h)
  }

  /** No timer is armed but those the items wait for. */
  ghost predicate TimerOk(t: nat, timer: Timer<Owner>, items: map<nat, Item>) {
    && timer.owner.id in items
    && (if timer.owner.Attempting? then items[timer.owner.id].timer else items[timer.owner.id].pruneTimer) == Some(t)
  }

  ghost predicate Inv(c: Config, s: State)
  {
    && (forall id :: id in s.items ==> id in s.past && ItemOk(c, id, s.items[id], s.past[id], s.timers.armed))
    && (forall t :: t in s.timers.armed ==> t < s.timers.next && TimerOk(t, s.timers.armed[t], s.items))
    && (forall id :: id in s.past ==> id < s.nextId && Lawful(c, s.past[id]))
  }

  /** n - 1 backoffs fit before the deadline, so one more than n attempts are within the bound. */
  lemma WithinBound(c: Config, n: nat)
    requires n >= 1 ==> (n - 1) * Backoff(c) < c.retryDeadlineMs
    ensures Bounded(c) ==> n + 1 <= MostAttempts(c)
  {
    if n >= 1 && Bounded(c) {
      MulAtLeast(n - 1, 0, Backoff(c));
      var q := CeilDiv(c.retryDeadlineMs, Backoff(c));
      CeilDivCovers(c.retryDeadlineMs, Backoff(c));
      MulAtLeast(if n > q then n - 1 else q, q, Backoff(c));
    }
  }

  lemma CeilDivCovers(d: int, b: int)
    requires b >= 1
    ensures CeilDiv(d, b) * b >= d
  {
    if d > 0 {
      assert d + b - 1 == ((d + b - 1) / b) * b + (d + b - 1) % b;
    }
  }

  lemma LawfulTry(c: Config, item: Item, h: History, due: int, now: int, ok: bool)
    requires StillTrying(c, item, h, due) && due <= now && Lawful(c, h)
    ensures Lawful(c, h.(events := h.events + [Tried(now, ok)]))
  {
    WithinBound(c, item.attempts);
  }

  lemma {:induction false} LawfulCancel(c: Config, item: Item, h: History, due: int)
    requires StillTrying(c, item, h, due) && Lawful(c, h)
    ensures Lawful(c, h.(events := h.events + [Withdrawn]))
  {
    WithinBound(c, item.attempts);
  }

  lemma TryAgain(c: Config, item: Item, h: History, due: int, now: int, after: int)
    requires StillTrying(c, item, h, due) && due <= now <= after
    requires after < item.fireAt + c.retryDeadlineMs
    ensures StillTrying(c, item.(attempts := item.attempts + 1), h.(events := h.events + [Tried(now, false)]),
                        after + Backoff(c))
  {
    MulStep(item.attempts, Backoff(c));
  }

  // ----- Each operation keeps the invariant -----

  /** From `s` to `t` only item `id`, its past, and timers of its own changed. */
  ghost predicate OnlyItem(s: State, t: State, id: nat) {
    && id in t.items && id in t.past && id < t.nextId && s.nextId <= t.nextId
    && t.items == s.items[id := t.items[id]] && t.past == s.past[id := t.past[id]]
    && (forall k :: k in s.timers.armed && s.timers.armed[k].owner.id != id ==>
          k in t.timers.armed && t.timers.armed[k] == s.timers.armed[k])
    && (forall k :: k in t.timers.armed ==> k < t.timers.next)
    && (forall k :: k in t.timers.armed && t.timers.armed[k].owner.id != id ==>
          k in s.timers.armed && t.timers.armed[k] == s.timers.armed[k])
    && (forall k :: k in t.timers.armed && t.timers.armed[k].owner.id == id ==> TimerOk(k, t.timers.armed[k], t.items))
  }

  lemma ItemFrame(c: Config, id: nat, item: Item, h: History, a: map<nat, Timer<Owner>>, b: map<nat, Timer<Owner>>)
    requires ItemOk(c, id, item, h, a)
    requires forall k :: k in a && a[k].owner.id == id ==> k in b && b[k] == a[k]
    ensures ItemOk(c, id, item, h, b)
  {
  }

  /** A change to one item that leaves that item in order leaves everything in order. */
  lemma OnlyItemKeeps(c: Config, s: State, t: State, id: nat)
    requires Inv(c, s) && OnlyItem(s, t, id)
    requires ItemOk(c, id, t.items[id], t.past[id], t.timers.armed) && Lawful(c, t.past[id])
    ensures Inv(c, t)
  {
    hide ItemOk, Lawful;
    forall k | k in t.items
      ensures k in t.past && ItemOk(c, k, t.items[k], t.past[k], t.timers.armed)
    {
      if k != id {
        ItemFrame(c, k, s.items[k], s.past[k], s.timers.armed, t.timers.armed);
      }
    }
  }

  lemma {:induction false} ScheduledKeeps(c: Config, s: State, delay: int, now: int)
    requires Inv(c, s) && delay > 0
    ensures Inv(c, Scheduled(s, delay, now))
  {
    hide ItemOk, Lawful;
    var t := Scheduled(s, delay, now);
    assert forall k :: k in s.timers.armed ==> TimerOk(k, s.timers.armed[k], s.items);
    FreshItem(c, s.nextId, t.items[s.nextId], t.timers.armed);
    OnlyItemKeeps(c, s, t, s.nextId);
  }

  lemma FreshItem(c: Config, id: nat, item: Item, armed: map<nat, Timer<Owner>>)
    requires item.attempts == 0 && item.status == Pending && item.pruneTimer.None?
    requires item.timer.Some? && item.timer.value in armed
             && armed[item.timer.value] == Timer(Attempting(id), item.fireAt)
    ensures Lawful(c, History(item.fireAt, [])) && ItemOk(c, id, item, History(item.fireAt, []), armed)
  {
  }

  /** The one timer of a pending item is its attempt timer. */
  lemma OwnTimer(c: Config, s: State, id: nat, k: nat)
    requires Inv(c, s) && id in s.items && s.items[id].status == Pending
    ensures s.items[id].timer.Some? && s.items[id].pruneTimer.None?
    ensures k in s.timers.armed && s.timers.armed[k].owner.id == id <==> s.items[id].timer == Some(k)
  {
    if k in s.timers.armed {
      assert TimerOk(k, s.timers.armed[k], s.items);
    }
    assert ItemOk(c, id, s.items[id], s.past[id], s.timers.armed);
  }

  /** A pending item gets new fields, a longer past, and one fresh timer instead of the one it had. */
  lemma RearmedKeeps(c: Config, s: State, id: nat, item: Item, e: Event, owner: Owner, due: int)
    requires Inv(c, s) && id in s.items && s.items[id].status == Pending
    requires s.items[id].timer.Some? && owner.id == id
    requires (if owner.Attempting? then item.timer else item.pruneTimer) == Some(s.timers.next)
    requires
      var h := s.past[id].(events := s.past[id].events + [e]);
      var armed := (s.timers.armed - {s.items[id].timer.value})[s.timers.next := Timer(owner, due)];
      Lawful(c, h) && ItemOk(c, id, item, h, armed)
    ensures
      var h := s.past[id].(events := s.past[id].events + [e]);
      var armed := (s.timers.armed - {s.items[id].timer.value})[s.timers.next := Timer(owner, due)];
      Inv(c, State(s.items[id := item], Runtime(armed, s.timers.next + 1), s.nextId, s.past[id := h]))
  {
    hide ItemOk, Lawful;
    var h := s.past[id].(events := s.past[id].events + [e]);
    var armed := (s.timers.armed - {s.items[id].timer.value})[s.timers.next := Timer(owner, due)];
    var t := State(s.items[id := item], Runtime(armed, s.timers.next + 1), s.nextId, s.past[id := h]);
    forall k
      ensures k in s.timers.armed && s.timers.armed[k].owner.id == id <==> s.items[id].timer == Some(k)
    {
      OwnTimer(c, s, id, k);
    }
    hide StatusIsLastEvent, StillTrying;
    assert OnlyItem(s, t, id);
    OnlyItemKeeps(c, s, t, id);
  }

  /** What an item is settled as, after what was last done for it. */
  predicate SettlesAs(status: Status, e: Event) {
    match status
    case Pending => false
    case Sent => e.Tried? && e.ok
    case Failed => e.Tried? && !e.ok
    case Cancelled => e.Withdrawn?
  }

  lemma SettledItemOk(c: Config, id: nat, item: Item, h: History, e: Event, armed: map<nat, Timer<Owner>>)
    requires SettlesAs(item.status, e) && item.timer.None? && item.pruneTimer.Some?
    requires item.pruneTimer.value in armed && armed[item.pruneTimer.value].owner == Pruning(id)
    ensures ItemOk(c, id, item, h.(events := h.events + [e]), armed)
  {
  }

  lemma {:induction false} SettledKeeps(c: Config, s: State, id: nat, e: Event, status: Status, attempts: nat, now: int)
    requires Inv(c, s) && id in s.items && s.items[id].status == Pending
    requires SettlesAs(status, e) && s.items[id].timer.Some?
    requires Lawful(c, s.past[id].(events := s.past[id].events + [e]))
    ensures
      var t := Record(s.(timers := s.timers.Disarm(s.items[id].timer.value)), id, e);
      Inv(c, Settled(c, t, id, s.items[id].(status := status, attempts := attempts, timer := None), now))
  {
    hide Lawful, ItemOk, Inv, SettlesAs;
    InvHasPast(c, s, id);
    OwnTimer(c, s, id, 0);
    var item := s.items[id].(status := status, attempts := attempts, timer := None, pruneTimer := Some(s.timers.next));
    var due := now + if c.retainMs > 0 then c.retainMs else 0;
    SettledItemOk(c, id, item, s.past[id], e,
                  (s.timers.armed - {s.items[id].timer.value})[s.timers.next := Timer(Pruning(id), due)]);
    RearmedKeeps(c, s, id, item, e, Pruning(id), due);
  }

  lemma InvHasPast(c: Config, s: State, id: nat)
    requires Inv(c, s) && id in s.items
    ensures id in s.past && ItemOk(c, id, s.items[id], s.past[id], s.timers.armed) && Lawful(c, s.past[id])
  {
  }

  lemma {:induction false} CancellingKeeps(c: Config, s: State, id: nat, now: int)
    requires Inv(c, s)
    ensures Inv(c, Cancelling(c, s, id, now))
  {
    if id in s.items && s.items[id].status == Pending {
      assert ItemOk(c, id, s.items[id], s.past[id], s.timers.armed);
      LawfulCancel(c, s.items[id], s.past[id], s.timers.armed[s.items[id].timer.value].due);
      SettledKeeps(c, s, id, Withdrawn, Cancelled, s.items[id].attempts, now);
    }
  }

  lemma RetriedItemOk(c: Config, id: nat, item: Item, h: History, e: Event, armed: map<nat, Timer<Owner>>, t: nat,
                      due: int)
    requires StatusIsLastEvent(item, h) && item.status == Pending && item.pruneTimer.None? && e.Tried? && !e.ok
    requires StillTrying(c, item.(attempts := item.attempts + 1), h.(events := h.events + [e]), due)
    requires t in armed && armed[t] == Timer(Attempting(id), due)
    ensures ItemOk(c, id, item.(attempts := item.attempts + 1, timer := Some(t)), h.(events := h.events + [e]), armed)
  {
    StillTryingItem(c, item.(attempts := item.attempts + 1), h.(events := h.events + [e]), due, Some(t));
    hide StillTrying;
  }

  lemma {:induction false} RetriedKeeps(c: Config, s: State, id: nat, now: int, after: int)
    requires Inv(c, s) && now <= after
    requires id in s.items && s.items[id].status == Pending && s.items[id].timer.Some?
    requires s.timers.CanFire(s.items[id].timer.value, now) && after < s.items[id].fireAt + c.retryDeadlineMs
    ensures Inv(c, Attempted(c, s.(timers := s.timers.Disarm(s.items[id].timer.value)), id, now, false, after))
  {
    hide Lawful, Inv;
    InvHasPast(c, s, id);
    var item, h, e := s.items[id], s.past[id], Tried(now, false);
    hide StatusIsLastEvent;
    var was, due := s.timers.armed[item.timer.value].due, after + Backoff(c);
    LawfulTry(c, item, h, was, now, false);
    TryAgain(c, item, h, was, now, after);
    hide StillTrying;
    var armed := (s.timers.armed - {item.timer.value})[s.timers.next := Timer(Attempting(id), due)];
    RetriedItemOk(c, id, item, h, e, armed, s.timers.next, due);
    hide ItemOk;
    RearmedKeeps(c, s, id, item.(attempts := item.attempts + 1, timer := Some(s.timers.next)), e, Attempting(id), due);
  }

  lemma {:induction false} EndedKeeps(c: Config, s: State, id: nat, now: int, ok: bool, after: int)
    requires Inv(c, s) && now <= after
    requires id in s.items && s.items[id].status == Pending && s.items[id].timer.Some?
    requires s.timers.CanFire(s.items[id].timer.value, now)
    requires ok || after >= s.items[id].fireAt + c.retryDeadlineMs
    ensures Inv(c, Attempted(c, s.(timers := s.timers.Disarm(s.items[id].timer.value)), id, now, ok, after))
  {
    hide Lawful, Inv, Settled, StatusIsLastEvent;
    var item := s.items[id];
    InvHasPast(c, s, id);
    LawfulTry(c, item, s.past[id], s.timers.armed[item.timer.value].due, now, ok);
    hide ItemOk, StillTrying;
    SettledKeeps(c, s, id, Tried(now, ok), if ok then Sent else Failed, item.attempts + 1, after);
  }

  lemma {:induction false} AttemptedKeeps(c: Config, s: State, id: nat, now: int, ok: bool, after: int)
    requires Inv(c, s) && now <= after
    requires id in s.items && s.items[id].status == Pending && s.items[id].timer.Some?
    requires s.timers.CanFire(s.items[id].timer.value, now)
    ensures Inv(c, Attempted(c, s.(timers := s.timers.Disarm(s.items[id].timer.value)), id, now, ok, after))
  {
    hide Inv, Attempted;
    if !ok && after < s.items[id].fireAt + c.retryDeadlineMs {
      RetriedKeeps(c, s, id, now, after);
    } else {
      EndedKeeps(c, s, id, now, ok, after);
    }
  }

  lemma StillTryingItem(c: Config, item: Item, h: History, due: int, timer: Option<nat>)
    requires StillTrying(c, item, h, due)
    ensures StillTrying(c, item.(timer := timer), h, due)
  {
  }

  lemma PrunedKeeps(c: Config, s: State, t: nat)
    requires Inv(c, s) && t in s.timers.armed && s.timers.armed[t].owner.Pruning?
    ensures Inv(c, s.(timers := s.timers.Disarm(t), items := s.items - {s.timers.armed[t].owner.id}))
  {
    hide Lawful, StillTrying, StatusIsLastEvent;
    var id := s.timers.armed[t].owner.id;
    assert TimerOk(t, s.timers.armed[t], s.items);
    assert ItemOk(c, id, s.items[id], s.past[id], s.timers.armed);
    forall k | k in s.timers.armed && k != t
      ensures s.timers.armed[k].owner.id != id
    {
      assert TimerOk(k, s.timers.armed[k], s.items);
    }
  }

  lemma {:induction false} FiredKeeps(c: Config, s: State, t: nat, now: int, ok: bool, after: int)
    requires Inv(c, s)
    ensures Inv(c, Fired(c, s, t, now, ok, after))
  {
    hide Lawful, Attempted;
    if s.timers.CanFire(t, now) && now <= after {
      var o := s.timers.armed[t].owner;
      assert TimerOk(t, s.timers.armed[t], s.items);
      assert ItemOk(c, o.id, s.items[o.id], s.past[o.id], s.timers.armed);
      if o.Attempting? {
        AttemptedKeeps(c, s, o.id, now, ok, after);
      } else {
        PrunedKeeps(c, s, t);
      }
    }
  }

  lemma StoppedKeeps(c: Config, s: State)
    requires Inv(c, s)
    ensures Inv(c, Stopped(s)) && Stopped(s).timers.armed == map[]
  {
    forall t | t in s.timers.armed
      ensures Owned(s.items, t)
    {
      assert TimerOk(t, s.timers.armed[t], s.items);
    }
  }

  lemma {:induction false} StepKeeps(c: Config, s: State, i: Input)
    requires Inv(c, s)
    ensures Inv(c, Step(c, s, i))
  {
    match i
    case Schedule(delayMs, now) =>
      if Accepted(delayMs) {
        ScheduledKeeps(c, s, delayMs.value.Floor, now);
      }
    case Cancel(id, now) => CancellingKeeps(c, s, id, now);
    case Fire(t, now, ok, after) => FiredKeeps(c, s, t, now, ok, after);
    case Stop => StoppedKeeps(c, s);
  }

  lemma {:induction false} RunKeeps(c: Config, inputs: seq<Input>)
    ensures Inv(c, Run(c, inputs))
  {
    if inputs != [] {
      RunKeeps(c, inputs[..|inputs| - 1]);
      StepKeeps(c, Run(c, inputs[..|inputs| - 1]), inputs[|inputs| - 1]);
    }
  }

  // ----- What this means for every run -----

  /** An item is pending exactly when the timer of its next attempt is armed; no timer is armed twice. */
  lemma PendingIffArmed(c: Config, inputs: seq<Input>, id: nat)
    ensures
      var s := Run(c, inputs);
      && ((id in s.items && s.items[id].status == Pending)
          <==> (exists t :: t in s.timers.armed && s.timers.armed[t].owner == Attempting(id)))
      && (forall t, u :: t in s.timers.armed && u in s.timers.armed ==>
                           (s.timers.armed[t].owner == s.timers.armed[u].owner ==> t == u))
  {
    RunKeeps(c, inputs);
    hide Lawful, StillTrying, StatusIsLastEvent, Run;
    var s := Run(c, inputs);
    if id in s.items && s.items[id].status == Pending {
      assert ItemOk(c, id, s.items[id], s.past[id], s.timers.armed);
    }
    if t :| t in s.timers.armed && s.timers.armed[t].owner == Attempting(id) {
      assert TimerOk(t, s.timers.armed[t], s.items);
      assert ItemOk(c, id, s.items[id], s.past[id], s.timers.armed);
    }
    forall t, u | t in s.timers.armed && u in s.timers.armed && s.timers.armed[t].owner == s.timers.armed[u].owner
      ensures t == u
    {
      assert TimerOk(t, s.timers.armed[t], s.items) && TimerOk(u, s.timers.armed[u], s.items);
    }
  }

  /**
   * For every timer schedule, however late: at most one attempt succeeds and nothing is done after it; the k-th
   * retry comes no earlier than k backoffs after the item was due, and none after a cancellation; and the number of
   * attempts is bounded, if the backoff is not zero or no retry is ever in time.
   */
  lemma AtMostOnce(c: Config, inputs: seq<Input>, id: nat)
    requires id in Run(c, inputs).past
    ensures
      var h := Run(c, inputs).past[id];
      && (forall i :: 0 <= i < |h.events| - 1 ==> h.events[i].Tried? && !h.events[i].ok)
      && (forall i :: 0 <= i < |h.events| && h.events[i].Tried? ==> h.events[i].at >= h.fireAt + i * Backoff(c))
      && (Bounded(c) ==> |h.events| <= MostAttempts(c))
  {
    RunKeeps(c, inputs);
    hide Run, Backoff;
    assert Lawful(c, Run(c, inputs).past[id]);
  }

  /** One item, and n failed attempts at the very time it is due. */
  function Hammering(n: nat): seq<Input> {
    if n == 0 then [] + [Schedule(Finite(1.0), 0)] else Hammering(n - 1) + [Fire(n - 1, 1, false, 1)]
  }

  /** The item waits for its next attempt, which is due at time 1. */
  ghost predicate Due(s: State, n: nat) {
    && 0 in s.items && s.items[0].status == Pending && s.items[0].fireAt == 1 && s.timers.next == n + 1
    && n in s.timers.armed && s.timers.armed[n] == Timer(Attempting(0), 1)
    && 0 in s.past && |s.past[0].events| == n
  }

  /** Otherwise there is no bound: without a backoff, n attempts can be made at one time, for every n. */
  lemma {:induction false} NoBackoffNoBound(c: Config, n: nat)
    requires !Bounded(c)
    ensures Due(Run(c, Hammering(n)), n)
  {
    hide Step;
    if n == 0 {
      RunOne(c, [], Schedule(Finite(1.0), 0));
      assert Run(c, []) == INITIAL;
      hide Run;
      FirstDue(c);
    } else {
      NoBackoffNoBound(c, n - 1);
      RunOne(c, Hammering(n - 1), Fire(n - 1, 1, false, 1));
      hide Run, Hammering;
      DueAgain(c, Run(c, Hammering(n - 1)), n - 1);
      assert Hammering(n) == Hammering(n - 1) + [Fire(n - 1, 1, false, 1)] by { HammeringSnoc(n); }
    }
  }

  lemma HammeringSnoc(n: nat)
    requires n > 0
    ensures Hammering(n) == Hammering(n - 1) + [Fire(n - 1, 1, false, 1)]
  {
  }

  lemma RunOne(c: Config, before: seq<Input>, i: Input)
    ensures Run(c, before + [i]) == Step(c, Run(c, before), i)
  {
    assert (before + [i])[..|before + [i]| - 1] == before;
  }

  lemma FirstDue(c: Config)
    ensures Due(Step(c, INITIAL, Schedule(Finite(1.0), 0)), 0)
  {
    assert 1.0.Floor == 1;
  }

  lemma DueAgain(c: Config, s: State, n: nat)
    requires !Bounded(c) && Due(s, n)
    ensures Due(Step(c, s, Fire(n, 1, false, 1)), n + 1)
  {
  }

  /** Reported statuses are true: sent, failed and cancelled say what was last done, pending that all failed. */
  lemma StatusTellsPast(c: Config, inputs: seq<Input>, id: nat)
    requires id in Run(c, inputs).items
    ensures id in Run(c, inputs).past && StatusIsLastEvent(Run(c, inputs).items[id], Run(c, inputs).past[id])
  {
    RunKeeps(c, inputs);
    var s := Run(c, inputs);
    assert ItemOk(c, id, s.items[id], s.past[id], s.timers.armed);
  }

  /** A settled item stays as it is until it is dropped: no step brings it back or tries it again. */
  lemma TerminalAbsorbing(c: Config, inputs: seq<Input>, i: Input, id: nat)
    requires id in Run(c, inputs).items && Run(c, inputs).items[id].status != Pending
    ensures
      var s := Run(c, inputs);
      var t := Step(c, s, i);
      && id in s.past && id in t.past && t.past[id] == s.past[id]
      && (id in t.items ==> t.items[id] == s.items[id])
  {
    RunKeeps(c, inputs);
    hide Lawful, StillTrying, StatusIsLastEvent, Run;
    var s := Run(c, inputs);
    assert id in s.past && id < s.nextId;
    if i.Fire? && i.timer in s.timers.armed {
      assert TimerOk(i.timer, s.timers.armed[i.timer], s.items);
      assert ItemOk(c, id, s.items[id], s.past[id], s.timers.armed);
    }
  }

  // ----- The scheduler -----

  class Scheduler {
    const c: Config
    var items: map<nat, Item>
    var timers: Runtime<Owner>
    var nextId: nat
    ghost var past: map<nat, History>

    ghost function Abs(): State
      reads this
    {
      State(items, timers, nextId, past)
    }

    constructor (c: Config)
      ensures Abs() == INITIAL && this.c == c
    {
      this.c := c;
      items, timers, nextId, past := map[], Runtime(map[], 0), 0, map[];
    }

    method Schedule(delayMs: Number, now: int) returns (id: Option<nat>)
      modifies this
      ensures Abs() == Step(c, old(Abs()), Input.Schedule(delayMs, now))
      ensures id == if Accepted(delayMs) then Some(old(nextId)) else None
    {
      if delayMs.NotFinite? {
        return None;
      }
      var delay := delayMs.value.Floor;
      if delay <= 0 || delay > MAX_DELAY_MS {
        return None;
      }
      var newId := nextId;
      nextId := nextId + 1;
      items := items[newId := Item(now + delay, now, Pending, 0, None, None)];
      past := past[newId := History(now + delay, [])];
      var handle := timers.next;
      timers := timers.Arm(Attempting(newId), now, delay);
      items := items[newId := items[newId].(timer := Some(handle))];
      return Some(newId);
    }

    method Cancel(id: nat, now: int) returns (ok: bool)
      modifies this
      ensures Abs() == Step(c, old(Abs()), Input.Cancel(id, now))
      ensures ok <==> id in old(items) && old(items)[id].status == Pending
    {
      if id !in items || items[id].status != Pending {
        return false;
      }
      var item := items[id];
      if item.timer.Some? {
        timers := timers.Disarm(item.timer.value);
      }
      past := Record(Abs(), id, Withdrawn).past;
      SchedulePrune(id, item.(timer := None, status := Cancelled), now);
      return true;
    }

    /** An armed timer fires: the runtime disarms it and runs its callback. */
    method OnTimer(t: nat, now: int, ok: bool, after: int)
      requires timers.CanFire(t, now) && now <= after
      modifies this
      ensures Abs() == Step(c, old(Abs()), Fire(t, now, ok, after))
    {
      var owner := timers.armed[t].owner;
      timers := timers.Disarm(t);
      match owner
      case Attempting(id) => Attempt(id, now, ok, after);
      case Pruning(id) => items := items - {id};
    }

    /** `ok` is what delivering turns out to be, `after` the time when that is known. */
    method Attempt(id: nat, now: int, ok: bool, after: int)
      modifies this
      ensures Abs() == Attempted(c, old(Abs()), id, now, ok, after)
    {
      if id !in items || items[id].status != Pending {
        return;
      }
      var item := items[id].(timer := None, attempts := items[id].attempts + 1);
      past := Record(Abs(), id, Tried(now, ok)).past;
      if ok {
        SchedulePrune(id, item.(status := Sent), after);
        return;
      }
      if after < item.fireAt + c.retryDeadlineMs {
        items := items[id := item.(timer := Some(timers.next))];
        timers := timers.Arm(Attempting(id), after, c.retryBackoffMs);
        return;
      }
      SchedulePrune(id, item.(status := Failed), after);
    }

    /** Stores the item as settled and arms the timer of its removal. */
    method SchedulePrune(id: nat, item: Item, now: int)
      requires item.timer.None?
      modifies `items, `timers
      ensures Abs() == Settled(c, old(Abs()), id, item, now)
    {
      if item.pruneTimer.Some? {
        timers := timers.Disarm(item.pruneTimer.value);
      }
      items := items[id := item.(pruneTimer := Some(timers.next))];
      timers := timers.Arm(Pruning(id), now, c.retainMs);
    }

    /** Disarms every timer of every item, and forgets the items. */
    method Stop()
      modifies this
      ensures Abs() == Step(c, old(Abs()), Input.Stop)
    {
      var left := items.Keys;
      ghost var done: map<nat, Item> := map[];
      while left != {}
        invariant items == old(items) && nextId == old(nextId) && past == old(past)
        invariant done.Keys + left == items.Keys && done.Keys !! left && forall k :: k in done ==> done[k] == items[k]
        invariant timers.next == old(timers.next)
        invariant forall t :: t in timers.armed <==> t in old(timers.armed) && !Owned(done, t)
        invariant forall t :: t in timers.armed ==> timers.armed[t] == old(timers.armed)[t]
        decreases left
      {
        var id :| id in left;
        left := left - {id};
        OwnedOneMore(done, id, items[id]);
        done := done[id := items[id]];
        hide Owned;
        if items[id].timer.Some? {
          timers := timers.Disarm(items[id].timer.value);
        }
        if items[id].pruneTimer.Some? {
          timers := timers.Disarm(items[id].pruneTimer.value);
        }
      }
      assert done == items;
      items := map[];
    }
  }

  lemma OwnedOneMore(items: map<nat, Item>, id: nat, item: Item)
    requires id !in items
    ensures forall t: nat :: Owned(items[id := item], t) <==>
                               Owned(items, t) || item.timer == Some(t) || item.pruneTimer == Some(t)
  {
    forall t: nat
      ensures Owned(items[id := item], t) <==> Owned(items, t) || item.timer == Some(t) || item.pruneTimer == Some(t)
    {
      var more := items[id := item];
      if Owned(items, t) {
        var k :| k in items && (items[k].timer == Some(t) || items[k].pruneTimer == Some(t));
        assert k in more && more[k] == items[k];
      }
      if item.timer == Some(t) || item.pruneTimer == Some(t) {
        assert more[id] == item;
      }
    }
  }
}
