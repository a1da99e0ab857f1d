/**
 * What happens to a delayed prompt (src/hub/scheduler.ts),
     told by the items and their timers before and after a step of
 * any run: when it is due, what an attempt comes to, and how long it is kept.
 */
module SchedulerRules {
  import opened Options
  import opened Scheduler
  import opened Timers

  function AtLeast0(ms: int): nat {
    if ms < 0 then 0 else ms
  }

  lemma {:induction false} OneMoreStep(c: Config, inputs: seq<Input>, i: Input)
    ensures Run(c, inputs + [i]) == Step(c, Run(c, inputs), i) && Inv(c, Run(c, inputs)) && Inv(c, Run(c, inputs + [i]))
  {
    RunKeeps(c, inputs);
    RunKeeps(c, inputs + [i]);
    assert (inputs + [i])[..|inputs + [i]| - 1] == inputs;
  }

  /** Nothing changes for any other item. */
  ghost predicate OthersStay(s: State, t: State, id: nat) {
    && (forall k :: k != id ==> (k in t.items <==> k in s.items) && (k in t.items ==> t.items[k] == s.items[k]))
    && (forall k :: k != id ==> (k in t.past <==> k in s.past) && (k in t.past ==> t.past[k] == s.past[k]))
    && forall h :: h in s.timers.armed && s.timers.armed[h].owner.id != id ==>
         h in t.timers.armed && t.timers.armed[h] == s.timers.armed[h]
  }

  /** The item waits for its next attempt at this time. */
  ghost predicate TriedAt(s: State, id: nat, due: int) {
    && id in s.items && s.items[id].status == Pending && s.items[id].timer.Some? && s.items[id].pruneTimer.None?
    && s.items[id].timer.value in s.timers.armed
    && s.timers.armed[s.items[id].timer.value] == Timer(Attempting(id), due)
  }

  /** The item is settled, and goes at this time. */
  ghost predicate GoesAt(s: State, id: nat, status: Status, due: int) {
    && id in s.items && s.items[id].status == status && s.items[id].timer.None? && s.items[id].pruneTimer.Some?
    && s.items[id].pruneTimer.value in s.timers.armed
    && s.timers.armed[s.items[id].pruneTimer.value] == Timer(Pruning(id), due)
  }

  /** The milliseconds asked for, without their fraction, if the delay is one that is accepted. */
  predicate Asks(delayMs: Number, ms: int) {
    delayMs.Finite? && ms == delayMs.value.Floor && 0 < ms <= 86_400_000
  }

  /** In every run: a prompt with a positive delay of up to a day is first tried when the delay is over. */
  lemma {:induction false} ScheduledIs(c: Config, inputs: seq<Input>, delayMs: Number, now: int)
    ensures
      var s, t := Run(c, inputs), Run(c, inputs + [Schedule(delayMs, now)]);
      var id := s.nextId;
      && (forall ms: int :: Asks(delayMs, ms) ==>
            && id !in s.items && TriedAt(t, id, now + ms) && OthersStay(s, t, id)
            && t.items[id].fireAt == now + ms && t.items[id].createdAt == now && t.items[id].attempts == 0
            && id in t.past && t.past[id] == History(now + ms, []))
      && ((forall ms: int :: !Asks(delayMs, ms)) ==> t == s)
  {
    OneMoreStep(c, inputs, Schedule(delayMs, now));
    hide Run, Lawful, StillTrying;
    assert delayMs.Finite? ==> (Accepted(delayMs) <==> Asks(delayMs, delayMs.value.Floor));
  }

  /**
   * In every run: an attempt is noted; if the prompt was delivered it is settled, and if not it is tried again exactly
   * one backoff later, until the deadline has passed; a settled one is kept for the retention time.
   */
  lemma {:induction false} AttemptIs(c: Config, inputs: seq<Input>, timer: nat, now: int, ok: bool, after: int)
    requires Run(c, inputs).timers.CanFire(timer, now) && now <= after
    requires Run(c, inputs).timers.armed[timer].owner.Attempting?
    ensures
      var s, t := Run(c, inputs), Run(c, inputs + [Fire(timer, now, ok, after)]);
      var id := s.timers.armed[timer].owner.id;
      && TriedAt(s, id, s.timers.armed[timer].due) && OthersStay(s, t, id)
      && id in t.items && t.items[id].attempts == s.items[id].attempts + 1
      && t.items[id].fireAt == s.items[id].fireAt && t.items[id].createdAt == s.items[id].createdAt
      && id in s.past && id in t.past
      && t.past[id] == History(s.past[id].fireAt, s.past[id].events + [Tried(now, ok)])
      && if ok then GoesAt(t, id, Sent, after + AtLeast0(c.retainMs))
         else if after < s.items[id].fireAt + c.retryDeadlineMs then
           TriedAt(t, id, after + AtLeast0(c.retryBackoffMs))
         else GoesAt(t, id, Failed, after + AtLeast0(c.retainMs))
  {
    hide Run, Inv, Step;
    OneMoreStep(c, inputs, Fire(timer, now, ok, after));
    var s := Run(c, inputs);
    AttemptDue(c, s, timer);
    AttemptTells(c, s, timer, now, ok, after);
    hide TriedAt, GoesAt, OthersStay;
  }

  lemma AttemptDue(c: Config, s: State, timer: nat)
    requires Inv(c, s) && timer in s.timers.armed && s.timers.armed[timer].owner.Attempting?
    ensures s.timers.Wf() && s.timers.armed[timer].owner.id in s.past
    ensures TriedAt(s, s.timers.armed[timer].owner.id, s.timers.armed[timer].due)
    ensures s.items[s.timers.armed[timer].owner.id].timer == Some(timer)
  {
    hide Lawful, StillTrying, StatusIsLastEvent;
    assert TimerOk(timer, s.timers.armed[timer], s.items);
  }

  lemma AttemptTells(c: Config, s: State, timer: nat, now: int, ok: bool, after: int)
    requires s.timers.CanFire(timer, now) && now <= after && s.timers.Wf()
    requires s.timers.armed[timer].owner.Attempting? && s.timers.armed[timer].owner.id in s.past
    requires TriedAt(s, s.timers.armed[timer].owner.id, s.timers.armed[timer].due)
    requires s.items[s.timers.armed[timer].owner.id].timer == Some(timer)
    ensures
      var t, id := Step(c, s, Fire(timer, now, ok, after)), s.timers.armed[timer].owner.id;
      && OthersStay(s, t, id) && id in t.items && t.items[id].attempts == s.items[id].attempts + 1
      && t.items[id].fireAt == s.items[id].fireAt && t.items[id].createdAt == s.items[id].createdAt
      && id in t.past && t.past[id] == History(s.past[id].fireAt, s.past[id].events + [Tried(now, ok)])
      && if ok then GoesAt(t, id, Sent, after + AtLeast0(c.retainMs))
         else if after < s.items[id].fireAt + c.retryDeadlineMs then
           TriedAt(t, id, after + AtLeast0(c.retryBackoffMs))
         else GoesAt(t, id, Failed, after + AtLeast0(c.retainMs))
  {
  }

  /** In every run: a cancellation settles a pending item, and changes nothing for any other. */
  lemma {:induction false} CancelIs(c: Config, inputs: seq<Input>, id: nat, now: int)
    ensures
      var s, t := Run(c, inputs), Run(c, inputs + [Cancel(id, now)]);
      if id in s.items && s.items[id].status == Pending then
        && GoesAt(t, id, Cancelled, now + AtLeast0(c.retainMs)) && OthersStay(s, t, id)
        && t.items[id].attempts == s.items[id].attempts && t.items[id].fireAt == s.items[id].fireAt
        && id in s.past && id in t.past
        && t.past[id] == History(s.past[id].fireAt, s.past[id].events + [Withdrawn])
      else t == s
  {
    hide Run, Inv, Step;
    OneMoreStep(c, inputs, Cancel(id, now));
    PendingIs(c, Run(c, inputs), id);
    CancelTells(c, Run(c, inputs), id, now);
    hide TriedAt, GoesAt, OthersStay;
  }

  lemma PendingIs(c: Config, s: State, id: nat)
    requires Inv(c, s)
    ensures s.timers.Wf()
    ensures id in s.items && s.items[id].status == Pending ==>
              && s.items[id].timer.Some? && s.items[id].timer.value in s.timers.armed && id in s.past
              && TriedAt(s, id, s.timers.armed[s.items[id].timer.value].due)
  {
    hide Lawful, StillTrying, StatusIsLastEvent;
  }

  lemma CancelTells(c: Config, s: State, id: nat, now: int)
    requires s.timers.Wf()
    requires id in s.items && s.items[id].status == Pending ==>
               && s.items[id].timer.Some? && s.items[id].timer.value in s.timers.armed && id in s.past
               && TriedAt(s, id, s.timers.armed[s.items[id].timer.value].due)
    ensures
      var t := Step(c, s, Cancel(id, now));
      if id in s.items && s.items[id].status == Pending then
        && GoesAt(t, id, Cancelled, now + AtLeast0(c.retainMs)) && OthersStay(s, t, id)
        && t.items[id].attempts == s.items[id].attempts && t.items[id].fireAt == s.items[id].fireAt
        && id in s.past && id in t.past
        && t.past[id] == History(s.past[id].fireAt, s.past[id].events + [Withdrawn])
      else t == s
  {
  }

  /** In every run: an item whose retention is over is gone; its history stays as it is. */
  lemma {:induction false} PrunedIs(c: Config, inputs: seq<Input>, timer: nat, now: int, ok: bool, after: int)
    requires Run(c, inputs).timers.CanFire(timer, now) && now <= after
    requires Run(c, inputs).timers.armed[timer].owner.Pruning?
    ensures
      var s, t := Run(c, inputs), Run(c, inputs + [Fire(timer, now, ok, after)]);
      var id := s.timers.armed[timer].owner.id;
      id in s.items && s.items[id].status != Pending && id !in t.items && OthersStay(s, t, id) && t.past == s.past
  {
    OneMoreStep(c, inputs, Fire(timer, now, ok, after));
    hide Run, Lawful, StillTrying, StatusIsLastEvent;
  }

  /** In every run: a stop leaves no item and no timer. */
  lemma {:induction false} StoppedIs(c: Config, inputs: seq<Input>)
    ensures
      var t := Run(c, inputs + [Stop]);
      t.items == map[] && t.timers.armed == map[]
  {
    OneMoreStep(c, inputs, Stop);
    hide Run, Lawful, StillTrying, StatusIsLastEvent;
    var t := Run(c, inputs + [Stop]);
    assert forall h: nat :: h !in t.timers.armed;
  }
}
