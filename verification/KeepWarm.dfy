/**
 * Keeping prompt caches warm (src/hub/keep-warm.ts): timers check enabled sessions, and ping those idle long enough.
 */
module KeepWarm {
  import opened Options
  import opened Products
  import opened Text
  import opened Timers

  // ----- Keys -----

  function KeyFor(sid: string, host: Option<string>): string {
    (if host.Some? then host.value else "") + "|" + sid
  }

  function SidOfKey(key: string): string {
    var i := IndexOf(key, '|');
    if i >= 0 then key[i + 1..] else key
  }

  /** The sid is read back from a key just when the host has no separator in it. */
  lemma SidOfKeyExact(sid: string, host: Option<string>)
    ensures SidOfKey(KeyFor(sid, host)) == sid <==> host.None? || '|' !in host.value
  {
    var h := if host.Some? then host.value else "";
    var key := KeyFor(sid, host);
    var i := IndexOf(key, '|');
    assert key[|h|] == '|' && key[|h| + 1..] == sid;
    assert i <= |h| && (i < |h| ==> h[i] == key[i]);
    if '|' in h {
      var j :| 0 <= j < |h| && h[j] == '|';
      assert key[j] == '|';
      assert |key[i + 1..]| > |sid|;
    }
  }

  // ----- State -----

  datatype Activity = Busy | AwaitingInput | Background

  datatype Session = Session(lastEventAt: int, activity: Activity, awaitingUser: bool, open: bool, attached: bool,
                             lastUserPromptAt: int)

  datatype Reason = NotIdle | RecentlyPinged | Detached | IsBusy | AwaitingUser | Abandoned

  datatype Item = Item(sid: string, host: Option<string>, nextCheckAt: int, lastSkipReason: Option<Reason>,
                       failed: bool, timer: Option<nat>)

  /** What happened to one key: a ping records when it was sent and how the session looked then. */
  datatype Event = Enabled | Pinged(at: int, session: Session) | Disabled | Forgotten

  datatype Config = Config(intervalMs: int, recheckMs: int, maxConsecutivePings: int)

  datatype State = State(items: map<string, Item>, lastPingAt: map<string, int>, consecutivePings: map<string, nat>,
                         timers: Runtime<string>, stopped: bool, past: map<string, seq<Event>>)

  const INITIAL := State(map[], map[], map[], Runtime(map[], 0), false, map[])

  datatype Input =
    | Enable(sid: string, host: Option<string>, session: Option<Session>, now: int)
    | Disable(sid: string, host: Option<string>, forget: bool)
    | Fire(timer: nat, session: Option<Session>, now: int, ok: bool, after: int)
    | Stop

  function Past(s: State, key: string): seq<Event> {
    if key in s.past then s.past[key] else []
  }

  function Noted(past: map<string, seq<Event>>, keys: set<string>, e: Event): map<string, seq<Event>> {
    map k | k in past.Keys + keys :: if k in keys then (if k in past then past[k] else []) + [e] else past[k]
  }

  function Max(a: int, b: int): int {
    if a < b then b else a
  }

  // ----- The operations -----

  /** The session is put under watch; `Math.max(0, idle since the last event, floor since the last ping)`. */
  function Enabling(c: Config, s: State, sid: string, host: Option<string>, session: Session, now: int): State {
    var key := KeyFor(sid, host);
    var idle := Max(0, session.lastEventAt + c.intervalMs - now);
    var dueIn := if key in s.lastPingAt then Max(idle, s.lastPingAt[key] + c.recheckMs - now) else idle;
    var host := if host.Some? && host.value != "" then host else None;
    s.(items := s.items[key := Item(sid, host, now + dueIn, None, false, Some(s.timers.next))],
       timers := s.timers.Arm(key, now, dueIn),
       past := Noted(s.past, {key}, Enabled))
  }

  function TimersOf(items: map<string, Item>, keys: set<string>): set<nat> {
    set k | k in keys && k in items && items[k].timer.Some? :: items[k].timer.value
  }

  function Removing(s: State, keys: set<string>): State {
    s.(items := s.items - keys, consecutivePings := s.consecutivePings - keys,
       timers := Runtime(s.timers.armed - TimersOf(s.items, keys), s.timers.next),
       past := Noted(s.past, keys, Disabled))
  }

  function Forgetting(s: State, keys: set<string>): State {
    s.(lastPingAt := s.lastPingAt - keys, past := Noted(s.past, keys, Forgotten))
  }

  function EnabledKeys(s: State, sid: string, host: Option<string>): set<string> {
    if host.Some? then (if KeyFor(sid, host) in s.items then {KeyFor(sid, host)} else {})
    else set k | k in s.items && s.items[k].sid == sid
  }

  function ForgottenKeys(s: State, sid: string, host: Option<string>): set<string> {
    if host.Some? then {KeyFor(sid, host)} else set k | k in s.lastPingAt && SidOfKey(k) == sid
  }

  /** The item waits for its next check; `now` is read when its timer is armed. */
  function Rearmed(s: State, key: string, item: Item, now: int, ms: int): State {
    var delay := Max(0, ms);
    s.(items := s.items[key := item.(nextCheckAt := now + delay, timer := Some(s.timers.next))],
       timers := s.timers.Arm(key, now, delay))
  }

  /** One more ping would be too many with nobody around. */
  function Streak(s: State, key: string, session: Session): nat {
    if key !in s.lastPingAt || session.lastUserPromptAt > s.lastPingAt[key] || key !in s.consecutivePings then 0
    else s.consecutivePings[key]
  }

  /** The check of an item whose timer has just fired (and is no longer armed). */
  function Checked(c: Config, s: State, key: string, session: Option<Session>, now: int, ok: bool, after: int): State {
    if key !in s.items then s
    else
      var item := s.items[key].(timer := None, lastSkipReason := None, failed := false);
      if session.None? || !session.value.open then Removing(s.(items := s.items[key := item]), {key})
      else
        var st := session.value;
        var elapsed := now - st.lastEventAt;
        if elapsed < c.intervalMs then
          Rearmed(s, key, item.(lastSkipReason := Some(NotIdle)), after, c.intervalMs - elapsed)
        else if key in s.lastPingAt && now - s.lastPingAt[key] < c.recheckMs then
          Rearmed(s, key, item.(lastSkipReason := Some(RecentlyPinged)), after, c.recheckMs - (now - s.lastPingAt[key]))
        else if !st.attached then Rearmed(s, key, item.(lastSkipReason := Some(Detached)), after, c.recheckMs)
        else if st.activity == Busy then Rearmed(s, key, item.(lastSkipReason := Some(IsBusy)), after, c.recheckMs)
        else if st.awaitingUser then Rearmed(s, key, item.(lastSkipReason := Some(AwaitingUser)), after, c.recheckMs)
        else if Streak(s, key, st) + 1 > c.maxConsecutivePings then Removing(s.(items := s.items[key := item]), {key})
        else if ok then
          Rearmed(s.(lastPingAt := s.lastPingAt[key := now],
                     consecutivePings := s.consecutivePings[key := Streak(s, key, st) + 1],
                     past := Noted(s.past, {key}, Pinged(now, st))), key, item, after, c.intervalMs)
        else Rearmed(s, key, item.(failed := true), after, c.recheckMs)
  }

  function Step(c: Config, s: State, i: Input): State {
    match i
    case Enable(sid, host, session, now) =>
      if s.stopped || KeyFor(sid, host) in s.items || session.None? || !session.value.open then s
      else Enabling(c, s, sid, host, session.value, now)
    case Disable(sid, host, forget) =>
      var t := Removing(s, EnabledKeys(s, sid, host));
      if forget then Forgetting(t, ForgottenKeys(t, sid, host)) else t
    case Fire(t, session, now, ok, after) =>
      if !s.timers.CanFire(t, now) then s
      else Checked(c, s.(timers := s.timers.Disarm(t)), s.timers.armed[t].owner, session, now, ok, after)
    case Stop => Removing(s, s.items.Keys).(stopped := true)
  }

  function Run(c: Config, inputs: seq<Input>): State {
    if inputs == [] then INITIAL else Step(c, Run(c, inputs[..|inputs| - 1]), inputs[|inputs| - 1])
  }

  // ----- The past of one key -----

  function Pings(h: seq<Event>): seq<Event> {
    if h == [] then [] else Pings(h[..|h| - 1]) + if h[|h| - 1].Pinged? then [h[|h| - 1]] else []
  }

  /** The last ping that has not been forgotten. */
  function LastPing(h: seq<Event>): Option<int> {
    if h == [] then None
    else match h[|h| - 1]
      case Pinged(at, _) => Some(at)
      case Forgotten => None
      case _ => LastPing(h[..|h| - 1])
  }

  /** How many pings in a row were sent since the session was enabled or a user last turned up. */
  function Unattended(h: seq<Event>): nat {
    if h == [] then 0
    else match h[|h| - 1]
      case Pinged(_, st) =>
        var last := LastPing(h[..|h| - 1]);
        if last.None? || st.lastUserPromptAt > last.value then 1 else Unattended(h[..|h| - 1]) + 1
      case _ => 0
  }

  function IsEnabled(h: seq<Event>): bool {
    if h == [] then false
    else match h[|h| - 1]
      case Enabled => true
      case Disabled => false
      case _ => IsEnabled(h[..|h| - 1])
  }

  /** One event may follow a past: pings keep their distance and their number, and find the session ready. */
  ghost predicate MayFollow(c: Config, h: seq<Event>, e: Event) {
    e.Pinged? ==>
      && IsEnabled(h)
      && (LastPing(h).Some? ==> e.at - LastPing(h).value >= c.recheckMs)
      && Unattended(h + [e]) <= c.maxConsecutivePings
      && e.session.open && e.session.attached && e.session.activity != Busy && !e.session.awaitingUser
      && e.at - e.session.lastEventAt >= c.intervalMs
  }

  ghost predicate Lawful(c: Config, h: seq<Event>) {
    forall i :: 0 <= i < |h| ==> MayFollow(c, h[..i], h[i])
  }

  lemma LawfulAppend(c: Config, h: seq<Event>, e: Event)
    requires Lawful(c, h) && MayFollow(c, h, e)
    ensures Lawful(c, h + [e])
  {
    forall i | 0 <= i < |h + [e]|
      ensures MayFollow(c, (h + [e])[..i], (h + [e])[i])
    {
      assert (h + [e])[..i] == if i < |h| then h[..i] else h;
    }
  }

  /** No ping of this stretch follows a user prompt that is newer than the ping before it. */
  ghost predicate Unprompted(pings: seq<Event>) {
    && (forall i :: 0 <= i < |pings| ==> pings[i].Pinged?)
    && forall i :: 0 <= i < |pings| - 1 ==> pings[i + 1].session.lastUserPromptAt <= pings[i].at
  }

  ghost predicate OnlyPings(h: seq<Event>) {
    forall i :: 0 <= i < |h| ==> h[i].Pinged?
  }

  ghost predicate NothingForgotten(h: seq<Event>) {
    forall i :: 0 <= i < |h| ==> !h[i].Forgotten?
  }

  /** A stretch of n unprompted pings, within one enabled period, counts n in the streak. */
  lemma {:induction false} StretchCounts(h: seq<Event>, i: nat, j: nat)
    requires i < j <= |h| && OnlyPings(h[i..j]) && Unprompted(h[i..j])
    ensures Unattended(h[..j]) >= j - i && LastPing(h[..j]) == Some(h[j - 1].at)
    decreases j
  {
    assert h[..j][..j - 1] == h[..j - 1];
    assert h[i..j][j - 1 - i] == h[j - 1];
    if i < j - 1 {
      assert h[i..j - 1] == h[i..j][..j - 1 - i];
      StretchCounts(h, i, j - 1);
      assert h[i..j][j - 2 - i] == h[j - 2];
    }
  }

  /** In a lawful past no stretch of pings with nobody around is longer than the limit. */
  lemma LawfulStretch(c: Config, h: seq<Event>, i: nat, j: nat)
    requires Lawful(c, h) && i < j <= |h| && OnlyPings(h[i..j]) && Unprompted(h[i..j])
    ensures j - i <= c.maxConsecutivePings
  {
    StretchCounts(h, i, j);
    assert h[i..j][j - 1 - i] == h[j - 1];
    assert MayFollow(c, h[..j - 1], h[j - 1]);
    assert h[..j] == h[..j - 1] + [h[j - 1]];
  }

  lemma {:induction false} LastPingIs(h: seq<Event>)
    requires NothingForgotten(h)
    ensures forall i :: 0 <= i < |Pings(h)| ==> Pings(h)[i].Pinged?
    ensures LastPing(h) == if Pings(h) == [] then None else Some(Pings(h)[|Pings(h)| - 1].at)
  {
    if h != [] {
      LastPingIs(h[..|h| - 1]);
    }
  }

  /** While nothing is forgotten, from one ping to the n-th after it there are at least n floors. */
  lemma {:induction false} LawfulSpacing(c: Config, h: seq<Event>, i: nat, j: nat)
    requires Lawful(c, h) && NothingForgotten(h) && i <= j < |Pings(h)|
    ensures Pings(h)[i].Pinged? && Pings(h)[j].Pinged?
    ensures (j - i) * c.recheckMs <= Pings(h)[j].at - Pings(h)[i].at
  {
    hide Unattended, IsEnabled;
    LastPingIs(h);
    if i < j {
      var n := |h| - 1;
      var before := h[..n];
      LastPingIs(before);
      assert forall k :: 0 <= k < n ==> h[..k] == before[..k];
      if j < |Pings(before)| {
        LawfulSpacing(c, before, i, j);
      } else {
        LawfulSpacing(c, before, i, j - 1);
        assert MayFollow(c, h[..n], h[n]);
        MulStep(j - 1 - i, c.recheckMs);
      }
    }
  }

  lemma {:induction false} OneMoreEvent(h: seq<Event>, e: Event)
    ensures Pings(h + [e]) == Pings(h) + if e.Pinged? then [e] else []
    ensures LastPing(h + [e]) == if e.Pinged? then Some(e.at) else if e.Forgotten? then None else LastPing(h)
    ensures NothingForgotten(h + [e]) ==> NothingForgotten(h) && !e.Forgotten?
  {
    var t := h + [e];
    assert t[..|t| - 1] == h && t[|t| - 1] == e;
    SameButLast(h, e);
    hide NothingForgotten;
  }

  lemma {:induction false} SameButLast(h: seq<Event>, e: Event)
    ensures NothingForgotten(h + [e]) ==> NothingForgotten(h) && !e.Forgotten?
  {
    var t := h + [e];
    assert t[|h|] == e && forall i :: 0 <= i < |h| ==> t[i] == h[i];
  }

  /** The time that `n` floors take. */
  function Floors(c: Config, n: nat): int {
    n * c.recheckMs
  }

  lemma OneMoreFloor(c: Config, n: nat)
    ensures Floors(c, n + 1) == Floors(c, n) + c.recheckMs && Floors(c, 0) == 0
  {
    MulStep(n, c.recheckMs);
  }

  /** From a ping on, as long as nothing is forgotten, each further ping adds a floor. */
  lemma {:induction false} FloorsBetween(c: Config, h: seq<Event>, a: nat, b: nat)
    requires Lawful(c, h) && a < b <= |h| && h[a].Pinged? && NothingForgotten(h[a + 1..b])
    ensures LastPing(h[..b]).Some?
    ensures Floors(c, |Pings(h[a + 1..b])|) <= LastPing(h[..b]).value - h[a].at
    decreases b
  {
    hide Lawful, Pings, LastPing, NothingForgotten, Floors;
    var e := h[b - 1];
    OneMoreEvent(h[..b - 1], e);
    Snoc(h, 0, b);
    if b == a + 1 {
      NoPings(h[a + 1..b]);
      OneMoreFloor(c, 0);
    } else {
      var w := h[a + 1..b - 1];
      Snoc(h, a + 1, b);
      OneMoreEvent(w, e);
      FloorsBetween(c, h, a, b - 1);
      OneMoreFloor(c, |Pings(w)|);
      if e.Pinged? {
        NextFloor(c, h, b);
      }
    }
  }

  lemma NextFloor(c: Config, h: seq<Event>, b: nat)
    requires Lawful(c, h) && 0 < b <= |h| && h[b - 1].Pinged?
    ensures LastPing(h[..b - 1]).Some? ==> h[b - 1].at - LastPing(h[..b - 1]).value >= c.recheckMs
  {
    assert MayFollow(c, h[..b - 1], h[b - 1]);
  }

  lemma NoPings(h: seq<Event>)
    requires h == []
    ensures Pings(h) == []
  {
  }

  lemma Snoc(h: seq<Event>, a: nat, b: nat)
    requires a < b <= |h|
    ensures h[a..b] == h[a..b - 1] + [h[b - 1]]
    ensures a == 0 ==> h[..b] == h[..b - 1] + [h[b - 1]]
  {
  }

  // ----- What every reachable state keeps -----

  function StreakOf(s: State, key: string): nat {
    if key in s.consecutivePings then s.consecutivePings[key] else 0
  }

  function FloorOf(s: State, key: string): Option<int> {
    if key in s.lastPingAt then Some(s.lastPingAt[key]) else None
  }

  /** The two counters of a key say what its past says. */
  ghost predicate PastOk(c: Config, h: seq<Event>, floor: Option<int>, streak: nat, enabled: bool) {
    && Lawful(c, h) && floor == LastPing(h) && enabled == IsEnabled(h)
    && (floor.Some? ==> streak == Unattended(h))
    && (!enabled ==> streak == 0)
  }

  ghost predicate KeyOk(c: Config, s: State, key: string) {
    PastOk(c, Past(s, key), FloorOf(s, key), StreakOf(s, key), key in s.items)
  }

  /** An item waits for its own armed timer, except a loose one, which waits for none. */
  ghost predicate ItemOk(key: string, item: Item, armed: map<nat, Timer<string>>, loose: bool) {
    && KeyFor(item.sid, item.host) == key
    && (if loose then item.timer.None?
        else item.timer.Some? && item.timer.value in armed && armed[item.timer.value].owner == key)
  }

  ghost predicate TimerOk(t: nat, owner: string, items: map<string, Item>) {
    owner in items && items[owner].timer == Some(t)
  }

  ghost predicate Matched(items: map<string, Item>, timers: Runtime<string>, loose: set<string>) {
    && (forall k :: k in items ==> ItemOk(k, items[k], timers.armed, k in loose))
    && (forall t :: t in timers.armed ==> t < timers.next && TimerOk(t, timers.armed[t].owner, items))
  }

  ghost predicate Counted(c: Config, s: State) {
    forall k: string :: KeyOk(c, s, k)
  }

  ghost predicate InvBut(c: Config, s: State, loose: set<string>) {
    Matched(s.items, s.timers, loose) && Counted(c, s)
  }

  ghost predicate Inv(c: Config, s: State) {
    InvBut(c, s, {})
  }

  lemma FloorStays(c: Config, h: seq<Event>, floor: Option<int>, streak: nat, enabled: bool, e: Event)
    requires PastOk(c, h, floor, streak, enabled) && !e.Pinged?
    ensures e.Forgotten? ==> PastOk(c, h + [e], None, streak, enabled)
    ensures !e.Forgotten? ==> PastOk(c, h + [e], floor, 0, e.Enabled?)
  {
    LawfulAppend(c, h, e);
    assert (h + [e])[..|h|] == h;
  }

  lemma ArmedMatches(items: map<string, Item>, timers: Runtime<string>, loose: set<string>, key: string, item: Item,
                     now: int, delay: int)
    requires Matched(items, timers, loose) && (key in loose || key !in items)
    requires KeyFor(item.sid, item.host) == key && item.timer == Some(timers.next)
    ensures Matched(items[key := item], timers.Arm(key, now, delay), loose - {key})
  {
  }

  lemma RemovedMatches(items: map<string, Item>, timers: Runtime<string>, loose: set<string>, keys: set<string>)
    requires Matched(items, timers, loose) && keys <= items.Keys
    ensures Matched(items - keys, Runtime(timers.armed - TimersOf(items, keys), timers.next), loose - keys)
  {
  }

  /** The item whose timer fired waits for none. */
  lemma FiredMatches(items: map<string, Item>, timers: Runtime<string>, t: nat)
    requires Matched(items, timers, {}) && t in timers.armed
    ensures
      var key := timers.armed[t].owner;
      key in items && Matched(items[key := items[key].(timer := None)], timers.Disarm(t), {key})
  {
  }

  lemma EnablingKeeps(c: Config, s: State, sid: string, host: Option<string>, session: Session, now: int)
    requires Inv(c, s) && KeyFor(sid, host) !in s.items
    ensures Inv(c, Enabling(c, s, sid, host, session, now))
  {
    var t := Enabling(c, s, sid, host, session, now);
    var key := KeyFor(sid, host);
    hide PastOk, Matched;
    ArmedMatches(s.items, s.timers, {}, key, t.items[key], now, t.items[key].nextCheckAt - now);
    assert {} - {key} == {};
    forall k: string
      ensures KeyOk(c, t, k)
    {
      assert KeyOk(c, s, k);
      if k == key {
        NotAlreadyEnabled(c, s, k);
        assert Past(t, k) == Past(s, k) + [Enabled];
        FloorStays(c, Past(s, k), FloorOf(s, k), StreakOf(s, k), false, Enabled);
      }
    }
  }

  lemma NotAlreadyEnabled(c: Config, s: State, key: string)
    requires KeyOk(c, s, key) && key !in s.items
    ensures StreakOf(s, key) == 0
  {
  }

  lemma RemovingKeeps(c: Config, s: State, loose: set<string>, keys: set<string>)
    requires InvBut(c, s, loose)
    requires keys <= s.items.Keys
    ensures InvBut(c, Removing(s, keys), loose - keys)
  {
    var t := Removing(s, keys);
    hide PastOk, Matched;
    RemovedMatches(s.items, s.timers, loose, keys);
    forall k: string
      ensures KeyOk(c, t, k)
    {
      assert KeyOk(c, s, k);
      if k in keys {
        assert Past(t, k) == Past(s, k) + [Disabled];
        FloorStays(c, Past(s, k), FloorOf(s, k), StreakOf(s, k), true, Disabled);
      }
    }
  }

  lemma ForgettingKeeps(c: Config, s: State, keys: set<string>)
    requires Inv(c, s)
    ensures Inv(c, Forgetting(s, keys))
  {
    var t := Forgetting(s, keys);
    hide PastOk, Matched;
    forall k: string
      ensures KeyOk(c, t, k)
    {
      assert KeyOk(c, s, k);
      if k in keys {
        assert Past(t, k) == Past(s, k) + [Forgotten];
        FloorStays(c, Past(s, k), FloorOf(s, k), StreakOf(s, k), k in s.items, Forgotten);
      }
    }
  }

  lemma RearmedKeeps(c: Config, s: State, key: string, item: Item, now: int, ms: int)
    requires InvBut(c, s.(items := s.items[key := item]), {key})
    requires KeyFor(item.sid, item.host) == key
    ensures Inv(c, Rearmed(s, key, item, now, ms))
  {
    var mid := s.(items := s.items[key := item]);
    var t := Rearmed(s, key, item, now, ms);
    hide PastOk, Matched;
    ArmedMatches(mid.items, s.timers, {key}, key, t.items[key], now, Max(0, ms));
    assert t.items == mid.items[key := t.items[key]] && {key} - {key} == {};
    forall k: string
      ensures KeyOk(c, t, k)
    {
      assert KeyOk(c, mid, k);
    }
  }

  /** A ping is noted when the session was ready for it. */
  lemma PingedOk(c: Config, h: seq<Event>, floor: Option<int>, streak: nat, now: int, st: Session)
    requires PastOk(c, h, floor, streak, true)
    requires st.open && st.attached && st.activity != Busy && !st.awaitingUser && now - st.lastEventAt >= c.intervalMs
    requires floor.Some? ==> now - floor.value >= c.recheckMs
    requires (if floor.None? || st.lastUserPromptAt > floor.value then 0 else streak) + 1 <= c.maxConsecutivePings
    ensures PastOk(c, h + [Pinged(now, st)], Some(now),
                   (if floor.None? || st.lastUserPromptAt > floor.value then 0 else streak) + 1, true)
  {
    var e := Pinged(now, st);
    assert (h + [e])[..|h|] == h;
    LawfulAppend(c, h, e);
  }

  lemma {:induction false} CheckedKeeps(c: Config, s: State, key: string, session: Option<Session>, now: int, ok: bool,
                                        after: int)
    requires key in s.items && InvBut(c, s.(items := s.items[key := s.items[key].(timer := None)]), {key})
    ensures Inv(c, Checked(c, s, key, session, now, ok, after))
  {
    hide KeyOk;
    hide Matched, Counted;
    var item := s.items[key].(timer := None, lastSkipReason := None, failed := false);
    LooseKey(s.items[key := s.items[key].(timer := None)], s.timers, key);
    forall skip: Option<Reason>, failed: bool
      ensures InvBut(c, s.(items := s.items[key := item.(lastSkipReason := skip, failed := failed)]), {key})
    {
      LooseKeeps(c, s, key, item.(lastSkipReason := skip, failed := failed));
    }
    var cleared := s.(items := s.items[key := item]);
    RemovingKeeps(c, cleared, {key}, {key});
    assert {key} - {key} == {};
    forall skip: Option<Reason>, failed: bool, ms: int
      ensures Inv(c, Rearmed(s, key, item.(lastSkipReason := skip, failed := failed), after, ms))
    {
      RearmedKeeps(c, s, key, item.(lastSkipReason := skip, failed := failed), after, ms);
    }
    if session.Some? {
      var st := session.value;
      var t := s.(lastPingAt := s.lastPingAt[key := now],
                  consecutivePings := s.consecutivePings[key := Streak(s, key, st) + 1],
                  past := Noted(s.past, {key}, Pinged(now, st)));
      if && st.open && st.attached && st.activity != Busy && !st.awaitingUser && now - st.lastEventAt >= c.intervalMs
         && (key in s.lastPingAt ==> now - s.lastPingAt[key] >= c.recheckMs)
         && Streak(s, key, st) + 1 <= c.maxConsecutivePings {
        PingKeeps(c, s, key, item, now, st);
        RearmedKeeps(c, t, key, item, after, c.intervalMs);
      }
    }
  }

  lemma LooseKey(items: map<string, Item>, timers: Runtime<string>, key: string)
    requires key in items && Matched(items, timers, {key})
    ensures KeyFor(items[key].sid, items[key].host) == key
  {
  }

  lemma LooseMatches(items: map<string, Item>, timers: Runtime<string>, key: string, item: Item)
    requires key in items && Matched(items, timers, {key})
    requires item.sid == items[key].sid && item.host == items[key].host && item.timer.None?
    ensures Matched(items[key := item], timers, {key})
  {
  }

  lemma {:induction false} LooseKeeps(c: Config, s: State, key: string, item: Item)
    requires key in s.items && InvBut(c, s.(items := s.items[key := s.items[key].(timer := None)]), {key})
    requires item.sid == s.items[key].sid && item.host == s.items[key].host && item.timer.None?
    ensures InvBut(c, s.(items := s.items[key := item]), {key})
  {
    var a := s.(items := s.items[key := s.items[key].(timer := None)]);
    var b := s.(items := s.items[key := item]);
    LooseMatches(a.items, s.timers, key, item);
    hide PastOk, Matched;
    assert a.items[key := item] == b.items;
    forall k: string
      ensures KeyOk(c, b, k)
    {
      assert KeyOk(c, a, k);
    }
  }

  lemma {:induction false} PingKeeps(c: Config, s: State, key: string, item: Item, now: int, st: Session)
    requires InvBut(c, s.(items := s.items[key := item]), {key})
    requires st.open && st.attached && st.activity != Busy && !st.awaitingUser && now - st.lastEventAt >= c.intervalMs
    requires key in s.lastPingAt ==> now - s.lastPingAt[key] >= c.recheckMs
    requires Streak(s, key, st) + 1 <= c.maxConsecutivePings
    ensures
      var t := s.(lastPingAt := s.lastPingAt[key := now],
                  consecutivePings := s.consecutivePings[key := Streak(s, key, st) + 1],
                  past := Noted(s.past, {key}, Pinged(now, st)));
      InvBut(c, t.(items := t.items[key := item]), {key})
  {
    var a := s.(items := s.items[key := item]);
    var t := a.(lastPingAt := s.lastPingAt[key := now],
                consecutivePings := s.consecutivePings[key := Streak(s, key, st) + 1],
                past := Noted(s.past, {key}, Pinged(now, st)));
    hide KeyOk, Matched, Noted, Streak;
    assert Streak(a, key, st) == Streak(s, key, st) by { SameStreak(s, a, key, st); }
    forall k: string
      ensures KeyOk(c, t, k)
    {
      assert KeyOk(c, a, k);
      if k == key {
        PingedKey(c, a, t, key, now, st);
      } else {
        PingedOther(c, a, t, key, k, now, st);
      }
    }
  }

  lemma SameStreak(s: State, t: State, key: string, st: Session)
    requires t.lastPingAt == s.lastPingAt && t.consecutivePings == s.consecutivePings
    ensures Streak(t, key, st) == Streak(s, key, st)
  {
  }

  lemma {:induction false} PingedKey(c: Config, s: State, t: State, key: string, now: int, st: Session)
    requires KeyOk(c, s, key) && key in s.items && t.items == s.items
    requires t.past == Noted(s.past, {key}, Pinged(now, st))
    requires t.lastPingAt == s.lastPingAt[key := now]
             && t.consecutivePings == s.consecutivePings[key := Streak(s, key, st) + 1]
    requires st.open && st.attached && st.activity != Busy && !st.awaitingUser && now - st.lastEventAt >= c.intervalMs
    requires key in s.lastPingAt ==> now - s.lastPingAt[key] >= c.recheckMs
    requires Streak(s, key, st) + 1 <= c.maxConsecutivePings
    ensures KeyOk(c, t, key)
  {
    hide PastOk;
    assert Past(t, key) == Past(s, key) + [Pinged(now, st)];
    PingedOk(c, Past(s, key), FloorOf(s, key), StreakOf(s, key), now, st);
  }

  lemma {:induction false} PingedOther(c: Config, s: State, t: State, key: string, k: string, now: int, st: Session)
    requires KeyOk(c, s, k) && k != key && t.items == s.items
    requires t.past == Noted(s.past, {key}, Pinged(now, st))
    requires t.lastPingAt == s.lastPingAt[key := now]
             && t.consecutivePings == s.consecutivePings[key := Streak(s, key, st) + 1]
    ensures KeyOk(c, t, k)
  {
    hide PastOk, Streak;
    assert Past(t, k) == Past(s, k);
  }

  lemma FiredKeeps(c: Config, s: State, t: nat, session: Option<Session>, now: int, ok: bool, after: int)
    requires Inv(c, s) && t in s.timers.armed
    ensures Inv(c, Checked(c, s.(timers := s.timers.Disarm(t)), s.timers.armed[t].owner, session, now, ok, after))
  {
    var d := s.(timers := s.timers.Disarm(t));
    var key := s.timers.armed[t].owner;
    var l := d.(items := d.items[key := d.items[key].(timer := None)]);
    FiredMatches(s.items, s.timers, t);
    hide PastOk, Matched;
    forall k: string
      ensures KeyOk(c, l, k)
    {
      assert KeyOk(c, s, k);
    }
    hide Counted, Checked;
    CheckedKeeps(c, d, key, session, now, ok, after);
  }

  lemma StepKeeps(c: Config, s: State, i: Input)
    requires Inv(c, s)
    ensures Inv(c, Step(c, s, i))
  {
    hide InvBut, Enabling, Removing, Forgetting, Checked;
    match i
    case Enable(sid, host, session, now) =>
      if KeyFor(sid, host) !in s.items && session.Some? {
        EnablingKeeps(c, s, sid, host, session.value, now);
      }
    case Disable(sid, host, forget) =>
      RemovingKeeps(c, s, {}, EnabledKeys(s, sid, host));
      assert {} - EnabledKeys(s, sid, host) == {};
      var t := Removing(s, EnabledKeys(s, sid, host));
      ForgettingKeeps(c, t, ForgottenKeys(t, sid, host));
    case Fire(t, session, now, ok, after) =>
      if t in s.timers.armed {
        FiredKeeps(c, s, t, session, now, ok, after);
      }
    case Stop =>
      RemovingKeeps(c, s, {}, s.items.Keys);
      assert {} - s.items.Keys == {};
      StoppedKeeps(c, Removing(s, s.items.Keys));
  }

  lemma StoppedKeeps(c: Config, s: State)
    requires Inv(c, s)
    ensures Inv(c, s.(stopped := true))
  {
    hide PastOk, Matched;
    forall k: string
      ensures KeyOk(c, s.(stopped := true), k)
    {
      assert KeyOk(c, s, k);
    }
  }

  lemma {:induction false} RunKeeps(c: Config, inputs: seq<Input>)
    ensures Inv(c, Run(c, inputs))
  {
    hide Step;
    if inputs == [] {
      hide Lawful;
      assert Lawful(c, []) by { }
    } else {
      RunKeeps(c, inputs[..|inputs| - 1]);
      StepKeeps(c, Run(c, inputs[..|inputs| - 1]), inputs[|inputs| - 1]);
    }
  }

  // ----- Whole runs -----

  /** Enabled items and armed timers are in one-to-one correspondence. */
  lemma {:induction false} ItemsMatchTimers(c: Config, inputs: seq<Input>)
    ensures
      var s := Run(c, inputs);
      && (forall k :: k in s.items ==> KeyFor(s.items[k].sid, s.items[k].host) == k)
      && (forall k :: k in s.items ==>
            && s.items[k].timer.Some? && s.items[k].timer.value in s.timers.armed
            && s.timers.armed[s.items[k].timer.value].owner == k)
      && (forall t :: t in s.timers.armed ==>
            s.timers.armed[t].owner in s.items && s.items[s.timers.armed[t].owner].timer == Some(t))
  {
    RunKeeps(c, inputs);
  }

  predicate Forgets(i: Input) {
    i.Disable? && i.forget
  }

  ghost predicate NoneForgets(inputs: seq<Input>) {
    forall i :: 0 <= i < |inputs| ==> !Forgets(inputs[i])
  }

  /** The past of a key went on from `h` to `g`, and nothing was forgotten on the way. */
  ghost predicate Grew(h: seq<Event>, g: seq<Event>) {
    h <= g && NothingForgotten(g[|h|..])
  }

  lemma NotedGrows(s: State, keys: set<string>, e: Event, h: seq<Event>, key: string)
    requires Grew(h, Past(s, key)) && !e.Forgotten?
    ensures Grew(h, Past(s.(past := Noted(s.past, keys, e)), key))
  {
  }

  lemma RemovingGrows(s: State, keys: set<string>, h: seq<Event>, key: string)
    requires Grew(h, Past(s, key))
    ensures Grew(h, Past(Removing(s, keys), key))
  {
    NotedGrows(s, keys, Disabled, h, key);
  }

  lemma CheckedGrows(c: Config, s: State, k: string, session: Option<Session>, now: int, ok: bool, after: int,
                     h: seq<Event>, key: string)
    requires Grew(h, Past(s, key))
    ensures Grew(h, Past(Checked(c, s, k, session, now, ok, after), key))
  {
    hide Removing, Grew, Noted;
    if k in s.items {
      var item := s.items[k].(timer := None, lastSkipReason := None, failed := false);
      RemovingGrows(s.(items := s.items[k := item]), {k}, h, key);
    }
    if session.Some? {
      NotedGrows(s, {k}, Pinged(now, session.value), h, key);
    }
  }

  lemma {:induction false} StepGrows(c: Config, s: State, i: Input, h: seq<Event>, key: string)
    requires Grew(h, Past(s, key)) && !Forgets(i)
    ensures Grew(h, Past(Step(c, s, i), key))
  {
    hide EnabledKeys, Removing, Checked, Grew, Noted;
    match i
    case Enable(sid, host, session, now) => NotedGrows(s, {KeyFor(sid, host)}, Enabled, h, key);
    case Disable(sid, host, forget) => RemovingGrows(s, EnabledKeys(s, sid, host), h, key);
    case Fire(t, session, now, ok, after) =>
      if t in s.timers.armed {
        var d := s.(timers := s.timers.Disarm(t));
        CheckedGrows(c, d, s.timers.armed[t].owner, session, now, ok, after, h, key);
      }
    case Stop => RemovingGrows(s, s.items.Keys, h, key);
  }

  lemma {:induction false} RunGrows(c: Config, inputs: seq<Input>, more: seq<Input>, key: string)
    requires NoneForgets(more)
    ensures Grew(Past(Run(c, inputs), key), Past(Run(c, inputs + more), key))
  {
    if more == [] {
      assert inputs + more == inputs;
    } else {
      var all := inputs + more;
      var before := more[..|more| - 1];
      RunGrows(c, inputs, before, key);
      assert all[..|all| - 1] == inputs + before && all[|all| - 1] == more[|more| - 1];
      hide Grew;
      RunStep(c, all);
      hide Run;
      StepGrows(c, Run(c, inputs + before), more[|more| - 1], Past(Run(c, inputs), key), key);
    }
  }

  lemma RunStep(c: Config, inputs: seq<Input>)
    requires inputs != []
    ensures Run(c, inputs) == Step(c, Run(c, inputs[..|inputs| - 1]), inputs[|inputs| - 1])
  {
  }

  /** In a run without forgetting, n pings of one session take at least n - 1 floors. */
  lemma {:induction false} PingFloor(c: Config, inputs: seq<Input>, key: string, i: nat, j: nat)
    requires NoneForgets(inputs)
    requires i <= j < |Pings(Past(Run(c, inputs), key))|
    ensures
      var p := Pings(Past(Run(c, inputs), key));
      p[i].Pinged? && p[j].Pinged? && (j - i) * c.recheckMs <= p[j].at - p[i].at
  {
    RunGrows(c, [], inputs, key);
    assert [] + inputs == inputs;
    RunKeeps(c, inputs);
    hide Run;
    var s := Run(c, inputs);
    assert Past(s, key)[0..] == Past(s, key);
    assert KeyOk(c, s, key);
    LawfulSpacing(c, Past(s, key), i, j);
  }

  /** Whatever else is forgotten in a run: between two pings with no forgetting between them, each ping adds a floor. */
  lemma {:induction false} PingFloorBetween(c: Config, inputs: seq<Input>, key: string, a: nat, b: nat)
    requires
      var h := Past(Run(c, inputs), key);
      a < b < |h| && h[a].Pinged? && h[b].Pinged? && NothingForgotten(h[a + 1..b])
    ensures
      var h := Past(Run(c, inputs), key);
      Floors(c, |Pings(h[a + 1..b])| + 1) <= h[b].at - h[a].at
  {
    RunKeeps(c, inputs);
    hide Run;
    var s := Run(c, inputs);
    assert KeyOk(c, s, key);
    var h := Past(s, key);
    FloorsBetween(c, h, a, b);
    assert MayFollow(c, h[..b], h[b]);
    OneMoreFloor(c, |Pings(h[a + 1..b])|);
    hide Floors;
  }

  // ----- When the floor can be broken -----

  /** The inputs `more` forget nothing, and the next ping after the event at place a is at place b, at time t. */
  ghost predicate NextPingAt(c: Config, inputs: seq<Input>, more: seq<Input>, key: string, a: nat, b: nat, t: int) {
    var h := Past(Run(c, inputs + more), key);
    NoneForgets(more) && a < b < |h| && Pings(h[a + 1..b]) == [] && h[b].Pinged? && h[b].at == t
  }

  lemma {:induction false} LastPingAfter(h: seq<Event>, w: seq<Event>)
    requires Pings(w) == []
    ensures LastPing(h + w) == if NothingForgotten(w) then LastPing(h) else None
  {
    if w == [] {
      assert h + w == h;
    } else {
      var before := w[..|w| - 1];
      var e := w[|w| - 1];
      assert w == before + [e] && h + w == (h + before) + [e];
      OneMoreEvent(before, e);
      OneMoreEvent(h + before, e);
      LastPingAfter(h, before);
    }
  }

  function HostName(host: Option<string>): string {
    if host.Some? then host.value else ""
  }

  /** A session that a ping may go to at time t. */
  function IdleAt(c: Config, t: int): Session {
    Session(t - c.intervalMs, AwaitingInput, false, true, true, t)
  }

  function Closing(sid: string, host: Option<string>, forget: bool): Input {
    Disable(sid, Some(HostName(host)), forget)
  }

  /** Disable the session, enable it again and let its timer fire at once. */
  function Again(c: Config, s: State, sid: string, host: Option<string>, t: int): seq<Input> {
    [Closing(sid, host, false), Enable(sid, host, Some(IdleAt(c, t)), t),
     Fire(s.timers.next, Some(IdleAt(c, t)), t, true, t)]
  }

  lemma AfterClosing(c: Config, s: State, sid: string, host: Option<string>, forget: bool)
    ensures
      var key := KeyFor(sid, host);
      var n := Step(c, s, Closing(sid, host, forget));
      && n.items == s.items - {key} && n.timers.next == s.timers.next && n.stopped == s.stopped
      && n.lastPingAt == (if forget then s.lastPingAt - {key} else s.lastPingAt)
      && Past(n, key) ==
         Past(s, key) + (if key in s.items then [Disabled] else []) + (if forget then [Forgotten] else [])
  {
    assert KeyFor(sid, Some(HostName(host))) == KeyFor(sid, host);
    hide TimersOf;
  }

  lemma AfterEnabling(c: Config, s: State, sid: string, host: Option<string>, t: int)
    requires !s.stopped && KeyFor(sid, host) !in s.items && KeyFor(sid, host) !in s.lastPingAt
    ensures
      var key := KeyFor(sid, host);
      var n := Step(c, s, Enable(sid, host, Some(IdleAt(c, t)), t));
      && n.items.Keys == s.items.Keys + {key} && n.items[key].sid == sid && n.lastPingAt == s.lastPingAt
      && !n.stopped && n.timers.CanFire(s.timers.next, t)
      && n.timers.armed[s.timers.next].owner == key && Past(n, key) == Past(s, key) + [Enabled]
  {
  }

  lemma AfterFiring(c: Config, s: State, timer: nat, t: int)
    requires s.timers.CanFire(timer, t) && s.timers.armed[timer].owner in s.items
    requires s.timers.armed[timer].owner !in s.lastPingAt && c.maxConsecutivePings >= 1
    ensures
      var key := s.timers.armed[timer].owner;
      var n := Step(c, s, Fire(timer, Some(IdleAt(c, t)), t, true, t));
      && n.stopped == s.stopped && n.items.Keys == s.items.Keys && n.items[key].sid == s.items[key].sid
      && key in n.lastPingAt && Past(n, key) == Past(s, key) + [Pinged(t, IdleAt(c, t))]
  {
  }

  /** With no last ping remembered for its key, a session can be pinged at any time at all. */
  lemma {:induction false} PingedAgain(c: Config, inputs: seq<Input>, sid: string, host: Option<string>, t: int)
    requires c.maxConsecutivePings >= 1
    requires !Run(c, inputs).stopped && KeyFor(sid, host) !in Run(c, inputs).lastPingAt
    ensures
      var key := KeyFor(sid, host);
      var s := Run(c, inputs);
      var n := Run(c, inputs + Again(c, s, sid, host, t));
      && !n.stopped && n.items.Keys == s.items.Keys + {key} && n.items[key].sid == sid && key in n.lastPingAt
      && Past(n, key) == Past(s, key) + (if key in s.items then [Disabled] else []) + [Enabled, Pinged(t, IdleAt(c, t))]
  {
    var s := Run(c, inputs);
    var more := Again(c, s, sid, host, t);
    hide Run, Step;
    AfterClosing(c, s, sid, host, false);
    var s1 := Step(c, s, more[0]);
    AfterEnabling(c, s1, sid, host, t);
    var s2 := Step(c, s1, more[1]);
    AfterFiring(c, s2, s.timers.next, t);
    RunSnoc(c, inputs, more[0]);
    RunSnoc(c, inputs + [more[0]], more[1]);
    RunSnoc(c, inputs + [more[0]] + [more[1]], more[2]);
    assert inputs + more == inputs + [more[0]] + [more[1]] + [more[2]];
  }

  lemma RunSnoc(c: Config, inputs: seq<Input>, i: Input)
    ensures Run(c, inputs + [i]) == Step(c, Run(c, inputs), i)
  {
    assert (inputs + [i])[..|inputs + [i]| - 1] == inputs;
  }

  /**
   * The floor after the last ping of a key, exactly: when nothing more is forgotten, the next ping may come
   * at a time t before the floor if and only if the last ping has been forgotten.
   */
  lemma {:induction false} FloorIffRemembered(c: Config, inputs: seq<Input>, sid: string, host: Option<string>, a: nat,
                                              t: int)
    requires
      var h := Past(Run(c, inputs), KeyFor(sid, host));
      && !Run(c, inputs).stopped && a < |h| && h[a].Pinged? && Pings(h[a + 1..]) == []
      && t < h[a].at + c.recheckMs
    ensures
      var key := KeyFor(sid, host);
      (exists more: seq<Input>, b: nat :: NextPingAt(c, inputs, more, key, a, b, t))
      <==> !NothingForgotten(Past(Run(c, inputs), key)[a + 1..])
  {
    var key := KeyFor(sid, host);
    var s := Run(c, inputs);
    var h := Past(s, key);
    if NothingForgotten(h[a + 1..]) {
      forall more: seq<Input>, b: nat
        ensures !NextPingAt(c, inputs, more, key, a, b, t)
      {
        NotBeforeFloor(c, inputs, more, key, a, b, t);
      }
    } else {
      BackBeforeFloor(c, inputs, sid, host, a, t);
    }
  }

  lemma {:induction false} NotBeforeFloor(c: Config, inputs: seq<Input>, more: seq<Input>, key: string, a: nat, b: nat,
                                          t: int)
    requires
      var h := Past(Run(c, inputs), key);
      && a < |h| && h[a].Pinged? && Pings(h[a + 1..]) == [] && NothingForgotten(h[a + 1..])
      && t < h[a].at + c.recheckMs
    ensures !NextPingAt(c, inputs, more, key, a, b, t)
  {
    hide Run, Pings, NextPingAt, NothingForgotten, Past;
    if NextPingAt(c, inputs, more, key, a, b, t) {
      NextAfterFloor(c, inputs, more, key, a, b, t);
    }
  }

  lemma {:induction false} NextAfterFloor(c: Config, inputs: seq<Input>, more: seq<Input>, key: string, a: nat, b: nat,
                                          t: int)
    requires
      var h := Past(Run(c, inputs), key);
      a < |h| && h[a].Pinged? && NothingForgotten(h[a + 1..]) && NextPingAt(c, inputs, more, key, a, b, t)
    ensures t >= Past(Run(c, inputs), key)[a].at + c.recheckMs
  {
    RunGrows(c, inputs, more, key);
    hide Run, Pings, Floors;
    OneMoreFloor(c, 0);
    StillRemembered(Past(Run(c, inputs), key), Past(Run(c, inputs + more), key), a, b);
    PingFloorBetween(c, inputs + more, key, a, b);
  }

  lemma StillRemembered(h: seq<Event>, g: seq<Event>, a: nat, b: nat)
    requires Grew(h, g) && a < |h| && a < b < |g| && NothingForgotten(h[a + 1..])
    ensures NothingForgotten(g[a + 1..b])
  {
    var w := g[a + 1..b];
    forall i | 0 <= i < |w|
      ensures !w[i].Forgotten?
    {
      if a + 1 + i < |h| {
        assert w[i] == h[a + 1..][i];
      } else {
        assert w[i] == g[|h|..][a + 1 + i - |h|];
      }
    }
  }

  lemma {:induction false} BackBeforeFloor(c: Config, inputs: seq<Input>, sid: string, host: Option<string>, a: nat,
                                           t: int)
    requires
      var h := Past(Run(c, inputs), KeyFor(sid, host));
      && !Run(c, inputs).stopped && a < |h| && h[a].Pinged? && Pings(h[a + 1..]) == []
      && !NothingForgotten(h[a + 1..])
    ensures exists more: seq<Input>, b: nat :: NextPingAt(c, inputs, more, KeyFor(sid, host), a, b, t)
  {
    var key := KeyFor(sid, host);
    var s := Run(c, inputs);
    var h := Past(s, key);
    RunKeeps(c, inputs);
    hide Run, Pings, NothingForgotten;
    assert KeyOk(c, s, key);
    assert h == h[..a + 1] + h[a + 1..];
    LastPingAfter(h[..a + 1], h[a + 1..]);
    AtLeastOne(c, h, a);
    PingedAgain(c, inputs, sid, host, t);
    var more := Again(c, s, sid, host, t);
    var g := Past(Run(c, inputs + more), key);
    var w := (if key in s.items then [Disabled] else []) + [Enabled];
    assert g == h + w + [Pinged(t, IdleAt(c, t))];
    var b := |h + w|;
    assert g[a + 1..b] == h[a + 1..] + w;
    StillNoPings(h[a + 1..], w);
    assert NextPingAt(c, inputs, more, key, a, b, t);
  }

  lemma AtLeastOne(c: Config, h: seq<Event>, a: nat)
    requires Lawful(c, h) && a < |h| && h[a].Pinged?
    ensures c.maxConsecutivePings >= 1
  {
    assert MayFollow(c, h[..a], h[a]);
    var g := h[..a] + [h[a]];
    assert g[..|g| - 1] == h[..a];
  }

  lemma {:induction false} StillNoPings(h: seq<Event>, w: seq<Event>)
    requires Pings(h) == [] && forall i :: 0 <= i < |w| ==> !w[i].Pinged?
    ensures Pings(h + w) == []
  {
    if w == [] {
      assert h + w == h;
    } else {
      var before := w[..|w| - 1];
      StillNoPings(h, before);
      assert h + w == h + before + [w[|w| - 1]];
      OneMoreEvent(h + before, w[|w| - 1]);
    }
  }

  /** Pinged at time t, disabled and forgotten. */
  function ForgottenOnce(c: Config, sid: string, host: Option<string>, t: int): seq<Input> {
    Again(c, INITIAL, sid, host, t) + [Closing(sid, host, true)]
  }

  lemma {:induction false} AfterForgetting(c: Config, sid: string, host: Option<string>, t: int)
    requires c.maxConsecutivePings >= 1
    ensures
      var s := Run(c, ForgottenOnce(c, sid, host, t));
      !s.stopped && Past(s, KeyFor(sid, host)) == [Enabled, Pinged(t, IdleAt(c, t)), Disabled, Forgotten]
  {
    var key := KeyFor(sid, host);
    var first := Again(c, INITIAL, sid, host, t);
    assert Run(c, []) == INITIAL && [] + first == first;
    hide Again;
    PingedAgain(c, [], sid, host, t);
    RunSnoc(c, first, Closing(sid, host, true));
    RunKeeps(c, first);
    hide Run, Step;
    var s := Run(c, first);
    AfterClosing(c, s, sid, host, true);
    assert KeyOk(c, s, key);
    EnabledThenPinged(Past(s, key), t, IdleAt(c, t));
  }

  lemma EnabledThenPinged(h: seq<Event>, t: int, session: Session)
    requires h == [Enabled, Pinged(t, session)]
    ensures IsEnabled(h)
  {
    assert h[..1] == [Enabled];
  }

  /** Such runs exist for every session and under every configuration that pings at all: two pings at one time t. */
  lemma {:induction false} TwoPingsAtOnce(c: Config, sid: string, host: Option<string>, t: int)
    requires c.maxConsecutivePings >= 1
    ensures exists inputs: seq<Input>, more: seq<Input>, b: nat ::
              && Past(Run(c, inputs), KeyFor(sid, host)) == [Enabled, Pinged(t, IdleAt(c, t)), Disabled, Forgotten]
              && NextPingAt(c, inputs, more, KeyFor(sid, host), 1, b, t)
  {
    var inputs := ForgottenOnce(c, sid, host, t);
    AfterForgetting(c, sid, host, t);
    hide Run, ForgottenOnce;
    var g := Past(Run(c, inputs), KeyFor(sid, host));
    assert g[2..] == [Disabled, Forgotten] && [] + g[2..] == g[2..];
    assert g[2..][1] == Forgotten;
    StillNoPings([], g[2..]);
    hide Pings;
    BackBeforeFloor(c, inputs, sid, host, 1, t);
    var key := KeyFor(sid, host);
    var more: seq<Input>, b: nat :| NextPingAt(c, inputs, more, key, 1, b, t);
  }

  /** A ping only goes to a session that is enabled and ready for it. */
  lemma {:induction false} PingsOnlyWhenReady(c: Config, inputs: seq<Input>, key: string, i: nat)
    requires i < |Past(Run(c, inputs), key)| && Past(Run(c, inputs), key)[i].Pinged?
    ensures IsEnabled(Past(Run(c, inputs), key)[..i])
    ensures
      var e := Past(Run(c, inputs), key)[i];
      && e.session.open && e.session.attached && e.session.activity != Busy && !e.session.awaitingUser
      && e.at - e.session.lastEventAt >= c.intervalMs
  {
    RunKeeps(c, inputs);
    hide Run;
    var s := Run(c, inputs);
    assert KeyOk(c, s, key);
    assert MayFollow(c, Past(s, key)[..i], Past(s, key)[i]);
  }

  ghost predicate Ended(s: State) {
    s.stopped && s.items == map[] && s.timers.armed == map[]
  }

  lemma NoItemsNoTimers(c: Config, s: State)
    requires Inv(c, s) && s.stopped && s.items == map[]
    ensures Ended(s)
  {
    assert forall t: nat, o: string :: !TimerOk(t, o, s.items);
    assert s.timers.armed.Keys == {};
  }

  lemma EndedStays(c: Config, s: State, i: Input)
    requires Ended(s)
    ensures Ended(Step(c, s, i))
  {
  }

  /** Once stopped, nothing is enabled and no timer is armed, whatever happens later. */
  lemma {:induction false} StopIsFinal(c: Config, inputs: seq<Input>, i: nat)
    requires i < |inputs| && inputs[i].Stop?
    ensures Ended(Run(c, inputs))
  {
    var before := inputs[..|inputs| - 1];
    if i < |before| {
      StopIsFinal(c, before, i);
      hide Ended, Step;
      EndedStays(c, Run(c, before), inputs[|inputs| - 1]);
    } else {
      RunKeeps(c, inputs);
      hide Inv;
      NoItemsNoTimers(c, Run(c, inputs));
    }
  }

  // ----- The operations, step by step -----

  datatype Answer = Watching(nextCheckAt: int) | NotFound | Conflict

  class KeepWarm {
    const c: Config
    var items: map<string, Item>
    var lastPingAt: map<string, int>
    var consecutivePings: map<string, nat>
    var timers: Runtime<string>
    var stopped: bool
    ghost var past: map<string, seq<Event>>

    ghost function Abs(): State
      reads this
    {
      State(items, lastPingAt, consecutivePings, timers, stopped, past)
    }

    constructor (c: Config)
      ensures this.c == c && Abs() == INITIAL
    {
      this.c := c;
      items, lastPingAt, consecutivePings := map[], map[], map[];
      timers, stopped, past := Runtime(map[], 0), false, map[];
    }

    method Enable(sid: string, host: Option<string>, session: Option<Session>, now: int) returns (r: Answer)
      modifies this
      ensures Abs() == Step(c, old(Abs()), Input.Enable(sid, host, session, now))
      ensures r.Watching? <==> !stopped && (KeyFor(sid, host) in old(items) || (session.Some? && session.value.open))
      ensures r.Watching? ==> KeyFor(sid, host) in items && items[KeyFor(sid, host)].nextCheckAt == r.nextCheckAt
      ensures r.NotFound? <==> !stopped && KeyFor(sid, host) !in old(items) && session.None?
    {
      hide Noted;
      if stopped {
        return Conflict;
      }
      var key := KeyFor(sid, host);
      if key in items {
        return Watching(items[key].nextCheckAt);
      }
      if session.None? {
        return NotFound;
      }
      if !session.value.open {
        return Conflict;
      }
      var dueIn := Max(0, session.value.lastEventAt + c.intervalMs - now);
      if key in lastPingAt {
        dueIn := Max(dueIn, lastPingAt[key] + c.recheckMs - now);
      }
      var item := Item(sid, if host == Some("") then None else host, now + dueIn, None, false, Some(timers.next));
      timers := timers.Arm(key, now, dueIn);
      items := items[key := item];
      past := Noted(past, {key}, Enabled);
      return Watching(item.nextCheckAt);
    }

    /** Clears the timer and drops the item together with its count of pings. */
    method RemoveItem(key: string)
      requires key in items
      modifies this
      ensures Abs() == Removing(old(Abs()), {key})
    {
      if items[key].timer.Some? {
        timers := timers.Disarm(items[key].timer.value);
      }
      assert TimersOf(items, {key}) == if items[key].timer.Some? then {items[key].timer.value} else {};
      assert timers.armed == old(timers).armed - TimersOf(items, {key});
      items := items - {key};
      consecutivePings := consecutivePings - {key};
      past := Noted(past, {key}, Disabled);
    }

    method RemoveAll(keys: set<string>)
      requires keys <= items.Keys
      modifies this
      ensures Abs() == Removing(old(Abs()), keys)
    {
      hide Removing;
      var left := keys;
      ghost var s := Abs();
      ghost var done: set<string> := {};
      RemovingNone(s);
      while left != {}
        invariant done + left == keys && done !! left
        invariant Abs() == Removing(s, done)
        decreases left
      {
        var key :| key in left;
        RemovedItems(s, done);
        RemovingMore(s, done, key);
        RemoveItem(key);
        left := left - {key};
        done := done + {key};
      }
      assert done == keys;
    }

    method Disable(sid: string, host: Option<string>, forget: bool) returns (removed: bool)
      modifies this
      ensures Abs() == Step(c, old(Abs()), Input.Disable(sid, host, forget))
      ensures removed <==> EnabledKeys(old(Abs()), sid, host) != {}
    {
      hide Noted;
      var keys: set<string> := {};
      if host.Some? {
        var key := KeyFor(sid, host);
        if key in items {
          keys := {key};
        }
      } else {
        keys := set k | k in items && items[k].sid == sid;
      }
      RemoveAll(keys);
      if forget {
        ghost var t := Abs();
        if host.Some? {
          lastPingAt := lastPingAt - {KeyFor(sid, host)};
        } else {
          lastPingAt := lastPingAt - set k | k in lastPingAt && SidOfKey(k) == sid;
        }
        past := Noted(past, ForgottenKeys(t, sid, host), Forgotten);
      }
      return keys != {};
    }

    method Stop()
      modifies this
      ensures Abs() == Step(c, old(Abs()), Input.Stop)
    {
      stopped := true;
      RemoveAll(items.Keys);
    }

    /** An armed timer fires: the runtime disarms it and its item is checked. */
    method OnTimer(t: nat, session: Option<Session>, now: int, ok: bool, after: int)
      requires timers.CanFire(t, now)
      modifies this
      ensures Abs() == Step(c, old(Abs()), Fire(t, session, now, ok, after))
    {
      var key := timers.armed[t].owner;
      timers := timers.Disarm(t);
      Check(key, session, now, ok, after);
    }

    /** `ok` is what a ping would turn out to be, `after` the clock when the next check is arranged. */
    method Check(key: string, session: Option<Session>, now: int, ok: bool, after: int)
      modifies this
      ensures Abs() == Checked(c, old(Abs()), key, session, now, ok, after)
    {
      hide Noted, Removing, Rearmed;
      if key !in items {
        return;
      }
      var item := items[key].(timer := None, lastSkipReason := None, failed := false);
      RearmedOver(Abs(), key, item);
      items := items[key := item];
      if session.None? || !session.value.open {
        RemoveItem(key);
        return;
      }
      var st := session.value;
      var elapsed := now - st.lastEventAt;
      if elapsed < c.intervalMs {
        Rearm(key, item.(lastSkipReason := Some(NotIdle)), after, c.intervalMs - elapsed);
        return;
      }
      if key in lastPingAt && now - lastPingAt[key] < c.recheckMs {
        Rearm(key, item.(lastSkipReason := Some(RecentlyPinged)), after, c.recheckMs - (now - lastPingAt[key]));
        return;
      }
      if !st.attached {
        Rearm(key, item.(lastSkipReason := Some(Detached)), after, c.recheckMs);
        return;
      }
      if st.activity == Busy {
        Rearm(key, item.(lastSkipReason := Some(IsBusy)), after, c.recheckMs);
        return;
      }
      if st.awaitingUser {
        Rearm(key, item.(lastSkipReason := Some(AwaitingUser)), after, c.recheckMs);
        return;
      }
      var count := if key in consecutivePings then consecutivePings[key] else 0;
      if key !in lastPingAt || st.lastUserPromptAt > lastPingAt[key] {
        count := 0;
      }
      if count + 1 > c.maxConsecutivePings {
        RemoveItem(key);
        return;
      }
      if ok {
        RearmedOver(State(old(items), lastPingAt[key := now], consecutivePings[key := count + 1], timers, stopped,
                          Noted(past, {key}, Pinged(now, st))), key, item);
        lastPingAt := lastPingAt[key := now];
        consecutivePings := consecutivePings[key := count + 1];
        past := Noted(past, {key}, Pinged(now, st));
        Rearm(key, item, after, c.intervalMs);
        return;
      }
      Rearm(key, item.(failed := true), after, c.recheckMs);
    }

    method Rearm(key: string, item: Item, now: int, ms: int)
      requires key in items
      modifies `items, `timers
      ensures Abs() == Rearmed(old(Abs()), key, item, now, ms)
    {
      var delay := Max(0, ms);
      items := items[key := item.(nextCheckAt := now + delay, timer := Some(timers.next))];
      timers := timers.Arm(key, now, delay);
    }
  }

  /** Arming an item again makes no use of the item it replaces. */
  lemma RearmedOver(s: State, key: string, cleared: Item)
    ensures forall item: Item, now: int, ms: int ::
              Rearmed(s.(items := s.items[key := cleared]), key, item, now, ms) == Rearmed(s, key, item, now, ms)
  {
    assert forall item: Item, now: int, ms: int ::
        Rearmed(s.(items := s.items[key := cleared]), key, item, now, ms).items == Rearmed(s, key, item, now, ms).items;
  }

  lemma RemovingNone(s: State)
    ensures Removing(s, {}) == s
  {
    assert s.items - {} == s.items && s.consecutivePings - {} == s.consecutivePings;
    assert s.timers.armed - TimersOf(s.items, {}) == s.timers.armed;
    assert Noted(s.past, {}, Disabled) == s.past;
  }

  lemma RemovedItems(s: State, keys: set<string>)
    ensures Removing(s, keys).items == s.items - keys
  {
  }

  lemma {:induction false} RemovingMore(s: State, keys: set<string>, key: string)
    requires key in s.items && key !in keys
    ensures Removing(Removing(s, keys), {key}) == Removing(s, keys + {key})
  {
    var mid := Removing(s, keys);
    var all := keys + {key};
    assert mid.items - {key} == s.items - all && mid.consecutivePings - {key} == s.consecutivePings - all;
    assert TimersOf(s.items, all) == TimersOf(s.items, keys) + TimersOf(mid.items, {key});
    assert mid.timers.armed - TimersOf(mid.items, {key}) == s.timers.armed - TimersOf(s.items, all);
    assert Noted(mid.past, {key}, Disabled) == Noted(s.past, all, Disabled);
  }
}
