/**
 * Whether a mirrored session is busy, waits for its user, or has background work that goes on (src/hub/mirror.ts).
 */
module Ledger {
  import opened Options
  import opened JsMap

  const BACKGROUND_STALE_MS := 6 * 60 * 60 * 1000
  const WAKEUP_SLACK_MS := 5 * 60 * 1000
  const MONITOR_DEFAULT_TIMEOUT_MS := 60 * 60 * 1000
  const MONITOR_CALL_PREFIX := "monitor-call:"
  const MAX_PENDING_BACKGROUND := 64
  const WAKEUP_KEY := "wakeup"
  const TERMINAL_TASK_STATUSES := {"completed", "failed", "killed", "error", "timeout", "cancelled", "canceled"}
  const TASK_STOP_TOOLS := {"TaskStop", "KillShell", "KillTask"}

  // ----- Frames -----

  datatype Kind =
    | UserPromptKind | ToolCallKind | ToolResultKind | CompactKind | AssistantMessageKind | NotificationKind | OtherKind

  /** The input of a tool call: its text, and the fields that are looked at. */
  datatype CallInput = CallInput(text: string, stop: bool, delaySeconds: Option<int>, persistent: bool,
                                 timeoutMs: Option<int>)

  /** The response of a tool, if it is a record; a field that is no string is "". */
  datatype Response = Response(backgroundTaskId: string, asyncLaunched: bool, agentId: string, taskId: string,
                               persistent: bool)

  /** What a synthetic task notification says; without a status it is "". */
  datatype Note = Note(taskId: string, toolUseId: string, status: string)

  datatype Payload =
    | ToolCall(tool: string, toolUseId: string, input: CallInput)
    | ToolResult(tool: string, toolUseId: string, response: Option<Response>)
    | UserPrompt(note: Option<Note>)
    | AssistantMessage(subagent: bool)
    | Notification(permission: bool)
    | OtherPayload

  /** `agentId` is "" for a frame of the session itself. */
  datatype Frame = Frame(kind: Kind, payload: Payload, agentId: string, ts: int)

  // ----- The state that frames leave behind -----

  datatype Base = Busy | AwaitingInput

  datatype Activity = IsBusy | IsAwaitingInput | IsBackground

  function NextActivityState(prev: Base, f: Frame): Base {
    if f.agentId != "" then prev
    else
      match f.kind
      case UserPromptKind => Busy
      case ToolCallKind => Busy
      case ToolResultKind => Busy
      case CompactKind => Busy
      case AssistantMessageKind => if f.payload.AssistantMessage? && f.payload.subagent then prev else AwaitingInput
      case NotificationKind => AwaitingInput
      case OtherKind => prev
  }

  function NextAwaitingUser(prev: bool, p: Payload): bool {
    p.Notification? && (p.permission || prev)
  }

  // ----- The ledger -----

  datatype TaskKind = Command | Agent | Workflow | Monitor | Wakeup

  datatype Task = Task(taskId: string, toolUseId: string, kind: TaskKind, startedAt: int, expiresAt: int)

  type Pending = Table<Task>

  predicate At(s: string, i: nat, t: string) {
    i + |t| <= |s| && s[i..i + |t|] == t
  }

  /** `s.includes(t)` */
  predicate Includes(s: string, t: string) {
    exists i | 0 <= i <= |s| :: At(s, i, t)
  }

  datatype Criterion = NamedIn(text: string) | UsedBy(toolUseId: string) | ExpiredBy(now: int)

  predicate Meets(t: Task, c: Criterion) {
    match c
    case NamedIn(text) => t.taskId != "" && Includes(text, t.taskId)
    case UsedBy(toolUseId) => t.toolUseId == toolUseId
    case ExpiredBy(now) => t.expiresAt <= now
  }

  function Remaining(order: seq<string>, at: map<string, Task>, c: Criterion): seq<string> {
    if order == [] then []
    else
      var k := order[|order| - 1];
      Remaining(order[..|order| - 1], at, c) + if k in at && Meets(at[k], c) then [] else [k]
  }

  /** Every task that meets the criterion is deleted. */
  function Purged(p: Pending, c: Criterion): Pending {
    Table(Remaining(p.order, p.at, c), map k | k in p.at && !Meets(p.at[k], c) :: p.at[k])
  }

  function AtLeast0(x: int): int {
    if x < 0 then 0 else x
  }

  /** Background work that a frame launched, recognised by the shape of what the tool was given or returned. */
  function BackgroundTask(f: Frame): Option<Task> {
    match f.payload
    case ToolCall(tool, use, input) =>
      if tool != "ScheduleWakeup" || input.stop then None
      else
        var delayMs := if input.delaySeconds.Some? then AtLeast0(input.delaySeconds.value) * 1000 else 0;
        Some(Task(WAKEUP_KEY, use, Wakeup, f.ts, f.ts + delayMs + WAKEUP_SLACK_MS))
    case ToolResult(tool, use, Some(r)) =>
      var stale := f.ts + BACKGROUND_STALE_MS;
      if r.backgroundTaskId != "" then Some(Task(r.backgroundTaskId, use, Command, f.ts, stale))
      else if r.asyncLaunched && r.agentId != "" then Some(Task(r.agentId, use, Agent, f.ts, stale))
      else if r.asyncLaunched && r.taskId != "" then Some(Task(r.taskId, use, Workflow, f.ts, stale))
      else if r.persistent && r.taskId != "" then
        Some(Task(r.taskId, use, Monitor, f.ts, f.ts + MONITOR_DEFAULT_TIMEOUT_MS))
      else None
    case _ => None
  }

  /** The oldest entries go until no more than the limit are left. */
  function Evicted(p: Pending): Pending
    decreases |p.order|
  {
    if |p.order| <= MAX_PENDING_BACKGROUND then p else Evicted(Table(p.order[1..], p.at - {p.order[0]}))
  }

  /** A monitor takes over the timeout that its call declared. */
  function Launched(p: Pending, t: Task): Pending {
    var callKey := MONITOR_CALL_PREFIX + t.toolUseId;
    if t.kind == Monitor && t.toolUseId != "" && callKey in p.at then
      var call := p.at[callKey];
      Evicted(p.Delete(callKey).Set(t.taskId, t.(startedAt := call.startedAt, expiresAt := call.expiresAt)))
    else Evicted(p.Set(t.taskId, t))
  }

  predicate IsMonitorCall(f: Frame) {
    f.payload.ToolCall? && f.payload.tool == "Monitor" && f.payload.input.persistent
  }

  function MonitorCall(f: Frame): Task
    requires f.payload.ToolCall?
  {
    var timeout := f.payload.input.timeoutMs;
    Task("", f.payload.toolUseId, Monitor, f.ts,
         f.ts + if timeout.Some? && timeout.value > 0 then timeout.value else MONITOR_DEFAULT_TIMEOUT_MS)
  }

  function Notified(p: Pending, n: Note): Pending {
    if n.status !in TERMINAL_TASK_STATUSES then p
    else if n.toolUseId == "" then p.Delete(n.taskId)
    else Purged(p.Delete(n.taskId), UsedBy(n.toolUseId))
  }

  function Folded(p: Pending, f: Frame): Pending {
    if f.agentId != "" then p
    else if f.payload.ToolCall? && f.payload.tool in TASK_STOP_TOOLS then Purged(p, NamedIn(f.payload.input.text))
    else if f.payload.UserPrompt? then (if f.payload.note.Some? then Notified(p, f.payload.note.value) else p)
    else if IsMonitorCall(f) then p.Set(MONITOR_CALL_PREFIX + f.payload.toolUseId, MonitorCall(f))
    else if BackgroundTask(f).Some? then Launched(p, BackgroundTask(f).value)
    else p
  }

  function Effective(base: Base, p: Pending, awaitingUser: bool, now: int): Activity {
    if base == Busy then IsBusy
    else if awaitingUser then IsAwaitingInput
    else if Purged(p, ExpiredBy(now)).order != [] then IsBackground
    else IsAwaitingInput
  }

  datatype State = State(base: Base, awaitingUser: bool, pending: Pending)

  const INITIAL := State(AwaitingInput, false, Empty())

  /** A frame is folded in, and the ledger pruned at the frame's time; a reading or a listing prunes it at the hub's. */
  datatype Input = Saw(f: Frame) | Read(now: int) | List(now: int)

  function Seen(s: State, f: Frame): State {
    State(NextActivityState(s.base, f), NextAwaitingUser(s.awaitingUser, f.payload),
          Purged(Folded(s.pending, f), ExpiredBy(f.ts)))
  }

  /** Only when neither busy nor blocked is the ledger looked at, and so pruned. */
  function Reading(s: State, now: int): State {
    if s.base == Busy || s.awaitingUser then s else s.(pending := Purged(s.pending, ExpiredBy(now)))
  }

  function Step(s: State, i: Input): State {
    match i
    case Saw(f) => Seen(s, f)
    case Read(now) => Reading(s, now)
    case List(now) => s.(pending := Purged(s.pending, ExpiredBy(now)))
  }

  function Run(inputs: seq<Input>): State {
    if inputs == [] then INITIAL else Step(Run(inputs[..|inputs| - 1]), inputs[|inputs| - 1])
  }

  // ----- What any run of frames keeps -----

  /** A task is kept under its id; a monitor that was called but has no id yet, under the id of the call. */
  ghost predicate Placed(k: string, t: Task) {
    if t.taskId != "" then k == t.taskId else k == MONITOR_CALL_PREFIX + t.toolUseId
  }

  ghost predicate Inv(p: Pending) {
    p.Wf() && forall k :: k in p.at ==> Placed(k, p.at[k])
  }

  lemma {:induction false} RemainingIs(order: seq<string>, at: map<string, Task>, c: Criterion)
    ensures forall k :: k in Remaining(order, at, c) <==> k in order && !(k in at && Meets(at[k], c))
    ensures NoDup(order) ==> NoDup(Remaining(order, at, c))
    ensures |Remaining(order, at, c)| <= |order|
  {
    hide Meets;
    if order != [] {
      var q := order[..|order| - 1];
      RemainingIs(q, at, c);
      assert order == q + [order[|order| - 1]];
      if NoDup(order) {
        assert NoDup(q) && order[|order| - 1] !in q;
      }
    }
  }

  lemma PurgedKeeps(p: Pending, c: Criterion)
    requires Inv(p)
    ensures Inv(Purged(p, c)) && Purged(p, c).Size() <= p.Size()
  {
    hide Meets, NoDup;
    RemainingIs(p.order, p.at, c);
  }

  lemma {:induction false} EvictedKeeps(p: Pending)
    requires Inv(p)
    ensures
      var e := Evicted(p);
      && Inv(e) && |e.order| == (if |p.order| <= MAX_PENDING_BACKGROUND then |p.order| else MAX_PENDING_BACKGROUND)
      && |e.order| <= |p.order| && e.order == p.order[|p.order| - |e.order|..]
      && forall k :: k in e.at ==> k in p.at && e.at[k] == p.at[k]
    decreases |p.order|
  {
    if |p.order| > MAX_PENDING_BACKGROUND {
      var q: Pending := Table(p.order[1..], p.at - {p.order[0]});
      assert p.order == [p.order[0]] + q.order;
      forall k
        ensures k in q.order <==> k in p.order && k != p.order[0]
      {
        if k in q.order {
          var i :| 0 <= i < |q.order| && q.order[i] == k;
          assert p.order[i + 1] == k;
        }
      }
      hide Placed;
      assert Inv(q);
      EvictedKeeps(q);
    }
  }

  lemma LaunchedKeeps(p: Pending, t: Task)
    requires Inv(p) && t.taskId != ""
    ensures Inv(Launched(p, t)) && |Launched(p, t).order| <= MAX_PENDING_BACKGROUND
  {
    hide Evicted, Without;
    var callKey := MONITOR_CALL_PREFIX + t.toolUseId;
    p.DeleteWf(callKey);
    var d := p.Delete(callKey);
    var at := if callKey in p.at then p.at[callKey] else t;
    var u := t.(startedAt := at.startedAt, expiresAt := at.expiresAt);
    d.SetWf(t.taskId, u);
    p.SetWf(t.taskId, t);
    hide NoDup;
    assert Placed(t.taskId, t) && Placed(t.taskId, u);
    hide Placed;
    EvictedKeeps(d.Set(t.taskId, u));
    EvictedKeeps(p.Set(t.taskId, t));
  }

  lemma LaunchHasId(f: Frame)
    requires BackgroundTask(f).Some?
    ensures BackgroundTask(f).value.taskId != ""
  {
  }

  lemma FoldedKeeps(p: Pending, f: Frame)
    requires Inv(p)
    ensures Inv(Folded(p, f))
    ensures |Folded(p, f).order| <= |p.order| + (if IsMonitorCall(f) then 1 else 0)
            || |Folded(p, f).order| <= MAX_PENDING_BACKGROUND
  {
    hide Placed, Launched, Purged, BackgroundTask, Without, NoDup;
    if f.payload.ToolCall? {
      PurgedKeeps(p, NamedIn(f.payload.input.text));
      CallKeeps(p, f);
    }
    if f.payload.UserPrompt? && f.payload.note.Some? {
      var n := f.payload.note.value;
      DeletedKeeps(p, n.taskId);
      PurgedKeeps(p.Delete(n.taskId), UsedBy(n.toolUseId));
    }
    if BackgroundTask(f).Some? {
      LaunchHasId(f);
      LaunchedKeeps(p, BackgroundTask(f).value);
    }
  }

  lemma DeletedKeeps(p: Pending, k: string)
    requires Inv(p)
    ensures Inv(p.Delete(k)) && |p.Delete(k).order| <= |p.order|
  {
    p.DeleteWf(k);
    hide NoDup, Without;
  }

  lemma CallKeeps(p: Pending, f: Frame)
    requires Inv(p) && f.payload.ToolCall?
    ensures
      var q := p.Set(MONITOR_CALL_PREFIX + f.payload.toolUseId, MonitorCall(f));
      Inv(q) && |q.order| <= |p.order| + 1
  {
    p.SetWf(MONITOR_CALL_PREFIX + f.payload.toolUseId, MonitorCall(f));
    hide NoDup;
  }

  lemma {:induction false} RunKeeps(inputs: seq<Input>)
    ensures Inv(Run(inputs).pending)
  {
    hide Purged, Folded, Placed;
    if inputs != [] {
      RunKeeps(inputs[..|inputs| - 1]);
      var s, i := Run(inputs[..|inputs| - 1]), inputs[|inputs| - 1];
      hide Inv;
      match i
      case Saw(f) =>
        FoldedKeeps(s.pending, f);
        PurgedKeeps(Folded(s.pending, f), ExpiredBy(f.ts));
      case Read(now) => PurgedKeeps(s.pending, ExpiredBy(now));
      case List(now) => PurgedKeeps(s.pending, ExpiredBy(now));
    }
  }

  // ----- What a notification, a monitor and a sub-agent do -----

  predicate IsTerminal(f: Frame) {
    && f.agentId == "" && f.payload.UserPrompt? && f.payload.note.Some?
    && f.payload.note.value.status in TERMINAL_TASK_STATUSES
  }

  /** A terminal notification takes out what is kept under its task id or was launched by its tool use, and no more. */
  lemma TerminalClears(p: Pending, f: Frame)
    requires Inv(p) && IsTerminal(f)
    ensures
      var n, q := f.payload.note.value, Folded(p, f);
      && (forall k :: k in q.at <==>
                        k in p.at && k != n.taskId && (n.toolUseId != "" ==> p.at[k].toolUseId != n.toolUseId))
      && (forall k :: k in q.at ==> q.at[k] == p.at[k])
      && (n.taskId != "" ==> forall k :: k in q.at ==> q.at[k].taskId != n.taskId)
  {
    hide NoDup, Without;
  }

  predicate Launches(f: Frame) {
    && f.agentId == "" && BackgroundTask(f).Some? && !IsMonitorCall(f)
    && !(f.payload.ToolCall? && f.payload.tool in TASK_STOP_TOOLS)
  }

  predicate Adopts(p: Pending, t: Task) {
    t.kind == Monitor && t.toolUseId != "" && MONITOR_CALL_PREFIX + t.toolUseId in p.at
  }

  /** The ledger that a launched task is put into: the call that it adopts is gone. */
  function Cleared(p: Pending, t: Task): Pending {
    if Adopts(p, t) then p.Delete(MONITOR_CALL_PREFIX + t.toolUseId) else p
  }

  /** How many keys come after the place of `k`. */
  function Behind(order: seq<string>, k: string): nat {
    if order == [] || order[|order| - 1] == k then 0 else Behind(order[..|order| - 1], k) + 1
  }

  lemma {:induction false} BehindIs(order: seq<string>, i: nat)
    requires NoDup(order) && i < |order|
    ensures Behind(order, order[i]) == |order| - 1 - i
  {
    if i < |order| - 1 {
      BehindIs(order[..|order| - 1], i);
    }
  }

  lemma EvictedIff(p: Pending, k: string)
    requires Inv(p) && k in p.at
    ensures k in Evicted(p).at <==> Behind(p.order, k) < MAX_PENDING_BACKGROUND
    ensures k in Evicted(p).at ==> Evicted(p).at[k] == p.at[k]
  {
    EvictedKeeps(p);
    hide Evicted, Placed, Behind, NoDup;
    InLast(p.order, |Evicted(p).order|, k);
  }

  lemma InLast(order: seq<string>, n: nat, k: string)
    requires NoDup(order) && n <= |order| && k in order
    ensures k in order[|order| - n..] <==> Behind(order, k) < n
    ensures Behind(order, k) < |order|
  {
    hide Behind;
    var i :| 0 <= i < |order| && order[i] == k;
    BehindIs(order, i);
    var gone := |order| - n;
    if i >= gone {
      assert order[gone..][i - gone] == k;
    }
  }

  /**
   * A launched task is in the ledger afterwards if and only if its id is new or has fewer than 64 keys behind it:
   * an id that is launched again keeps its old place, and so may be the one that has to go for itself.
   */
  lemma LaunchIsKept(p: Pending, f: Frame)
    requires Inv(p) && Launches(f)
    ensures
      var t := BackgroundTask(f).value;
      var callKey := MONITOR_CALL_PREFIX + t.toolUseId;
      var d := Cleared(p, t);
      var q := Folded(p, f);
      && (t.taskId in q.at <==> t.taskId !in d.at || Behind(d.order, t.taskId) < MAX_PENDING_BACKGROUND)
      && (t.taskId in q.at ==>
            q.at[t.taskId] ==
            if Adopts(p, t) then t.(startedAt := p.at[callKey].startedAt, expiresAt := p.at[callKey].expiresAt) else t)
      && (t.kind == Monitor && t.toolUseId != "" && callKey != t.taskId ==> callKey !in q.at)
  {
    hide Evicted, Without, NoDup, BackgroundTask, Behind;
    var t := BackgroundTask(f).value;
    assert !f.payload.UserPrompt? by { LaunchIsNoPrompt(f); }
    var callKey := MONITOR_CALL_PREFIX + t.toolUseId;
    LaunchHasId(f);
    p.DeleteWf(callKey);
    var d := Cleared(p, t);
    var u := if Adopts(p, t) then t.(startedAt := p.at[callKey].startedAt, expiresAt := p.at[callKey].expiresAt) else t;
    SetKeeps(d, u);
    var q := d.Set(t.taskId, u);
    EvictedKeeps(q);
    EvictedIff(q, t.taskId);
    LastHasNoneBehind(d.order, t.taskId);
    assert Folded(p, f) == Evicted(q);
  }

  lemma LastHasNoneBehind(order: seq<string>, k: string)
    ensures Behind(order + [k], k) == 0
  {
  }

  lemma LaunchIsNoPrompt(f: Frame)
    requires BackgroundTask(f).Some?
    ensures !f.payload.UserPrompt?
  {
  }

  lemma SetKeeps(p: Pending, t: Task)
    requires p.Wf() && (forall k :: k in p.at ==> Placed(k, p.at[k])) && t.taskId != ""
    ensures Inv(p.Set(t.taskId, t))
  {
    p.SetWf(t.taskId, t);
    hide NoDup;
  }

  /**
   * A persistent monitor is counted once, from its call on, with the timeout that the call declared, unless its
   * task id stood in the ledger already, with 64 keys behind it.
   */
  lemma MonitorCountedOnce(p: Pending, call: Frame, result: Frame)
    requires Inv(p) && call.agentId == "" && IsMonitorCall(call)
    requires Launches(result) && BackgroundTask(result).value.kind == Monitor
    requires BackgroundTask(result).value.toolUseId == call.payload.toolUseId && call.payload.toolUseId != ""
    ensures
      var id := BackgroundTask(result).value.taskId;
      var callKey := MONITOR_CALL_PREFIX + call.payload.toolUseId;
      var before := p.Delete(callKey);
      var q := Folded(Folded(p, call), result);
      && (id in q.at <==> id !in before.at || Behind(before.order, id) < MAX_PENDING_BACKGROUND)
      && (id in q.at ==> q.at[id].startedAt == call.ts && q.at[id].expiresAt == MonitorCall(call).expiresAt)
      && (callKey in q.at <==> callKey == id)
  {
    hide BackgroundTask, Launched, NoDup, Without, Behind;
    var r := Folded(p, call);
    var callKey := MONITOR_CALL_PREFIX + call.payload.toolUseId;
    FoldedKeeps(p, call);
    assert r == p.Set(callKey, MonitorCall(call)) by { MonitorIsNoStop(call); }
    SetThenDeleted(p, callKey, MonitorCall(call));
    r.DeleteWf(callKey);
    LaunchIsKept(r, result);
  }

  lemma SetThenDeleted(p: Pending, k: string, t: Task)
    requires p.Wf()
    ensures p.Set(k, t).Delete(k) == p.Delete(k)
  {
    if k !in p.at {
      WithoutConcat(p.order, [k], k);
      assert Without([k], k) == [];
      assert Without(p.order + [k], k) == Without(p.order, k);
    }
    assert p.at[k := t] - {k} == p.at - {k};
  }

  lemma MonitorIsNoStop(f: Frame)
    requires IsMonitorCall(f)
    ensures f.payload.tool !in TASK_STOP_TOOLS
  {
  }

  function FoldAll(p: Pending, fs: seq<Frame>): Pending {
    if fs == [] then p else Folded(FoldAll(p, fs[..|fs| - 1]), fs[|fs| - 1])
  }

  function BaseAfter(b: Base, fs: seq<Frame>): Base {
    if fs == [] then b else NextActivityState(BaseAfter(b, fs[..|fs| - 1]), fs[|fs| - 1])
  }

  function TopLevel(fs: seq<Frame>): seq<Frame> {
    if fs == [] then [] else TopLevel(fs[..|fs| - 1]) + if fs[|fs| - 1].agentId == "" then [fs[|fs| - 1]] else []
  }

  /** Ledger and base state are what the session's own frames make of them. */
  lemma {:induction false} SubAgentsAreIgnored(p: Pending, b: Base, fs: seq<Frame>)
    ensures FoldAll(p, fs) == FoldAll(p, TopLevel(fs)) && BaseAfter(b, fs) == BaseAfter(b, TopLevel(fs))
  {
    if fs != [] {
      var before, f := fs[..|fs| - 1], fs[|fs| - 1];
      SubAgentsAreIgnored(p, b, before);
      if f.agentId == "" {
        var t := TopLevel(fs);
        assert t[..|t| - 1] == TopLevel(before);
      } else {
        assert TopLevel(fs) == TopLevel(before);
      }
      hide Launched, Notified, Purged, BackgroundTask;
    }
  }

  // ----- Busy, blocked -----

  predicate MakesBusy(f: Frame) {
    f.agentId == "" && f.kind in {UserPromptKind, ToolCallKind, ToolResultKind, CompactKind}
  }

  predicate EndsTurn(f: Frame) {
    && f.agentId == ""
    && (f.kind == NotificationKind
        || (f.kind == AssistantMessageKind && !(f.payload.AssistantMessage? && f.payload.subagent)))
  }

  /** Some frame started it, and none after that one stopped it. */
  ghost predicate Since(inputs: seq<Input>, starts: Frame -> bool, stops: Frame -> bool) {
    exists i :: 0 <= i < |inputs| && StartsAt(inputs, i, starts, stops)
  }

  ghost predicate StartsAt(inputs: seq<Input>, i: nat, starts: Frame -> bool, stops: Frame -> bool)
    requires i < |inputs|
  {
    inputs[i].Saw? && starts(inputs[i].f) && forall j :: i < j < |inputs| && inputs[j].Saw? ==> !stops(inputs[j].f)
  }

  lemma {:induction false} SinceSnoc(before: seq<Input>, i: Input, starts: Frame -> bool, stops: Frame -> bool)
    ensures Since(before + [i], starts, stops) <==>
            ((i.Saw? && starts(i.f)) || (Since(before, starts, stops) && (i.Saw? ==> !stops(i.f))))
  {
    var all := before + [i];
    var n := |before|;
    if i.Saw? && starts(i.f) {
      assert StartsAt(all, n, starts, stops);
    }
    forall k | 0 <= k < n
      ensures StartsAt(all, k, starts, stops) <==> StartsAt(before, k, starts, stops) && (i.Saw? ==> !stops(i.f))
    {
      assert all[n] == i && forall j :: 0 <= j < n ==> all[j] == before[j];
      if StartsAt(all, k, starts, stops) {
        assert forall j :: k < j < n && before[j].Saw? ==> !stops(all[j].f);
      }
    }
  }

  /** A session is busy just when, since something made it busy, nothing ended the turn. */
  lemma {:induction false} BusyIff(inputs: seq<Input>)
    ensures Run(inputs).base == Busy <==> Since(inputs, MakesBusy, EndsTurn)
  {
    if inputs != [] {
      var p, i := inputs[..|inputs| - 1], inputs[|inputs| - 1];
      BusyIff(p);
      SinceSnoc(p, i, MakesBusy, EndsTurn);
      assert inputs == p + [i];
      RunSnoc(inputs);
      hide Run, Step, Since;
      StepBase(Run(p), i);
    }
  }

  lemma RunSnoc(inputs: seq<Input>)
    requires inputs != []
    ensures Run(inputs) == Step(Run(inputs[..|inputs| - 1]), inputs[|inputs| - 1])
  {
  }

  lemma StepBase(s: State, i: Input)
    ensures Step(s, i).base ==
            if i.Saw? && MakesBusy(i.f) then Busy else if i.Saw? && EndsTurn(i.f) then AwaitingInput else s.base
    ensures i.Saw? ==> !(MakesBusy(i.f) && EndsTurn(i.f))
    ensures Step(s, i).awaitingUser ==
            if i.Saw? then AsksPermission(i.f) || (s.awaitingUser && !IsNoNotification(i.f)) else s.awaitingUser
  {
    hide Purged, Folded;
  }

  predicate AsksPermission(f: Frame) {
    f.payload == Notification(true)
  }

  predicate IsNoNotification(f: Frame) {
    !f.payload.Notification?
  }

  /** It is blocked on its user just when a permission prompt was followed by nothing but notifications. */
  lemma {:induction false} BlockedIff(inputs: seq<Input>)
    ensures Run(inputs).awaitingUser <==> Since(inputs, AsksPermission, IsNoNotification)
  {
    if inputs != [] {
      var p, i := inputs[..|inputs| - 1], inputs[|inputs| - 1];
      BlockedIff(p);
      SinceSnoc(p, i, AsksPermission, IsNoNotification);
      assert inputs == p + [i];
      RunSnoc(inputs);
      hide Run, Step, Since;
      StepBase(Run(p), i);
    }
  }

  // ----- Background, until the latest expiry -----

  /** Pruning twice is pruning at the later time. */
  lemma PruneTwice(p: Pending, t1: int, t2: int)
    requires Inv(p)
    ensures Purged(Purged(p, ExpiredBy(t1)), ExpiredBy(t2)) == Purged(p, ExpiredBy(if t1 < t2 then t2 else t1))
  {
    var q := Purged(p, ExpiredBy(t1));
    RemainingTwice(p.order, p.at, q.at, t1, t2);
  }

  lemma {:induction false} RemainingTwice(order: seq<string>, a: map<string, Task>, b: map<string, Task>, t1: int,
                                          t2: int)
    requires b == map k | k in a && !Meets(a[k], ExpiredBy(t1)) :: a[k]
    requires forall k :: k in order ==> k in a
    ensures Remaining(Remaining(order, a, ExpiredBy(t1)), b, ExpiredBy(t2)) ==
            Remaining(order, a, ExpiredBy(if t1 < t2 then t2 else t1))
  {
    if order != [] {
      var q, k := order[..|order| - 1], order[|order| - 1];
      assert k in order && forall x :: x in q ==> x in order;
      RemainingTwice(q, a, b, t1, t2);
      var r := Remaining(order, a, ExpiredBy(t1));
      if !Meets(a[k], ExpiredBy(t1)) {
        assert r[..|r| - 1] == Remaining(q, a, ExpiredBy(t1));
      } else {
        assert r == Remaining(q, a, ExpiredBy(t1));
      }
    }
  }

  /** The latest expiry of all tasks. */
  function Latest(order: seq<string>, at: map<string, Task>): Option<int> {
    if order == [] then None
    else
      var before, k := Latest(order[..|order| - 1], at), order[|order| - 1];
      if k !in at then before
      else if before.None? || before.value < at[k].expiresAt then Some(at[k].expiresAt) else before
  }

  lemma {:induction false} LatestIs(order: seq<string>, at: map<string, Task>)
    ensures
      var l := Latest(order, at);
      && (l.Some? ==> exists k :: k in order && k in at && at[k].expiresAt == l.value)
      && (forall k :: k in order && k in at ==> l.Some? && at[k].expiresAt <= l.value)
  {
    if order != [] {
      var q, k := order[..|order| - 1], order[|order| - 1];
      assert order == q + [k];
      LatestIs(q, at);
      var before := Latest(q, at);
      if before.Some? {
        var x :| x in q && x in at && at[x].expiresAt == before.value;
        assert x in order;
      }
      assert k in order;
    }
  }

  predicate Quiet(inputs: seq<Input>) {
    forall i :: 0 <= i < |inputs| ==> !inputs[i].Saw?
  }

  /** The latest time of some readings and listings. */
  function LatestTime(inputs: seq<Input>): int
    requires Quiet(inputs) && inputs != []
  {
    var before, t := inputs[..|inputs| - 1], inputs[|inputs| - 1].now;
    if before == [] || LatestTime(before) < t then t else LatestTime(before)
  }

  lemma {:induction false} QuietPrunes(inputs: seq<Input>, more: seq<Input>)
    requires Run(inputs).base == AwaitingInput && !Run(inputs).awaitingUser && Quiet(more) && more != []
    ensures
      var s := Run(inputs);
      Run(inputs + more) == s.(pending := Purged(s.pending, ExpiredBy(LatestTime(more))))
  {
    var all, n := inputs + more, |more| - 1;
    var before := more[..n];
    assert all[..|all| - 1] == inputs + before && all[|all| - 1] == more[n];
    RunSnoc(all);
    RunKeeps(inputs);
    hide Purged;
    if before == [] {
      assert inputs + before == inputs;
    } else {
      QuietPrunes(inputs, before);
      PruneTwice(Run(inputs).pending, LatestTime(before), more[n].now);
      hide Run;
    }
  }

  lemma OutstandingIff(p: Pending, t: int)
    requires Inv(p)
    ensures Purged(p, ExpiredBy(t)).order != [] <==> Latest(p.order, p.at).Some? && t < Latest(p.order, p.at).value
  {
    LatestIs(p.order, p.at);
    RemainingIs(p.order, p.at, ExpiredBy(t));
    hide NoDup, Placed, Latest;
    var r := Remaining(p.order, p.at, ExpiredBy(t));
    hide Remaining;
    if r != [] {
      assert r[0] in r;
    }
  }

  /**
   * Without new frames a session that is neither busy nor blocked is in the background exactly until a reading or a
   * listing, this one or an earlier one, came at its latest expiry or after it: it leaves the background once.
   */
  lemma {:induction false} BackgroundUntilLatest(inputs: seq<Input>, more: seq<Input>)
    requires Run(inputs).base == AwaitingInput && !Run(inputs).awaitingUser && Quiet(more)
    ensures
      var s := Run(inputs);
      var after := Run(inputs + more);
      var latest := Latest(s.pending.order, s.pending.at);
      forall now :: Effective(after.base, after.pending, after.awaitingUser, now) ==
                      if latest.Some? && (more != [] ==> LatestTime(more) < latest.value) && now < latest.value
                      then IsBackground else IsAwaitingInput
  {
    var s := Run(inputs);
    RunKeeps(inputs);
    if more == [] {
      assert inputs + more == inputs;
    } else {
      QuietPrunes(inputs, more);
    }
    hide Run, Latest, Inv, LatestTime;
    forall now
      ensures
        var l := Latest(s.pending.order, s.pending.at);
        Purged(Run(inputs + more).pending, ExpiredBy(now)).order != [] <==>
        l.Some? && (more != [] ==> LatestTime(more) < l.value) && now < l.value
    {
      if more == [] {
        OutstandingIff(s.pending, now);
      } else {
        var t := LatestTime(more);
        PruneTwice(s.pending, t, now);
        OutstandingIff(s.pending, if t < now then now else t);
      }
    }
    hide Purged;
  }

  // ----- How many tasks there can be -----

  /** How many monitors were called since a task was last launched. */
  function CallsSinceLaunch(inputs: seq<Input>): nat {
    if inputs == [] then 0
    else
      var before, i := CallsSinceLaunch(inputs[..|inputs| - 1]), inputs[|inputs| - 1];
      if i.Saw? && Launches(i.f) then 0
      else if i.Saw? && i.f.agentId == "" && IsMonitorCall(i.f) then before + 1
      else before
  }

  lemma FoldedSize(p: Pending, f: Frame)
    requires Inv(p)
    ensures Launches(f) ==> |Folded(p, f).order| <= MAX_PENDING_BACKGROUND
    ensures !(f.agentId == "" && IsMonitorCall(f)) && !Launches(f) ==> |Folded(p, f).order| <= |p.order|
    ensures |Folded(p, f).order| <= |p.order| + 1 || Launches(f)
  {
    hide Placed, Purged, BackgroundTask, Without, NoDup, Launched, Notified, MonitorCall;
    if Launches(f) {
      LaunchIsNoPrompt(f);
      LaunchHasId(f);
      LaunchedKeeps(p, BackgroundTask(f).value);
    }
    if f.payload.ToolCall? {
      PurgedKeeps(p, NamedIn(f.payload.input.text));
      CallKeeps(p, f);
    }
    if f.payload.UserPrompt? && f.payload.note.Some? {
      NotifiedSize(p, f.payload.note.value);
    }
  }

  lemma NotifiedSize(p: Pending, n: Note)
    requires Inv(p)
    ensures |Notified(p, n).order| <= |p.order|
  {
    DeletedKeeps(p, n.taskId);
    PurgedKeeps(p.Delete(n.taskId), UsedBy(n.toolUseId));
    hide Purged, Inv;
  }

  /** The limit of 64 tasks is exceeded at most by the monitors called since the last launch. */
  lemma {:induction false} SizeBound(inputs: seq<Input>)
    ensures Run(inputs).pending.Size() <= MAX_PENDING_BACKGROUND + CallsSinceLaunch(inputs)
  {
    if inputs != [] {
      var p, i := inputs[..|inputs| - 1], inputs[|inputs| - 1];
      SizeBound(p);
      RunKeeps(p);
      hide Inv, Purged, Folded, Launches, IsMonitorCall;
      var s := Run(p);
      match i
      case Saw(f) =>
        FoldedKeeps(s.pending, f);
        FoldedSize(s.pending, f);
        PurgedKeeps(Folded(s.pending, f), ExpiredBy(f.ts));
      case Read(now) => PurgedKeeps(s.pending, ExpiredBy(now));
      case List(now) => PurgedKeeps(s.pending, ExpiredBy(now));
    }
  }

  /** One more monitor call than the ledger has room for, at a time when nothing in it has expired. */
  ghost predicate Overflows(p: Pending, i: Input) {
    && i.Saw? && i.f.agentId == "" && IsMonitorCall(i.f) && MONITOR_CALL_PREFIX + i.f.payload.toolUseId !in p.at
    && p.Size() == MAX_PENDING_BACKGROUND && forall k :: k in p.at ==> p.at[k].expiresAt > i.f.ts
  }

  /** Only a monitor call makes the ledger larger, and only one that is not in it yet. */
  lemma FoldedGrowsIff(p: Pending, f: Frame)
    requires Inv(p) && p.Size() <= MAX_PENDING_BACKGROUND
    ensures Folded(p, f).Size() > MAX_PENDING_BACKGROUND <==>
            && f.agentId == "" && IsMonitorCall(f) && MONITOR_CALL_PREFIX + f.payload.toolUseId !in p.at
            && p.Size() == MAX_PENDING_BACKGROUND
  {
    FoldedSize(p, f);
    hide Launched, Notified, Purged, NoDup, Placed, BackgroundTask;
    if f.agentId == "" && IsMonitorCall(f) {
      MonitorIsNoStop(f);
    }
  }

  lemma {:induction false} RemainingAll(order: seq<string>, at: map<string, Task>, now: int)
    ensures
      var r := Remaining(order, at, ExpiredBy(now));
      && |r| <= |order|
      && (|r| == |order| ==> forall k :: k in order && k in at ==> at[k].expiresAt > now)
      && ((forall k :: k in order && k in at ==> at[k].expiresAt > now) ==> r == order)
  {
    if order != [] {
      var q, k := order[..|order| - 1], order[|order| - 1];
      assert order == q + [k] && k in order;
      RemainingAll(q, at, now);
    }
  }

  /** A step takes the ledger over the limit of 64 if and only if it is such a call. */
  lemma StepOverIff(s: State, i: Input)
    requires Inv(s.pending) && s.pending.Size() <= MAX_PENDING_BACKGROUND
    ensures Step(s, i).pending.Size() > MAX_PENDING_BACKGROUND <==> Overflows(s.pending, i)
  {
    hide Folded, Remaining, NoDup, Placed, IsMonitorCall;
    match i
    case Read(now) => RemainingAll(s.pending.order, s.pending.at, now);
    case List(now) => RemainingAll(s.pending.order, s.pending.at, now);
    case Saw(f) =>
      var q := Folded(s.pending, f);
      FoldedKeeps(s.pending, f);
      FoldedGrowsIff(s.pending, f);
      RemainingAll(q.order, q.at, f.ts);
      if q.Size() > MAX_PENDING_BACKGROUND {
        CallIsSet(s.pending, f);
        assert forall k :: k in q.order <==> k in q.at;
        assert forall k :: k in s.pending.at ==> k in q.at && q.at[k] == s.pending.at[k];
      }
  }

  lemma CallIsSet(p: Pending, f: Frame)
    requires f.agentId == "" && IsMonitorCall(f)
    ensures f.payload.ToolCall? && Folded(p, f) == p.Set(MONITOR_CALL_PREFIX + f.payload.toolUseId, MonitorCall(f))
    ensures MonitorCall(f).expiresAt > f.ts
  {
    MonitorIsNoStop(f);
  }

  ghost predicate WithinLimit(inputs: seq<Input>) {
    forall n :: 0 <= n <= |inputs| ==> Run(inputs[..n]).pending.Size() <= MAX_PENDING_BACKGROUND
  }

  ghost predicate NeverOverflows(inputs: seq<Input>) {
    forall n :: 0 <= n < |inputs| ==> !Overflows(Run(inputs[..n]).pending, inputs[n])
  }

  lemma LimitStart()
    ensures WithinLimit([]) && NeverOverflows([])
  {
    assert Run([]) == INITIAL;
    hide Run, Overflows;
    var none: seq<Input> := [];
    assert none[..0] == none;
  }

  lemma LimitSnoc(before: seq<Input>, i: Input)
    ensures WithinLimit(before + [i]) <==>
            WithinLimit(before) && Run(before + [i]).pending.Size() <= MAX_PENDING_BACKGROUND
    ensures NeverOverflows(before + [i]) <==> NeverOverflows(before) && !Overflows(Run(before).pending, i)
    ensures WithinLimit(before) ==> Run(before).pending.Size() <= MAX_PENDING_BACKGROUND
  {
    hide Run, Overflows;
    var all := before + [i];
    assert all[..|all|] == all && before[..|before|] == before;
    assert forall n :: 0 <= n <= |before| ==> all[..n] == before[..n];
    assert all[|before|] == i && forall n :: 0 <= n < |before| ==> all[n] == before[n];
  }

  /** All states of a run are within the limit of 64 if and only if no step of it is such a call. */
  lemma {:induction false} WithinLimitIff(inputs: seq<Input>)
    ensures WithinLimit(inputs) <==> NeverOverflows(inputs)
  {
    hide Run, Step, Overflows, Inv, WithinLimit, NeverOverflows;
    if inputs == [] {
      LimitStart();
    } else {
      var before, i := inputs[..|inputs| - 1], inputs[|inputs| - 1];
      WithinLimitIff(before);
      RunKeeps(before);
      assert inputs == before + [i];
      LimitSnoc(before, i);
      RunSnoc(inputs);
      if Run(before).pending.Size() <= MAX_PENDING_BACKGROUND {
        StepOverIff(Run(before), i);
      }
    }
  }

  // ----- Monitor calls pile up -----

  /** A run of monitor calls with different tool uses, at time 0. */
  function Use(n: nat): string {
    seq(n, _ => 'x')
  }

  function NthCall(n: nat): Frame {
    Frame(ToolCallKind, ToolCall("Monitor", Use(n), CallInput("", false, None, true, None)), "", 0)
  }

  function Calls(n: nat): seq<Input> {
    if n == 0 then [] else Calls(n - 1) + [Saw(NthCall(n - 1))]
  }

  function CallKeys(n: nat): seq<string> {
    if n == 0 then [] else CallKeys(n - 1) + [MONITOR_CALL_PREFIX + Use(n - 1)]
  }

  lemma {:induction false} CallKeysDiffer(k: string, n: nat)
    requires k in CallKeys(n)
    ensures k != MONITOR_CALL_PREFIX + Use(n) && MONITOR_CALL_PREFIX <= k && |k| < |MONITOR_CALL_PREFIX| + n
    decreases n
  {
    if k != MONITOR_CALL_PREFIX + Use(n - 1) {
      CallKeysDiffer(k, n - 1);
    }
  }

  ghost predicate NothingDue(p: Pending) {
    forall k :: k in p.at ==> p.at[k].expiresAt > 0
  }

  /** No key of the ledger is one of a monitor call. */
  ghost predicate NoCalls(p: Pending) {
    forall k :: k in p.at ==> !(MONITOR_CALL_PREFIX <= k)
  }

  /** However many monitor calls there are, each is added to what the ledger holds and nothing makes room for it. */
  lemma {:induction false} CallsPileUp(inputs: seq<Input>, n: nat)
    requires NothingDue(Run(inputs).pending) && NoCalls(Run(inputs).pending)
    ensures
      var p := Run(inputs + Calls(n)).pending;
      p.order == Run(inputs).pending.order + CallKeys(n) && NothingDue(p) && |CallKeys(n)| == n
  {
    hide Use, Step, NothingDue, NoCalls;
    if n == 0 {
      assert inputs + Calls(0) == inputs;
    } else {
      CallsPileUp(inputs, n - 1);
      var all := inputs + Calls(n);
      assert all[..|all| - 1] == inputs + Calls(n - 1) && all[|all| - 1] == Saw(NthCall(n - 1));
      RunSnoc(all);
      RunKeeps(inputs);
      RunKeeps(inputs + Calls(n - 1));
      hide Run, Calls, CallKeys;
      IsNewCall(Run(inputs).pending, Run(inputs + Calls(n - 1)).pending, n - 1);
      OneMoreCall(Run(inputs + Calls(n - 1)), n - 1);
      CallKeysSnoc(Run(inputs).pending.order, n - 1);
    }
  }

  lemma CallKeysSnoc(order: seq<string>, n: nat)
    ensures order + CallKeys(n + 1) == order + CallKeys(n) + [MONITOR_CALL_PREFIX + Use(n)]
  {
  }

  lemma IsNewCall(p: Pending, q: Pending, n: nat)
    requires Inv(p) && NoCalls(p) && Inv(q) && q.order == p.order + CallKeys(n)
    ensures MONITOR_CALL_PREFIX + Use(n) !in q.at
  {
    hide Use, NoDup, Placed, CallKeys;
    var k := MONITOR_CALL_PREFIX + Use(n);
    if k in CallKeys(n) {
      CallKeysDiffer(k, n);
    }
  }

  lemma OneMoreCall(s: State, n: nat)
    requires Inv(s.pending) && NothingDue(s.pending) && MONITOR_CALL_PREFIX + Use(n) !in s.pending.at
    ensures
      var p := Step(s, Saw(NthCall(n))).pending;
      p.order == s.pending.order + [MONITOR_CALL_PREFIX + Use(n)] && NothingDue(p)
  {
    hide Use, NoDup, Placed, Purged;
    var f := NthCall(n);
    CallIsSet(s.pending, f);
    FoldedKeeps(s.pending, f);
    hide Folded;
    NothingExpired(Folded(s.pending, f), 0);
  }

  /** Monitor calls alone exceed any limit: the ledger has no bound that holds in every state. */
  lemma {:induction false} MonitorCallsAreNotBounded(n: nat)
    ensures Run(Calls(n)).pending.Size() == n
  {
    assert [] + Calls(n) == Calls(n);
    CallsPileUp([], n);
  }

  const WAKEUP := Frame(ToolCallKind, ToolCall("ScheduleWakeup", "", CallInput("", false, None, false, None)), "", 0)

  /** A wakeup that is scheduled again after 64 monitor calls or more is lost, though none of this has expired. */
  lemma {:induction false} WakeupIsLost(n: nat)
    requires n >= MAX_PENDING_BACKGROUND
    ensures WAKEUP_KEY in Run([Saw(WAKEUP)] + Calls(n)).pending.at
    ensures WAKEUP_KEY !in Run([Saw(WAKEUP)] + Calls(n) + [Saw(WAKEUP)]).pending.at
  {
    var first := [Saw(WAKEUP)];
    var inputs := first + Calls(n);
    AfterWakeup();
    CallsPileUp(first, n);
    RunKeeps(inputs);
    var all := inputs + [Saw(WAKEUP)];
    assert all[..|all| - 1] == inputs;
    RunSnoc(all);
    hide Run, Calls, CallKeys;
    var p := Run(inputs).pending;
    assert p.order == [WAKEUP_KEY] + CallKeys(n) && p.order[0] in p.order;
    BehindIs(p.order, 0);
    WakeupLaunches();
    hide BackgroundTask;
    LaunchIsKept(p, WAKEUP);
    hide Folded, Remaining;
  }

  lemma WakeupLaunches()
    ensures Launches(WAKEUP) && BackgroundTask(WAKEUP) == Some(Task(WAKEUP_KEY, "", Wakeup, 0, WAKEUP_SLACK_MS))
  {
    assert !WAKEUP.payload.input.persistent && forall tool :: tool in TASK_STOP_TOOLS ==> |tool| < 14;
  }

  lemma WakeupFolded()
    ensures
      var q: Pending := Table([WAKEUP_KEY], map[WAKEUP_KEY := Task(WAKEUP_KEY, "", Wakeup, 0, WAKEUP_SLACK_MS)]);
      Folded(Empty(), WAKEUP) == q && Inv(q) && NothingDue(q)
  {
    WakeupLaunches();
    hide BackgroundTask, Purged;
  }

  lemma AfterWakeup()
    ensures
      var p := Run([Saw(WAKEUP)]).pending;
      p.order == [WAKEUP_KEY] && NothingDue(p) && NoCalls(p)
  {
    assert [Saw(WAKEUP)][..0] == [];
    RunSnoc([Saw(WAKEUP)]);
    assert Run([]) == INITIAL;
    WakeupFolded();
    hide Folded, Purged, Run, Inv;
    NothingExpired(Folded(Empty(), WAKEUP), 0);
    assert WAKEUP_KEY[0] != MONITOR_CALL_PREFIX[0];
  }

  lemma NothingExpired(p: Pending, now: int)
    requires Inv(p) && forall k :: k in p.at ==> p.at[k].expiresAt > now
    ensures Purged(p, ExpiredBy(now)) == p
  {
    RemainingAll(p.order, p.at, now);
    hide Remaining, NoDup, Placed;
  }

  // ----- The ledger itself -----

  class Session {
    var activityState: Base
    var awaitingUser: bool
    var pendingBackground: Pending

    ghost function Abs(): State
      reads this
    {
      State(activityState, awaitingUser, pendingBackground)
    }

    ghost predicate Valid()
      reads this
    {
      Inv(pendingBackground)
    }

    constructor ()
      ensures Valid() && Abs() == INITIAL
    {
      activityState, awaitingUser, pendingBackground := AwaitingInput, false, Empty();
    }

    /** What an event changes here; recording it in the transcript is another matter. */
    method RecordEvent(f: Frame) returns (shown: Activity)
      requires Valid()
      modifies this
      ensures Valid() && Abs() == Step(old(Abs()), Saw(f))
      ensures shown == Effective(activityState, pendingBackground, awaitingUser, f.ts)
    {
      hide Inv, Folded, Purged;
      FoldedKeeps(pendingBackground, f);
      PurgedKeeps(Folded(pendingBackground, f), ExpiredBy(f.ts));
      activityState := NextActivityState(activityState, f);
      awaitingUser := NextAwaitingUser(awaitingUser, f.payload);
      UpdateBackgroundLedger(f);
      PruneTwice(pendingBackground, f.ts, f.ts);
      var _ := PrunePendingBackground(f.ts);
      shown := EffectiveActivityState(f.ts);
    }

    method UpdateBackgroundLedger(f: Frame)
      requires Valid()
      modifies `pendingBackground
      ensures pendingBackground == Folded(old(pendingBackground), f)
    {
      hide BackgroundTask, Launched, NoDup, Placed;
      if f.agentId != "" {
        return;
      }
      if f.payload.ToolCall? && f.payload.tool in TASK_STOP_TOOLS {
        DeleteWhere(NamedIn(f.payload.input.text));
        return;
      }
      if f.payload.UserPrompt? {
        if f.payload.note.None? {
          return;
        }
        var n := f.payload.note.value;
        if n.status !in TERMINAL_TASK_STATUSES {
          return;
        }
        DeletedKeeps(pendingBackground, n.taskId);
        pendingBackground := pendingBackground.Delete(n.taskId);
        if n.toolUseId != "" {
          DeleteWhere(UsedBy(n.toolUseId));
        }
        return;
      }
      if IsMonitorCall(f) {
        pendingBackground := pendingBackground.Set(MONITOR_CALL_PREFIX + f.payload.toolUseId, MonitorCall(f));
        return;
      }
      var launched := BackgroundTask(f);
      if launched.Some? {
        LaunchHasId(f);
        Launch(launched.value);
      }
    }

    method Launch(task: Task)
      requires Valid() && task.taskId != ""
      modifies `pendingBackground
      ensures pendingBackground == Launched(old(pendingBackground), task)
    {
      hide NoDup, Without;
      var launched := task;
      pendingBackground.DeleteWf(MONITOR_CALL_PREFIX + task.toolUseId);
      if launched.kind == Monitor && launched.toolUseId != "" {
        var callKey := MONITOR_CALL_PREFIX + launched.toolUseId;
        var provisional := pendingBackground.Get(callKey);
        if provisional.Some? {
          launched := launched.(startedAt := provisional.value.startedAt, expiresAt := provisional.value.expiresAt);
          pendingBackground := pendingBackground.Delete(callKey);
        }
      }
      pendingBackground.SetWf(launched.taskId, launched);
      pendingBackground := pendingBackground.Set(launched.taskId, launched);
      hide Placed;
      ghost var full := pendingBackground;
      while pendingBackground.Size() > MAX_PENDING_BACKGROUND
        invariant pendingBackground.Wf() && Evicted(pendingBackground) == Evicted(full)
        decreases pendingBackground.Size()
      {
        var oldest := pendingBackground.order[0];
        pendingBackground.DeleteWf(oldest);
        WithoutFirst(pendingBackground.order);
        assert oldest in pendingBackground.at by { assert oldest in pendingBackground.order; }
        pendingBackground := pendingBackground.Delete(oldest);
      }
    }

    /** The loop over the ledger that deletes what meets the criterion. */
    method DeleteWhere(c: Criterion)
      requires pendingBackground.Wf()
      modifies `pendingBackground
      ensures pendingBackground == Purged(old(pendingBackground), c)
    {
      hide Meets, NoDup;
      var p := pendingBackground;
      var order: seq<string>, at := [], p.at;
      ghost var done: set<string> := {};
      for j := 0 to |p.order|
        invariant order == Remaining(p.order[..j], p.at, c)
        invariant forall i :: 0 <= i < j ==> p.order[i] in done
        invariant forall k :: k in at <==> k in p.at && !(k in done && Meets(p.at[k], c))
        invariant forall k :: k in at ==> at[k] == p.at[k]
      {
        var k := p.order[j];
        assert k in p.order && p.order[..j + 1][..j] == p.order[..j];
        if Meets(p.at[k], c) {
          at := at - {k};
        } else {
          order := order + [k];
        }
        done := done + {k};
      }
      assert p.order[..|p.order|] == p.order;
      hide Remaining;
      assert forall k :: k in p.at ==> k in p.order && k in done;
      pendingBackground := Table(order, at);
    }

    method PrunePendingBackground(now: int) returns (tasks: seq<string>)
      requires Valid()
      modifies `pendingBackground
      ensures pendingBackground == Purged(old(pendingBackground), ExpiredBy(now)) && tasks == pendingBackground.order
      ensures Valid()
    {
      PurgedKeeps(pendingBackground, ExpiredBy(now));
      DeleteWhere(ExpiredBy(now));
      tasks := pendingBackground.order;
    }

    method EffectiveActivityState(now: int) returns (shown: Activity)
      requires Valid()
      modifies `pendingBackground
      ensures Valid() && Abs() == Reading(old(Abs()), now)
      ensures shown == Effective(activityState, old(pendingBackground), awaitingUser, now)
    {
      if activityState == Busy {
        return IsBusy;
      }
      if awaitingUser {
        return IsAwaitingInput;
      }
      var tasks := PrunePendingBackground(now);
      return if |tasks| > 0 then IsBackground else IsAwaitingInput;
    }
  }
}
