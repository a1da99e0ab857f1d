/**
 * What a mirrored session is shown as, and what a frame does to its background work (src/hub/mirror.ts), in every run,
 * told by the tasks before and after the frame.
 */
module LedgerRules {
  import opened JsMap
  import opened Ledger
  import opened Options

  // ----- What is shown -----

  ghost predicate Outstanding(p: Pending, now: int) {
    exists k :: k in p.at && p.at[k].expiresAt > now
  }

  lemma OutstandingIs(p: Pending, now: int)
    requires Inv(p)
    ensures Purged(p, ExpiredBy(now)).order != [] <==> Outstanding(p, now)
  {
    RemainingIs(p.order, p.at, ExpiredBy(now));
    var r := Remaining(p.order, p.at, ExpiredBy(now));
    hide Remaining, NoDup, Placed;
    if r != [] {
      assert r[0] in r;
    }
    if Outstanding(p, now) {
      var k :| k in p.at && p.at[k].expiresAt > now;
      assert k in r;
    }
  }

  /**
   * In every run: busy comes first; a session at a permission prompt is shown as awaiting input, whatever goes on in
   * the background; otherwise it is in the background exactly while some task has not expired.
   */
  lemma {:induction false} ShownIs(inputs: seq<Input>, now: int)
    ensures
      var s := Run(inputs);
      var shown := Effective(s.base, s.pending, s.awaitingUser, now);
      var busy := Since(inputs, MakesBusy, EndsTurn);
      var blocked := Since(inputs, AsksPermission, IsNoNotification);
      && (shown == IsBusy <==> busy)
      && (shown == IsAwaitingInput <==> !busy && (blocked || !Outstanding(s.pending, now)))
      && (shown == IsBackground <==> !busy && !blocked && Outstanding(s.pending, now))
  {
    BusyIff(inputs);
    BlockedIff(inputs);
    RunKeeps(inputs);
    hide Run, Since, Inv, Purged, Outstanding;
    OutstandingIs(Run(inputs).pending, now);
  }

  // ----- What launches background work -----

  /** The frame launches this task: five shapes, the first that fits, with the time at which each is given up. */
  predicate Declares(f: Frame, t: Task) {
    && t.startedAt == f.ts && t.taskId != ""
    && match f.payload
       case ToolCall(tool, use, input) =>
         && tool == "ScheduleWakeup" && !input.stop
         && t.taskId == "wakeup" && t.toolUseId == use && t.kind == Wakeup
         && t.expiresAt == f.ts + 300_000
                           + if input.delaySeconds.Some? && input.delaySeconds.value > 0
                             then input.delaySeconds.value * 1000 else 0
       case ToolResult(_, use, Some(r)) =>
         t.toolUseId == use && DeclaredBy(r, t) && t.expiresAt == f.ts + if t.kind == Monitor then 3_600_000
             else 21_600_000
       case _ => false
  }

  /** What a tool returns launches a command, an agent, a workflow or a monitor. */
  predicate DeclaredBy(r: Response, t: Task) {
    var other := r.backgroundTaskId == "";
    var launched := r.asyncLaunched && (r.agentId != "" || r.taskId != "");
    match t.kind
    case Command => t.taskId == r.backgroundTaskId
    case Agent => other && launched && t.taskId == r.agentId
    case Workflow => other && launched && r.agentId == "" && t.taskId == r.taskId
    case Monitor => other && !launched && r.persistent && t.taskId == r.taskId
    case Wakeup => false
  }

  lemma LaunchIs(f: Frame, t: Task)
    ensures BackgroundTask(f) == Some(t) <==> Declares(f, t)
  {
  }

  // ----- What a frame does to the ledger -----

  predicate StopsTasks(f: Frame) {
    f.payload.ToolCall? && f.payload.tool in {"TaskStop", "KillShell", "KillTask"}
  }

  /** The call of a persistent monitor stands for the monitor until its result names the task. */
  predicate DeclaresCall(f: Frame, k: string, t: Task) {
    && f.payload.ToolCall? && f.payload.tool == "Monitor" && f.payload.input.persistent
    && k == "monitor-call:" + f.payload.toolUseId
    && t.taskId == "" && t.toolUseId == f.payload.toolUseId && t.kind == Monitor && t.startedAt == f.ts
    && t.expiresAt == f.ts + if f.payload.input.timeoutMs.Some? && f.payload.input.timeoutMs.value > 0
                             then f.payload.input.timeoutMs.value else 3_600_000
  }

  /** The frame ends this task: stopped by a call that names it, or finished. */
  predicate Ends(f: Frame, k: string, t: Task) {
    || (StopsTasks(f) && t.taskId != "" && Includes(f.payload.input.text, t.taskId))
    || (&& f.payload.UserPrompt? && f.payload.note.Some?
        && f.payload.note.value.status in {"completed", "failed", "killed", "error", "timeout", "cancelled", "canceled"}
        && (k == f.payload.note.value.taskId
            || (f.payload.note.value.toolUseId != "" && t.toolUseId == f.payload.note.value.toolUseId)))
  }

  predicate LaunchesTask(f: Frame) {
    BackgroundTask(f).Some?
  }

  /**
   * Without a launch: a task is in the ledger after a frame of the session itself if it was called now, or not ended.
   */
  lemma EntryAfter(p: Pending, f: Frame, k: string, t: Task)
    requires Inv(p) && f.agentId == "" && !LaunchesTask(f)
    ensures (k in Folded(p, f).at && Folded(p, f).at[k] == t) <==>
              || DeclaresCall(f, k, t)
              || (k in p.at && p.at[k] == t && !Ends(f, k, t) && forall u :: !DeclaresCall(f, k, u))
  {
    hide NoDup, Without, Launched, Remaining, BackgroundTask, Includes;
    if IsMonitorCall(f) {
      assert DeclaresCall(f, MONITOR_CALL_PREFIX + f.payload.toolUseId, MonitorCall(f));
    }
  }

  /** The ledger's order once a launched task has its place: the call that it adopts is gone. */
  function OrderWith(order: seq<string>, adopted: Option<string>, id: string): seq<string> {
    var rest := if adopted.Some? then Without(order, adopted.value) else order;
    if id in rest then rest else rest + [id]
  }

  /** The call of the monitor that the launched task is, if it is still in the ledger. */
  function AdoptedBy(p: Pending, t: Task): Option<string> {
    if t.kind == Monitor && t.toolUseId != "" && "monitor-call:" + t.toolUseId in p.at
    then Some("monitor-call:" + t.toolUseId) else None
  }

  /** The launched task as it is kept: a monitor with the times that its call declared. */
  function KeptAs(p: Pending, t: Task): Task {
    var call := AdoptedBy(p, t);
    if call.Some? && call.value in p.at then
      t.(startedAt := p.at[call.value].startedAt, expiresAt := p.at[call.value].expiresAt)
    else t
  }

  /**
   * With a launch: a task is in the ledger afterwards if it is the launched one, or was there under another key and is
   * not the call that was adopted; but of all these only the last 64 stay.
   */
  lemma EntryAfterLaunch(p: Pending, f: Frame, launched: Task, k: string, t: Task)
    requires Inv(p) && f.agentId == "" && Declares(f, launched)
    ensures
      var id, call := launched.taskId, AdoptedBy(p, launched);
      (k in Folded(p, f).at && Folded(p, f).at[k] == t) <==>
        && (if k == id then t == KeptAs(p, launched) else k in p.at && p.at[k] == t && call != Some(k))
        && Behind(OrderWith(p.order, call, id), k) < 64
  {
    hide Folded, Evicted, Without, NoDup, BackgroundTask, Behind, Declares, Inv, Cleared, KeptAs, OrderWith, AdoptedBy;
    LaunchIs(f, launched);
    FoldedLaunch(p, f, launched);
    var q := Cleared(p, launched).Set(launched.taskId, KeptAs(p, launched));
    DeclaredHasId(f, launched);
    PutIs(p, launched);
    EvictedKeeps(q);
    if k in q.at {
      EvictedIff(q, k);
    }
  }

  lemma DeclaredHasId(f: Frame, t: Task)
    requires Declares(f, t)
    ensures t.taskId != ""
  {
  }

  /** The ledger once the launched task is put in, before any eviction. */
  lemma PutIs(p: Pending, t: Task)
    requires Inv(p) && t.taskId != ""
    ensures
      var q, call := Cleared(p, t).Set(t.taskId, KeptAs(p, t)), AdoptedBy(p, t);
      && Inv(q) && q.order == OrderWith(p.order, call, t.taskId)
      && forall k :: (k in q.at <==> k == t.taskId || (k in p.at && call != Some(k)))
                     && (k in q.at ==> q.at[k] == if k == t.taskId then KeptAs(p, t) else p.at[k])
  {
    hide NoDup, Without;
    p.DeleteWf(MONITOR_CALL_PREFIX + t.toolUseId);
    ClearedKeeps(p, t);
    SetKeeps(Cleared(p, t), KeptAs(p, t));
    InPlace(Cleared(p, t), t.taskId);
  }

  lemma ClearedKeeps(p: Pending, t: Task)
    requires Inv(p)
    ensures Inv(Cleared(p, t))
  {
    p.DeleteWf(MONITOR_CALL_PREFIX + t.toolUseId);
    hide NoDup, Without;
  }

  lemma InPlace(d: Pending, id: string)
    requires d.Wf()
    ensures id in d.order <==> id in d.at
  {
    hide NoDup;
  }

  lemma FoldedLaunch(p: Pending, f: Frame, t: Task)
    requires f.agentId == "" && BackgroundTask(f) == Some(t) && Declares(f, t)
    ensures Folded(p, f) == Evicted(Cleared(p, t).Set(t.taskId, KeptAs(p, t)))
  {
    hide Evicted, Without, BackgroundTask;
  }

  /** In every run a frame of the session itself leaves exactly the tasks that are so kept and have not expired. */
  lemma {:induction false} LedgerAfter(inputs: seq<Input>, f: Frame, k: string, t: Task)
    ensures
      var p, q := Run(inputs).pending, Run(inputs + [Saw(f)]).pending;
      Inv(p) && ((k in q.at && q.at[k] == t) <==> k in Folded(p, f).at && Folded(p, f).at[k] == t && t.expiresAt > f.ts)
  {
    assert (inputs + [Saw(f)])[..|inputs + [Saw(f)]| - 1] == inputs;
    RunKeeps(inputs);
    hide Folded, Remaining, Inv;
  }

  /** `s.includes(t)`: the text occurs somewhere. */
  lemma IncludesIff(s: string, t: string)
    ensures Includes(s, t) <==> exists a, b :: s == a + t + b
  {
    if Includes(s, t) {
      var i: nat :| i <= |s| && At(s, i, t);
      assert s == s[..i] + t + s[i + |t|..];
    }
    if a, b :| s == a + t + b {
      assert s[|a|..|a| + |t|] == t;
      assert At(s, |a|, t);
    }
  }

  /** In every run: a listing drops what has expired, and so does a reading, unless the session is busy or blocked. */
  lemma {:induction false} ReadingIs(inputs: seq<Input>, i: Input, k: string, t: Task)
    requires i.Read? || i.List?
    ensures
      var s, u := Run(inputs), Run(inputs + [i]);
      var prunes := i.List? || (s.base == AwaitingInput && !s.awaitingUser);
      && u.base == s.base && u.awaitingUser == s.awaitingUser
      && ((k in u.pending.at && u.pending.at[k] == t) <==>
          k in s.pending.at && s.pending.at[k] == t && (prunes ==> t.expiresAt > i.now))
  {
    assert (inputs + [i])[..|inputs + [i]| - 1] == inputs;
    hide Remaining;
  }
}
