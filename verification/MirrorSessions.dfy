/**
 * The store of mirrored sessions (src/hub/mirror.ts): sessions under composite keys, an index from session ids to
 * keys, closing with a retention timer, reopening, and dropping.
 */
module MirrorSessions {
  import opened Options
  import opened JsMap
  import opened Text
  import opened Timers

  /** `transcript` holds the ids of the frames kept. */
  datatype Entry = Entry(sid: string, host: string, ccPid: Option<int>, closed: bool, timer: Option<nat>,
                         transcript: seq<nat>)

  datatype Config = Config(retentionMs: int, transcriptRing: int)

  /**
   * Entries are objects: `sessions` and the timers refer to them by number. `nextUuid` is above all frame ids
   * that ever occurred, so that a frame made by the hub has a fresh one.
   */
  datatype State = State(sessions: Table<nat>, sidIndex: map<string, seq<string>>, entries: map<nat, Entry>,
                         timers: Runtime<nat>, nextEntry: nat, nextUuid: nat)

  const INITIAL := State(Empty(), map[], map[], Runtime(map[], 0), 0, 0)

  datatype Input =
    | Create(sid: string, host: string, ccPid: Option<int>, mtime: bool, now: int)
    | Record(sid: string, host: string, uuid: nat)
    | Close(sid: string, host: string, now: int)
    | Drop(sid: string, host: string, now: int)
    | Fire(timer: nat, now: int)

  // ----- Keys -----

  function CompositeKey(host: string, sid: string): string {
    host + "|" + sid
  }

  /** The host that a key seems to be of. */
  function KeyHost(key: string): string {
    var sep := IndexOf(key, '|');
    if sep >= 0 then key[..sep] else key
  }

  /** A key tells the host, and the session id, if and only if the host has no separator in it. */
  lemma KeyTells(host: string, sid: string)
    ensures
      var k := CompositeKey(host, sid);
      && (KeyHost(k) == host <==> '|' !in host)
      && ('|' !in host ==> IndexOf(k, '|') == |host| && k[|host| + 1..] == sid)
  {
    var k := CompositeKey(host, sid);
    assert k[|host|] == '|' && k[..|host|] == host && k[|host| + 1..] == sid;
    assert forall j :: 0 <= j < |host| ==> k[j] == host[j];
    if '|' in host {
      var j :| 0 <= j < |host| && host[j] == '|';
      assert IndexOf(k, '|') <= j;
    }
  }

  function KeysOf(s: State, sid: string): seq<string> {
    if sid in s.sidIndex then s.sidIndex[sid] else []
  }

  // ----- Maintaining both maps -----

  function EntrySet(s: State, id: nat, e: Entry): State {
    var key := CompositeKey(e.host, e.sid);
    var keys := KeysOf(s, e.sid);
    s.(sessions := s.sessions.Set(key, id), entries := s.entries[id := e],
       sidIndex := s.sidIndex[e.sid := if key in keys then keys else keys + [key]])
  }

  function EntryDeleted(s: State, e: Entry): State {
    var key := CompositeKey(e.host, e.sid);
    s.(sessions := s.sessions.Delete(key),
       sidIndex := if e.sid !in s.sidIndex then s.sidIndex
                   else if Without(s.sidIndex[e.sid], key) == [] then s.sidIndex - {e.sid}
                   else s.sidIndex[e.sid := Without(s.sidIndex[e.sid], key)])
  }

  function EntryByKey(s: State, host: string, sid: string): Option<nat> {
    s.sessions.Get(CompositeKey(host, sid))
  }

  function EntryBySid(s: State, sid: string): Option<nat> {
    if |KeysOf(s, sid)| != 1 then None else s.sessions.Get(KeysOf(s, sid)[0])
  }

  /** An empty host is no hint. */
  function ResolveEntry(s: State, sid: string, host: string): Option<nat> {
    if host != "" then EntryByKey(s, host, sid) else EntryBySid(s, sid)
  }

  datatype Lookup = Found(id: nat) | NotFound | Conflict(hosts: seq<string>)

  function HostsOf(keys: seq<string>): seq<string> {
    if keys == [] then []
    else
      var k := keys[|keys| - 1];
      HostsOf(keys[..|keys| - 1]) + if IndexOf(k, '|') > 0 then [k[..IndexOf(k, '|')]] else []
  }

  function ResolveSidLookup(s: State, sid: string, host: string): Lookup {
    if host != "" then (if EntryByKey(s, host, sid).Some? then Found(EntryByKey(s, host, sid).value) else NotFound)
    else if |KeysOf(s, sid)| == 0 then NotFound
    else if |KeysOf(s, sid)| == 1 then (if EntryBySid(s, sid).Some? then Found(EntryBySid(s, sid).value) else NotFound)
    else Conflict(HostsOf(KeysOf(s, sid)))
  }

  // ----- Closing, dropping, recording -----

  /** Closing appends an end frame and arms the retention timer, or drops the entry at once. */
  function Ended(c: Config, s: State, id: nat, now: int): State
    requires id in s.entries
  {
    var e := s.entries[id].(closed := true, transcript := s.entries[id].transcript + [s.nextUuid]);
    var s := s.(nextUuid := s.nextUuid + 1);
    if c.retentionMs > 0 then
      s.(entries := s.entries[id := e.(timer := Some(s.timers.next))], timers := s.timers.Arm(id, now, c.retentionMs))
    else EntryDeleted(s.(entries := s.entries[id := e]), e)
  }

  function Closing(c: Config, s: State, sid: string, host: string, now: int): State {
    var id := ResolveEntry(s, sid, host);
    if id.None? || id.value !in s.entries || s.entries[id.value].closed then s else Ended(c, s, id.value, now)
  }

  /** Closed without waiting for the retention timer. */
  function Dropping(c: Config, s: State, sid: string, host: string, now: int): State {
    var id := ResolveEntry(s, sid, host);
    var s := Closing(c, s, sid, host, now);
    if id.None? || id.value !in s.entries then s
    else
      var e := s.entries[id.value];
      var s := if e.timer.Some? then
                 s.(timers := s.timers.Disarm(e.timer.value), entries := s.entries[id.value := e.(timer := None)])
               else s;
      EntryDeleted(s, e)
  }

  function Trimmed(c: Config, transcript: seq<nat>): seq<nat> {
    if |transcript| <= c.transcriptRing then transcript
    else if c.transcriptRing <= 0 then []
    else transcript[|transcript| - c.transcriptRing..]
  }

  function Above(a: nat, b: nat): nat {
    if a <= b then b + 1 else a
  }

  /** A frame that is already in the transcript is not recorded again. */
  function Recorded(c: Config, s: State, sid: string, host: string, uuid: nat): State {
    var id := ResolveEntry(s, sid, host);
    if id.None? || id.value !in s.entries || s.entries[id.value].closed || uuid in s.entries[id.value].transcript then s
    else
      var e := s.entries[id.value];
      s.(entries := s.entries[id.value := e.(transcript := Trimmed(c, e.transcript + [uuid]))],
         nextUuid := Above(s.nextUuid, uuid))
  }

  /** The retention timer of an entry fires. */
  function Expired(s: State, t: nat, now: int): State {
    if !s.timers.CanFire(t, now) || s.timers.armed[t].owner !in s.entries then s
    else EntryDeleted(s.(timers := s.timers.Disarm(t)), s.entries[s.timers.armed[t].owner])
  }

  // ----- Creating -----

  /** A newest-mtime guess from another process is no reason to reopen a closed session. */
  predicate Refuses(e: Entry, ccPid: Option<int>, mtime: bool) {
    e.closed && mtime && ccPid.Some? && e.ccPid.Some? && ccPid != e.ccPid
  }

  /** The session is there already: it is reopened if it was closed, and takes on the announced identity. */
  function Restored(s: State, id: nat, host: string, ccPid: Option<int>): State
    requires id in s.entries
  {
    var e := s.entries[id];
    var timers := if e.closed && e.timer.Some? then s.timers.Disarm(e.timer.value) else s.timers;
    var e := if e.closed then e.(closed := false, timer := None) else e;
    var e := if host != "" then e.(host := host) else e;
    s.(timers := timers, entries := s.entries[id := e.(ccPid := if ccPid.Some? then ccPid else e.ccPid)])
  }

  /** Open entries of the same process that never saw an event, under other session ids. */
  predicate IsZombie(e: Entry, sid: string, host: string, ccPid: Option<int>) {
    !e.closed && e.sid != sid && e.host == host && e.ccPid == ccPid && e.transcript == []
  }

  function Zombies(s: State, keys: seq<string>, sid: string, host: string, ccPid: Option<int>): seq<string> {
    if keys == [] then []
    else
      var k := keys[|keys| - 1];
      Zombies(s, keys[..|keys| - 1], sid, host, ccPid)
      + if k in s.sessions.at && s.sessions.at[k] in s.entries
           && IsZombie(s.entries[s.sessions.at[k]], sid, host, ccPid)
        then [s.entries[s.sessions.at[k]].sid] else []
  }

  /** The zombies are dropped by session id alone; an ambiguous id is left as it is. */
  function Swept(c: Config, s: State, sids: seq<string>, now: int): State {
    if sids == [] then s else Dropping(c, Swept(c, s, sids[..|sids| - 1], now), sids[|sids| - 1], "", now)
  }

  function Created(c: Config, s: State, sid: string, host: string, ccPid: Option<int>, mtime: bool, now: int): State {
    var id := ResolveEntry(s, sid, host);
    if id.Some? && id.value in s.entries then
      if Refuses(s.entries[id.value], ccPid, mtime) then s else Restored(s, id.value, host, ccPid)
    else
      var sids := Zombies(s, s.sessions.order, sid, host, ccPid);
      var s := if host != "" && ccPid.Some? then Swept(c, s, sids, now) else s;
      EntrySet(s, s.nextEntry, Entry(sid, host, ccPid, false, None, [])).(nextEntry := s.nextEntry + 1)
  }

  function Step(c: Config, s: State, i: Input): State {
    match i
    case Create(sid, host, ccPid, mtime, now) => Created(c, s, sid, host, ccPid, mtime, now)
    case Record(sid, host, uuid) => Recorded(c, s, sid, host, uuid)
    case Close(sid, host, now) => Closing(c, s, sid, host, now)
    case Drop(sid, host, now) => Dropping(c, s, sid, host, now)
    case Fire(t, now) => Expired(s, t, now)
  }

  function Run(c: Config, inputs: seq<Input>): State {
    if inputs == [] then INITIAL else Step(c, Run(c, inputs[..|inputs| - 1]), inputs[|inputs| - 1])
  }

  // ----- What runs keep -----

  /** Each key is that of its entry. */
  ghost predicate KeysAgree(sessions: map<string, nat>, entries: map<nat, Entry>) {
    forall k :: k in sessions ==>
      sessions[k] in entries && k == CompositeKey(entries[sessions[k]].host, entries[sessions[k]].sid)
  }

  ghost predicate Carries(sessions: map<string, nat>, entries: map<nat, Entry>, k: string, sid: string) {
    k in sessions && sessions[k] in entries && entries[sessions[k]].sid == sid
  }

  /** The index has, for each session id, exactly the keys of the entries with it, and no empty sets. */
  ghost predicate IndexExact(s: State) {
    && (forall sid :: sid in s.sidIndex ==> s.sidIndex[sid] != [] && NoDup(s.sidIndex[sid]))
    && forall sid, k :: k in KeysOf(s, sid) <==> Carries(s.sessions.at, s.entries, k, sid)
  }

  /** The entry is the one stored under its key. */
  ghost predicate IsStored(sessions: map<string, nat>, entries: map<nat, Entry>, id: nat) {
    id in entries && CompositeKey(entries[id].host, entries[id].sid) in sessions
    && sessions[CompositeKey(entries[id].host, entries[id].sid)] == id
  }

  /** An entry is closed just when its retention timer is armed. */
  ghost predicate EntryTimed(c: Config, id: nat, e: Entry, armed: map<nat, Timer<nat>>) {
    && (e.closed <==> e.timer.Some?)
    && (e.timer.Some? ==> e.timer.value in armed && armed[e.timer.value].owner == id)
    && (c.retentionMs <= 0 ==> !e.closed)
  }

  ghost predicate TimerOwned(sessions: map<string, nat>, entries: map<nat, Entry>, t: nat, owner: nat) {
    IsStored(sessions, entries, owner) && entries[owner].timer == Some(t)
  }

  /** Every stored entry has its timer armed if it is closed, and no other timer is armed. */
  ghost predicate TimersMatch(c: Config, sessions: map<string, nat>, entries: map<nat, Entry>, timers: Runtime<nat>) {
    && (forall id :: IsStored(sessions, entries, id) ==> EntryTimed(c, id, entries[id], timers.armed))
    && (forall t :: t in timers.armed ==> t < timers.next && TimerOwned(sessions, entries, t, timers.armed[t].owner))
  }

  ghost predicate Distinct(transcript: seq<nat>, nextUuid: nat) {
    && (forall i, j :: 0 <= i < j < |transcript| ==> transcript[i] != transcript[j])
    && forall u :: u in transcript ==> u < nextUuid
  }

  ghost predicate Inv(c: Config, s: State) {
    && s.sessions.Wf() && KeysAgree(s.sessions.at, s.entries) && IndexExact(s)
    && TimersMatch(c, s.sessions.at, s.entries, s.timers)
  }

  // ----- Changes to one entry, and to the two maps -----

  ghost predicate SameName(a: Entry, b: Entry) {
    a.sid == b.sid && a.host == b.host
  }

  /** Neither map notices a change to an entry that keeps its host and session id. */
  lemma UpdateKeepsIndex(s: State, t: State, id: nat)
    requires KeysAgree(s.sessions.at, s.entries) && IndexExact(s) && id in s.entries && id in t.entries
    requires t.entries == s.entries[id := t.entries[id]] && SameName(t.entries[id], s.entries[id])
    requires t.sessions == s.sessions && t.sidIndex == s.sidIndex
    ensures KeysAgree(t.sessions.at, t.entries) && IndexExact(t)
  {
    hide NoDup;
    forall sid, k
      ensures Carries(t.sessions.at, t.entries, k, sid) <==> Carries(s.sessions.at, s.entries, k, sid)
    {
    }
    hide Carries;
  }

  /** An entry may take the place of another one with its host and session id. */
  lemma {:induction false} SetKeepsIndex(s: State, id: nat, e: Entry)
    requires KeysAgree(s.sessions.at, s.entries) && IndexExact(s) && id !in s.entries
    ensures
      var t, key := EntrySet(s, id, e), CompositeKey(e.host, e.sid);
      && KeysAgree(t.sessions.at, t.entries)
      && (IndexExact(t) <==> (key in s.sessions.at ==> s.entries[s.sessions.at[key]].sid == e.sid))
  {
    var t, key := EntrySet(s, id, e), CompositeKey(e.host, e.sid);
    hide CompositeKey;
    if key in s.sessions.at && s.entries[s.sessions.at[key]].sid != e.sid {
      var other := s.entries[s.sessions.at[key]].sid;
      assert Carries(s.sessions.at, s.entries, key, other) && !Carries(t.sessions.at, t.entries, key, other);
      assert key in KeysOf(s, other) && KeysOf(t, other) == KeysOf(s, other);
    } else {
      SetSameIndex(s, id, e);
    }
    hide IndexExact;
  }

  lemma {:induction false} SetSameIndex(s: State, id: nat, e: Entry)
    requires KeysAgree(s.sessions.at, s.entries) && IndexExact(s) && id !in s.entries
    requires var key := CompositeKey(e.host, e.sid); key in s.sessions.at ==> s.entries[s.sessions.at[key]].sid == e.sid
    ensures IndexExact(EntrySet(s, id, e))
  {
    var t, key := EntrySet(s, id, e), CompositeKey(e.host, e.sid);
    hide CompositeKey;
    assert Carries(s.sessions.at, s.entries, key, e.sid) <==> key in s.sessions.at;
    if e.sid in s.sidIndex && key !in s.sidIndex[e.sid] {
      NoDupAppend(s.sidIndex[e.sid], key);
    }
    forall sid, k
      ensures Carries(t.sessions.at, t.entries, k, sid) <==>
              Carries(s.sessions.at, s.entries, k, sid) || (k == key && sid == e.sid)
    {
    }
    hide NoDup, Carries;
  }

  lemma DeleteKeepsIndex(s: State, id: nat, e: Entry)
    requires KeysAgree(s.sessions.at, s.entries) && IndexExact(s)
    requires IsStored(s.sessions.at, s.entries, id) && SameName(s.entries[id], e)
    ensures
      var t := EntryDeleted(s, e);
      KeysAgree(t.sessions.at, t.entries) && IndexExact(t)
  {
    var t, key := EntryDeleted(s, e), CompositeKey(e.host, e.sid);
    hide CompositeKey;
    if e.sid in s.sidIndex {
      WithoutMembers(s.sidIndex[e.sid], key);
      WithoutNoDup(s.sidIndex[e.sid], key);
    }
    hide Without, NoDup;
    forall sid, k
      ensures Carries(t.sessions.at, t.entries, k, sid) <==> Carries(s.sessions.at, s.entries, k, sid) && k != key
    {
    }
    forall sid, k
      ensures k in KeysOf(t, sid) <==> k in KeysOf(s, sid) && k != key
    {
      assert k == key && k in KeysOf(s, sid) ==> Carries(s.sessions.at, s.entries, key, sid);
    }
    hide Carries;
  }

  /** Deleting what is not there changes nothing. */
  lemma DeleteAbsent(s: State, e: Entry)
    requires s.sessions.Wf() && IndexExact(s) && CompositeKey(e.host, e.sid) !in s.sessions.at
    ensures EntryDeleted(s, e) == s
  {
    var key := CompositeKey(e.host, e.sid);
    hide CompositeKey, NoDup;
    s.sessions.DeleteWf(key);
    assert !Carries(s.sessions.at, s.entries, key, e.sid);
    assert key !in KeysOf(s, e.sid);
    hide IndexExact, Carries;
    if e.sid in s.sidIndex {
      WithoutAbsent(s.sidIndex[e.sid], key);
    }
    hide Without;
    if e.sid in s.sidIndex {
      assert s.sidIndex[e.sid := s.sidIndex[e.sid]] == s.sidIndex;
      assert e.sid in s.sidIndex && s.sidIndex[e.sid] != [] by { NotEmpty(s, e.sid); }
    }
  }

  lemma NotEmpty(s: State, sid: string)
    requires IndexExact(s) && sid in s.sidIndex
    ensures s.sidIndex[sid] != []
  {
  }

  // ----- Timers -----

  function Silenced(timers: Runtime<nat>, e: Entry): Runtime<nat> {
    if e.timer.Some? then timers.Disarm(e.timer.value) else timers
  }

  /** An entry goes, and its timer with it. */
  lemma DeleteKeepsTimers(c: Config, sessions: map<string, nat>, a: map<nat, Entry>, b: map<nat, Entry>,
                          timers: Runtime<nat>, id: nat)
    requires TimersMatch(c, sessions, a, timers) && KeysAgree(sessions, a) && IsStored(sessions, a, id)
    requires id in b && b == a[id := b[id]] && SameName(a[id], b[id])
    ensures TimersMatch(c, sessions - {CompositeKey(a[id].host, a[id].sid)}, b, Silenced(timers, a[id]))
  {
    hide CompositeKey;
    var key := CompositeKey(a[id].host, a[id].sid);
    forall k | k in b && k != id
      ensures IsStored(sessions - {key}, b, k) <==> IsStored(sessions, a, k)
    {
    }
    assert !IsStored(sessions - {key}, b, id);
    hide IsStored;
  }

  /** The timers change, but only those of one entry, from `was` to `now`. */
  ghost predicate OneRearmed(timers: Runtime<nat>, after: Runtime<nat>, id: nat, was: Option<nat>, now: Option<nat>) {
    && timers.next <= after.next
    && (forall t: nat :: was != Some(t) && now != Some(t) ==>
          (t in after.armed <==> t in timers.armed) && (t in timers.armed ==> after.armed[t] == timers.armed[t]))
    && (was.Some? && was != now ==> was.value !in after.armed)
    && (now.Some? ==> now.value < after.next && now.value in after.armed && after.armed[now.value].owner == id)
    && (now.Some? && was != now ==> now.value !in timers.armed)
  }

  /** An entry changes, and its timer with it. */
  lemma {:induction false} UpdateKeepsTimers(c: Config, sessions: map<string, nat>, a: map<nat, Entry>,
                                             b: map<nat, Entry>, timers: Runtime<nat>, after: Runtime<nat>, id: nat)
    requires TimersMatch(c, sessions, a, timers) && IsStored(sessions, a, id)
    requires id in b && b == a[id := b[id]] && SameName(a[id], b[id])
    requires b[id].closed <==> b[id].timer.Some?
    requires c.retentionMs <= 0 ==> !b[id].closed
    requires OneRearmed(timers, after, id, a[id].timer, b[id].timer)
    ensures TimersMatch(c, sessions, b, after)
  {
    hide CompositeKey;
    forall k | k in b
      ensures IsStored(sessions, b, k) <==> IsStored(sessions, a, k)
    {
    }
    hide IsStored;
    forall k | IsStored(sessions, b, k) && k != id
      ensures EntryTimed(c, k, b[k], after.armed)
    {
      OtherEntryTimed(c, k, a[k], timers, after, id, a[id].timer, b[id].timer);
    }
    assert EntryTimed(c, id, b[id], after.armed);
    hide EntryTimed;
  }

  /** The timer of another entry stays. */
  lemma {:induction false} OtherEntryTimed(c: Config, k: nat, e: Entry, timers: Runtime<nat>, after: Runtime<nat>,
                                           id: nat, was: Option<nat>, now: Option<nat>)
    requires EntryTimed(c, k, e, timers.armed) && k != id && OneRearmed(timers, after, id, was, now)
    requires was.Some? ==> was.value in timers.armed && timers.armed[was.value].owner == id
    ensures EntryTimed(c, k, e, after.armed)
  {
  }

  // ----- Single entries -----

  ghost predicate AllDistinct(s: State) {
    forall id :: id in s.entries ==> id < s.nextEntry && Distinct(s.entries[id].transcript, s.nextUuid)
  }

  lemma DistinctMore(transcript: seq<nat>, nextUuid: nat, uuid: nat)
    requires Distinct(transcript, nextUuid) && uuid !in transcript
    ensures Distinct(transcript + [uuid], Above(nextUuid, uuid))
    ensures Distinct(transcript, Above(nextUuid, uuid))
  {
    var t := transcript + [uuid];
    assert forall i :: 0 <= i < |transcript| ==> t[i] == transcript[i] && t[i] in transcript;
    assert t[|transcript|] == uuid;
    forall u | u in t
      ensures u < Above(nextUuid, uuid)
    {
      assert u in transcript || u == uuid;
    }
    forall i, j | 0 <= i < j < |t|
      ensures t[i] != t[j]
    {
      if j == |transcript| {
        assert t[i] in transcript;
      } else {
        assert t[j] == transcript[j] && t[i] == transcript[i];
      }
    }
  }

  lemma DistinctTrimmed(c: Config, transcript: seq<nat>, nextUuid: nat)
    requires Distinct(transcript, nextUuid)
    ensures Distinct(Trimmed(c, transcript), nextUuid)
  {
    var t := Trimmed(c, transcript);
    assert forall i :: 0 <= i < |t| ==> t[i] == transcript[|transcript| - |t| + i];
    assert forall u :: u in t ==> u in transcript;
  }

  /** An entry was left alone, or it was closed and got an end frame with a fresh id. */
  ghost predicate Moved(e: Entry, f: Entry, from: nat, to: nat) {
    && SameName(e, f) && (e.closed ==> f.closed)
    && if e.closed == f.closed then f.transcript == e.transcript
       else exists uuid: nat :: from <= uuid < to && f.transcript == e.transcript + [uuid]
  }

  /** No entry and no key is new, and all entries were left alone or closed. */
  ghost predicate AllMoved(s: State, t: State) {
    && s.nextUuid <= t.nextUuid && t.nextEntry == s.nextEntry && t.sessions.at.Keys <= s.sessions.at.Keys
    && t.entries.Keys == s.entries.Keys
    && forall id :: id in s.entries ==> Moved(s.entries[id], t.entries[id], s.nextUuid, t.nextUuid)
  }

  lemma MovedTwice(s: State, t: State, u: State)
    requires AllMoved(s, t) && AllMoved(t, u)
    ensures AllMoved(s, u)
  {
    forall id | id in s.entries
      ensures Moved(s.entries[id], u.entries[id], s.nextUuid, u.nextUuid)
    {
      assert Moved(s.entries[id], t.entries[id], s.nextUuid, t.nextUuid);
      assert Moved(t.entries[id], u.entries[id], t.nextUuid, u.nextUuid);
    }
  }

  lemma ClosingMoves(c: Config, s: State, sid: string, host: string, now: int)
    ensures AllMoved(s, Closing(c, s, sid, host, now))
  {
    hide Without, CompositeKey, ResolveEntry;
  }

  lemma DroppingMoves(c: Config, s: State, sid: string, host: string, now: int)
    ensures AllMoved(s, Dropping(c, s, sid, host, now))
  {
    ClosingMoves(c, s, sid, host, now);
    var t := Closing(c, s, sid, host, now);
    hide Closing, Without, CompositeKey, ResolveEntry;
    assert AllMoved(t, Dropping(c, s, sid, host, now));
    MovedTwice(s, t, Dropping(c, s, sid, host, now));
  }

  lemma {:induction false} SweptMoves(c: Config, s: State, sids: seq<string>, now: int)
    ensures AllMoved(s, Swept(c, s, sids, now))
  {
    hide Dropping;
    if sids != [] {
      var t := Swept(c, s, sids[..|sids| - 1], now);
      SweptMoves(c, s, sids[..|sids| - 1], now);
      DroppingMoves(c, t, sids[|sids| - 1], "", now);
      hide AllMoved;
      MovedTwice(s, t, Swept(c, s, sids, now));
    }
  }

  lemma ExpiredMoves(s: State, t: nat, now: int)
    ensures AllMoved(s, Expired(s, t, now))
  {
    hide Without, CompositeKey;
  }

  /** The step adds a frame to the transcript of the entry. */
  predicate Records(s: State, i: Input, id: nat) {
    && i.Record? && ResolveEntry(s, i.sid, i.host) == Some(id) && id in s.entries && !s.entries[id].closed
    && i.uuid !in s.entries[id].transcript
  }

  /** What a step does to an entry that was there. */
  ghost predicate Evolved(c: Config, s: State, i: Input, id: nat, t: State)
    requires id in s.entries
  {
    && s.nextUuid <= t.nextUuid && id in t.entries
    && var e, f := s.entries[id], t.entries[id];
       if Records(s, i, id) then
         && f.closed == e.closed && f.transcript == Trimmed(c, e.transcript + [i.uuid])
         && t.nextUuid == Above(s.nextUuid, i.uuid)
       else if !e.closed && f.closed then
         exists uuid: nat :: s.nextUuid <= uuid < t.nextUuid && f.transcript == e.transcript + [uuid]
       else f.transcript == e.transcript
  }

  lemma MovedEvolves(c: Config, s: State, i: Input, id: nat, t: State)
    requires AllMoved(s, t) && id in s.entries && !i.Record?
    ensures Evolved(c, s, i, id, t)
  {
    assert Moved(s.entries[id], t.entries[id], s.nextUuid, t.nextUuid);
    hide ResolveEntry, Trimmed;
  }

  /** All entries evolved, and any other one is new and empty. */
  ghost predicate AllEvolved(c: Config, s: State, i: Input, t: State) {
    && (forall id :: id in s.entries ==> Evolved(c, s, i, id, t))
    && s.nextEntry <= t.nextEntry && s.nextUuid <= t.nextUuid
    && forall id :: id in t.entries && id !in s.entries ==> id < t.nextEntry && t.entries[id].transcript == []
  }

  lemma {:induction false} StepEvolves(c: Config, s: State, i: Input)
    requires s.nextEntry !in s.entries
    ensures AllEvolved(c, s, i, Step(c, s, i))
  {
    hide Created, Recorded, Dropping, Closing, Expired, AllEvolved, AllMoved;
    var t := Step(c, s, i);
    match i
    case Create(_, _, _, _, _) => CreatedEvolves(c, s, i);
    case Record(_, _, _) => RecordedEvolves(c, s, i);
    case Close(sid, host, now) =>
      ClosingMoves(c, s, sid, host, now);
      AllMovedEvolve(c, s, i, t);
    case Drop(sid, host, now) =>
      DroppingMoves(c, s, sid, host, now);
      AllMovedEvolve(c, s, i, t);
    case Fire(timer, now) =>
      ExpiredMoves(s, timer, now);
      AllMovedEvolve(c, s, i, t);
  }

  lemma {:induction false} CreatedEvolves(c: Config, s: State, i: Input)
    requires i.Create? && s.nextEntry !in s.entries
    ensures AllEvolved(c, s, i, Created(c, s, i.sid, i.host, i.ccPid, i.mtime, i.now))
  {
    hide Swept, Zombies, CompositeKey, ResolveEntry, Refuses, Trimmed, AllMoved;
    var sids := Zombies(s, s.sessions.order, i.sid, i.host, i.ccPid);
    SweptMoves(c, s, sids, i.now);
    NothingMoves(s);
    var mid := if i.host != "" && i.ccPid.Some? then Swept(c, s, sids, i.now) else s;
    AllMovedEvolve(c, s, i, mid);
    AddedEvolves(c, s, i, mid);
    var id := ResolveEntry(s, i.sid, i.host);
    if id.Some? && id.value in s.entries {
      RestoredEvolves(c, s, i, id.value);
      AllMovedEvolve(c, s, i, s);
    }
    hide AllEvolved, EntrySet, Restored;
  }

  lemma AddedEvolves(c: Config, s: State, i: Input, mid: State)
    requires i.Create? && AllEvolved(c, s, i, mid) && s.nextEntry !in s.entries
    requires mid.entries.Keys == s.entries.Keys && mid.nextEntry == s.nextEntry
    ensures
      var t := EntrySet(mid, mid.nextEntry, Entry(i.sid, i.host, i.ccPid, false, None, []));
      AllEvolved(c, s, i, t.(nextEntry := mid.nextEntry + 1))
  {
    hide CompositeKey, ResolveEntry, Trimmed;
  }

  lemma RestoredEvolves(c: Config, s: State, i: Input, id: nat)
    requires i.Create? && id in s.entries
    ensures AllEvolved(c, s, i, Restored(s, id, i.host, i.ccPid))
  {
    hide ResolveEntry, Trimmed;
  }

  lemma {:induction false} RecordedEvolves(c: Config, s: State, i: Input)
    requires i.Record?
    ensures AllEvolved(c, s, i, Recorded(c, s, i.sid, i.host, i.uuid))
  {
    hide CompositeKey, ResolveEntry, Trimmed;
  }

  lemma AllMovedEvolve(c: Config, s: State, i: Input, t: State)
    requires AllMoved(s, t) && !i.Record?
    ensures AllEvolved(c, s, i, t) && t.entries.Keys == s.entries.Keys && t.nextEntry == s.nextEntry
  {
    forall id | id in s.entries
      ensures Evolved(c, s, i, id, t)
    {
      MovedEvolves(c, s, i, id, t);
    }
  }

  lemma NothingMoves(s: State)
    ensures AllMoved(s, s)
  {
  }

  lemma EvolvedDistinct(c: Config, s: State, i: Input, id: nat, t: State)
    requires id in s.entries && Evolved(c, s, i, id, t) && Distinct(s.entries[id].transcript, s.nextUuid)
    ensures Distinct(t.entries[id].transcript, t.nextUuid)
  {
    var e, f := s.entries[id], t.entries[id];
    hide ResolveEntry, Trimmed;
    if Records(s, i, id) {
      DistinctMore(e.transcript, s.nextUuid, i.uuid);
      DistinctTrimmed(c, e.transcript + [i.uuid], t.nextUuid);
    } else if !e.closed && f.closed {
      var uuid: nat :| s.nextUuid <= uuid < t.nextUuid && f.transcript == e.transcript + [uuid];
      DistinctMore(e.transcript, s.nextUuid, uuid);
    }
  }

  lemma {:induction false} StepDistinct(c: Config, s: State, i: Input)
    requires AllDistinct(s)
    ensures AllDistinct(Step(c, s, i))
  {
    StepEvolves(c, s, i);
    var t := Step(c, s, i);
    hide Step, Distinct, Evolved;
    assert Distinct([], t.nextUuid) by { NoFrames(t.nextUuid); }
    forall id | id in t.entries
      ensures id < t.nextEntry && Distinct(t.entries[id].transcript, t.nextUuid)
    {
      if id in s.entries {
        EvolvedDistinct(c, s, i, id, t);
      }
    }
  }

  lemma NoFrames(nextUuid: nat)
    ensures Distinct([], nextUuid)
  {
  }

  lemma {:induction false} RunDistinct(c: Config, inputs: seq<Input>)
    ensures AllDistinct(Run(c, inputs))
  {
    hide Step;
    if inputs != [] {
      hide AllDistinct;
      RunDistinct(c, inputs[..|inputs| - 1]);
      StepDistinct(c, Run(c, inputs[..|inputs| - 1]), inputs[|inputs| - 1]);
    }
  }

  // ----- Each operation keeps everything -----

  lemma ResolvedIsStored(c: Config, s: State, sid: string, host: string)
    requires Inv(c, s)
    ensures
      var id := ResolveEntry(s, sid, host);
      id.Some? ==> IsStored(s.sessions.at, s.entries, id.value) && (host == "" ==> s.entries[id.value].sid == sid)
  {
    hide NoDup, TimersMatch;
    if host == "" && |KeysOf(s, sid)| == 1 {
      assert KeysOf(s, sid)[0] in KeysOf(s, sid);
    }
  }

  lemma EndedKeeps(c: Config, s: State, id: nat, now: int)
    requires Inv(c, s) && IsStored(s.sessions.at, s.entries, id) && !s.entries[id].closed
    ensures Inv(c, Ended(c, s, id, now))
  {
    hide NoDup, CompositeKey, KeysAgree, IndexExact;
    var e := s.entries[id].(closed := true, transcript := s.entries[id].transcript + [s.nextUuid]);
    var u := s.(nextUuid := s.nextUuid + 1, entries := s.entries[id := e]);
    var t := Ended(c, s, id, now);
    if c.retentionMs > 0 {
      UpdateKeepsIndex(s, t, id);
      UpdateKeepsTimers(c, s.sessions.at, s.entries, t.entries, s.timers, t.timers, id);
    } else {
      UpdateKeepsIndex(s, u, id);
      DeleteKeepsIndex(u, id, e);
      DeleteKeepsTimers(c, s.sessions.at, s.entries, u.entries, s.timers, id);
      s.sessions.DeleteWf(CompositeKey(e.host, e.sid));
      hide TimersMatch, Without;
    }
  }

  lemma ClosingKeeps(c: Config, s: State, sid: string, host: string, now: int)
    requires Inv(c, s)
    ensures Inv(c, Closing(c, s, sid, host, now))
  {
    hide Inv, ResolveEntry, Ended, IsStored;
    ResolvedIsStored(c, s, sid, host);
    var id := ResolveEntry(s, sid, host);
    if id.Some? && id.value in s.entries && !s.entries[id.value].closed {
      EndedKeeps(c, s, id.value, now);
    }
  }

  /** A closed entry is either still stored, or gone and without a timer. */
  lemma EndedLeaves(c: Config, s: State, id: nat, now: int)
    requires Inv(c, s) && IsStored(s.sessions.at, s.entries, id) && !s.entries[id].closed
    ensures
      var t := Ended(c, s, id, now);
      && id in t.entries && SameName(t.entries[id], s.entries[id])
      && (IsStored(t.sessions.at, t.entries, id)
          || (CompositeKey(t.entries[id].host, t.entries[id].sid) !in t.sessions.at && t.entries[id].timer.None?))
  {
    hide NoDup, CompositeKey, KeysAgree, IndexExact, Without;
  }

  /** A stored entry goes, and its timer with it. */
  lemma RemovedKeeps(c: Config, s: State, id: nat)
    requires Inv(c, s) && IsStored(s.sessions.at, s.entries, id)
    ensures
      var e := s.entries[id];
      var u := s.(timers := Silenced(s.timers, e), entries := s.entries[id := e.(timer := None)]);
      Inv(c, EntryDeleted(u, e)) && Inv(c, EntryDeleted(s.(timers := Silenced(s.timers, e)), e))
  {
    hide NoDup, CompositeKey, KeysAgree, IndexExact;
    var e := s.entries[id];
    var u := s.(timers := Silenced(s.timers, e), entries := s.entries[id := e.(timer := None)]);
    var v := s.(timers := Silenced(s.timers, e));
    assert v.entries == s.entries[id := v.entries[id]];
    UpdateKeepsIndex(s, u, id);
    UpdateKeepsIndex(s, v, id);
    DeleteKeepsIndex(u, id, e);
    DeleteKeepsIndex(v, id, e);
    DeleteKeepsTimers(c, s.sessions.at, s.entries, u.entries, s.timers, id);
    DeleteKeepsTimers(c, s.sessions.at, s.entries, v.entries, s.timers, id);
    s.sessions.DeleteWf(CompositeKey(e.host, e.sid));
    hide TimersMatch, Without;
  }

  lemma DroppingKeeps(c: Config, s: State, sid: string, host: string, now: int)
    requires Inv(c, s)
    ensures Inv(c, Dropping(c, s, sid, host, now))
  {
    hide Inv, ResolveEntry, Ended, IsStored, EntryDeleted;
    ResolvedIsStored(c, s, sid, host);
    ClosingKeeps(c, s, sid, host, now);
    var id := ResolveEntry(s, sid, host);
    if id.Some? && id.value in s.entries {
      var t := Closing(c, s, sid, host, now);
      if !s.entries[id.value].closed {
        EndedLeaves(c, s, id.value, now);
      }
      hide Closing;
      if IsStored(t.sessions.at, t.entries, id.value) {
        RemovedKeeps(c, t, id.value);
        NoTimerNoUpdate(t, id.value);
      } else {
        AbsentIsGone(c, t, t.entries[id.value]);
      }
    }
  }

  lemma NoTimerNoUpdate(s: State, id: nat)
    requires id in s.entries
    ensures s.entries[id].timer.None? ==> s.(timers := Silenced(s.timers, s.entries[id])) == s
  {
  }

  lemma AbsentIsGone(c: Config, s: State, e: Entry)
    requires Inv(c, s) && CompositeKey(e.host, e.sid) !in s.sessions.at
    ensures EntryDeleted(s, e) == s
  {
    DeleteAbsent(s, e);
  }

  lemma RecordedKeeps(c: Config, s: State, sid: string, host: string, uuid: nat)
    requires Inv(c, s)
    ensures Inv(c, Recorded(c, s, sid, host, uuid))
  {
    hide NoDup, CompositeKey, KeysAgree, IndexExact, ResolveEntry, Trimmed;
    ResolvedIsStored(c, s, sid, host);
    var id := ResolveEntry(s, sid, host);
    if id.Some? && id.value in s.entries && !s.entries[id.value].closed && uuid !in s.entries[id.value].transcript {
      var t := Recorded(c, s, sid, host, uuid);
      UpdateKeepsIndex(s, t, id.value);
      UpdateKeepsTimers(c, s.sessions.at, s.entries, t.entries, s.timers, t.timers, id.value);
    }
  }

  lemma OwnerIsStored(c: Config, s: State, t: nat)
    requires Inv(c, s) && t in s.timers.armed
    ensures
      var id := s.timers.armed[t].owner;
      IsStored(s.sessions.at, s.entries, id) && s.entries[id].timer == Some(t) && s.entries[id].closed
  {
    hide NoDup, IndexExact;
  }

  lemma ExpiredKeeps(c: Config, s: State, t: nat, now: int)
    requires Inv(c, s)
    ensures Inv(c, Expired(s, t, now))
  {
    hide Inv, IsStored, EntryDeleted;
    if s.timers.CanFire(t, now) {
      OwnerIsStored(c, s, t);
      RemovedKeeps(c, s, s.timers.armed[t].owner);
    }
  }

  lemma RestoredKeeps(c: Config, s: State, id: nat, host: string, ccPid: Option<int>)
    requires Inv(c, s) && IsStored(s.sessions.at, s.entries, id) && (host == "" || s.entries[id].host == host)
    ensures Inv(c, Restored(s, id, host, ccPid))
  {
    hide NoDup, CompositeKey, KeysAgree, IndexExact;
    var t := Restored(s, id, host, ccPid);
    UpdateKeepsIndex(s, t, id);
    UpdateKeepsTimers(c, s.sessions.at, s.entries, t.entries, s.timers, t.timers, id);
  }

  /** A stored entry that takes on another host is no longer under its own key. */
  lemma RehostedBreaks(c: Config, s: State, id: nat, sid: string, host: string, ccPid: Option<int>)
    requires Inv(c, s) && host != "" && CompositeKey(host, sid) in s.sessions.at
    requires s.sessions.at[CompositeKey(host, sid)] == id && id in s.entries && s.entries[id].host != host
    ensures !Inv(c, Restored(s, id, host, ccPid))
  {
    var e, key := s.entries[id], CompositeKey(host, sid);
    hide NoDup, TimersMatch, IndexExact, CompositeKey;
    var t := Restored(s, id, host, ccPid);
    assert key == CompositeKey(e.host, e.sid);
    KeysDifferBy(e.host, host, sid);
    assert e.sid != sid;
    KeysDifferBySid(host, e.sid, sid);
    assert t.sessions.at[key] == id && t.entries[id].host == host && t.entries[id].sid == e.sid;
  }

  lemma KeysDifferBy(a: string, b: string, sid: string)
    ensures CompositeKey(a, sid) == CompositeKey(b, sid) ==> a == b
  {
    var k, l := CompositeKey(a, sid), CompositeKey(b, sid);
    assert |k| == |a| + 1 + |sid| && |l| == |b| + 1 + |sid| && k[..|a|] == a && l[..|b|] == b;
  }

  lemma KeysDifferBySid(host: string, a: string, b: string)
    ensures CompositeKey(host, a) == CompositeKey(host, b) ==> a == b
  {
    assert CompositeKey(host, a)[|host| + 1..] == a && CompositeKey(host, b)[|host| + 1..] == b;
  }

  // ----- Creating -----

  lemma {:induction false} SweptKeeps(c: Config, s: State, sids: seq<string>, now: int)
    requires Inv(c, s)
    ensures Inv(c, Swept(c, s, sids, now))
  {
    hide Inv, Dropping;
    if sids != [] {
      SweptKeeps(c, s, sids[..|sids| - 1], now);
      DroppingKeeps(c, Swept(c, s, sids[..|sids| - 1], now), sids[|sids| - 1], "", now);
    }
  }

  /** A new entry fits in unless it takes the place of one with another session id, or of a closed one. */
  lemma {:induction false} AddedKeeps(c: Config, s: State, sid: string, host: string, ccPid: Option<int>)
    requires Inv(c, s) && s.nextEntry !in s.entries
    ensures
      var key := CompositeKey(host, sid);
      var t := EntrySet(s, s.nextEntry, Entry(sid, host, ccPid, false, None, [])).(nextEntry := s.nextEntry + 1);
      Inv(c, t) <==> (key in s.sessions.at ==>
                        s.sessions.at[key] in s.entries && !s.entries[s.sessions.at[key]].closed
                        && s.entries[s.sessions.at[key]].sid == sid)
  {
    StoredKeys(s);
    hide NoDup, CompositeKey, KeysAgree, IndexExact;
    var e := Entry(sid, host, ccPid, false, None, []);
    var t := EntrySet(s, s.nextEntry, e);
    SetKeepsIndex(s, s.nextEntry, e);
    s.sessions.SetWf(CompositeKey(host, sid), s.nextEntry);
    SetShape(s, s.nextEntry, e);
    hide EntrySet;
    IndexIgnores(t, s.nextEntry + 1);
    AddKeepsTimers(c, s.sessions.at, s.entries, s.timers, s.nextEntry, e);
    hide TimersMatch;
  }

  lemma StoredKeys(s: State)
    requires KeysAgree(s.sessions.at, s.entries)
    ensures forall k :: k in s.sessions.at ==> s.sessions.at[k] in s.entries
  {
  }

  lemma SetShape(s: State, id: nat, e: Entry)
    ensures
      var t := EntrySet(s, id, e);
      && t.sessions == s.sessions.Set(CompositeKey(e.host, e.sid), id) && t.entries == s.entries[id := e]
      && t.timers == s.timers && t.nextUuid == s.nextUuid
  {
  }

  lemma IndexIgnores(s: State, nextEntry: nat)
    ensures IndexExact(s.(nextEntry := nextEntry)) <==> IndexExact(s)
  {
    hide NoDup, Carries;
    assert forall sid :: KeysOf(s.(nextEntry := nextEntry), sid) == KeysOf(s, sid);
  }

  lemma AddKeepsTimers(c: Config, sessions: map<string, nat>, entries: map<nat, Entry>, timers: Runtime<nat>, id: nat,
                       e: Entry)
    requires TimersMatch(c, sessions, entries, timers) && KeysAgree(sessions, entries)
    requires id !in entries && !e.closed && e.timer.None?
    ensures
      var key := CompositeKey(e.host, e.sid);
      TimersMatch(c, sessions[key := id], entries[id := e], timers) <==>
      (key in sessions ==> !entries[sessions[key]].closed)
  {
    var key := CompositeKey(e.host, e.sid);
    hide CompositeKey;
    var after, all := sessions[key := id], entries[id := e];
    forall k | k in entries
      ensures IsStored(after, all, k) <==> IsStored(sessions, entries, k) && !(key in sessions && sessions[key] == k)
    {
    }
    if key in sessions {
      var old0 := sessions[key];
      assert IsStored(sessions, entries, old0);
      if entries[old0].closed {
        var t := entries[old0].timer.value;
        assert timers.armed[t].owner == old0;
        assert !TimerOwned(after, all, t, old0);
      }
    }
    hide IsStored;
  }

  /**
   * A creation neither finds a session of another host under its key, nor takes the place of a closed session or of
   * one with another id.
   */
  predicate Steady(s: State, i: Input) {
    i.Create? ==>
      var id, key := ResolveEntry(s, i.sid, i.host), CompositeKey(i.host, i.sid);
      if id.Some? && id.value in s.entries then
        Refuses(s.entries[id.value], i.ccPid, i.mtime) || i.host == "" || s.entries[id.value].host == i.host
      else
        key in s.sessions.at ==>
          && s.sessions.at[key] in s.entries && !s.entries[s.sessions.at[key]].closed
          && s.entries[s.sessions.at[key]].sid == i.sid
  }

  lemma {:induction false} CreatedKeeps(c: Config, s: State, i: Input)
    requires i.Create? && Inv(c, s) && AllDistinct(s)
    ensures Inv(c, Created(c, s, i.sid, i.host, i.ccPid, i.mtime, i.now)) <==> Steady(s, i)
  {
    hide Inv, IsStored, Restored, Refuses, EntrySet, Swept, Zombies, CompositeKey, Distinct;
    ResolvedIsStored(c, s, i.sid, i.host);
    StoredExists(s);
    var id := ResolveEntry(s, i.sid, i.host);
    if id.Some? {
      if i.host == "" || s.entries[id.value].host == i.host {
        RestoredKeeps(c, s, id.value, i.host, i.ccPid);
      } else {
        RehostedBreaks(c, s, id.value, i.sid, i.host, i.ccPid);
      }
    } else if i.host != "" && i.ccPid.Some? {
      var sids := Zombies(s, s.sessions.order, i.sid, i.host, i.ccPid);
      SweptKeeps(c, s, sids, i.now);
      SweptMoves(c, s, sids, i.now);
      AddedKeeps(c, Swept(c, s, sids, i.now), i.sid, i.host, i.ccPid);
    } else {
      AddedKeeps(c, s, i.sid, i.host, i.ccPid);
    }
  }

  lemma StoredExists(s: State)
    ensures forall id :: IsStored(s.sessions.at, s.entries, id) ==> id in s.entries
  {
  }

  /** Exactly the steady steps keep the map, the index and the timers consistent. */
  lemma {:induction false} StepKeeps(c: Config, s: State, i: Input)
    requires Inv(c, s) && AllDistinct(s)
    ensures Inv(c, Step(c, s, i)) <==> Steady(s, i)
  {
    hide Inv, Created, Recorded, Closing, Dropping, Expired, AllDistinct;
    match i
    case Create(sid, host, ccPid, mtime, now) => CreatedKeeps(c, s, i);
    case Record(sid, host, uuid) => RecordedKeeps(c, s, sid, host, uuid);
    case Close(sid, host, now) => ClosingKeeps(c, s, sid, host, now);
    case Drop(sid, host, now) => DroppingKeeps(c, s, sid, host, now);
    case Fire(t, now) => ExpiredKeeps(c, s, t, now);
  }

  ghost predicate SteadyRun(c: Config, inputs: seq<Input>) {
    forall k :: 0 <= k < |inputs| ==> Steady(Run(c, inputs[..k]), inputs[k])
  }

  ghost predicate AlwaysConsistent(c: Config, inputs: seq<Input>) {
    forall k :: 0 <= k <= |inputs| ==> Inv(c, Run(c, inputs[..k]))
  }

  lemma RunOne(c: Config, before: seq<Input>, i: Input)
    ensures Run(c, before + [i]) == Step(c, Run(c, before), i)
  {
    assert (before + [i])[..|before + [i]| - 1] == before;
  }

  lemma RunSnoc(c: Config, before: seq<Input>, i: Input)
    ensures SteadyRun(c, before + [i]) <==> SteadyRun(c, before) && Steady(Run(c, before), i)
    ensures AlwaysConsistent(c, before + [i]) <==> AlwaysConsistent(c, before) && Inv(c, Run(c, before + [i]))
    ensures AlwaysConsistent(c, before) ==> Inv(c, Run(c, before))
  {
    hide Run, Step, Steady, Inv;
    var all := before + [i];
    assert all[..|all|] == all && before[..|before|] == before;
    assert forall k :: 0 <= k <= |before| ==> all[..k] == before[..k];
    assert all[|before|] == i && forall k :: 0 <= k < |before| ==> all[k] == before[k];
  }

  lemma StartKeeps(c: Config)
    ensures AlwaysConsistent(c, []) && SteadyRun(c, []) && Run(c, []) == INITIAL && Inv(c, INITIAL)
  {
    var none: seq<Input> := [];
    assert none[..0] == none;
  }

  /** All states of a run are consistent if and only if each of its steps is steady. */
  lemma {:induction false} RunKeeps(c: Config, inputs: seq<Input>)
    ensures AlwaysConsistent(c, inputs) <==> SteadyRun(c, inputs)
    ensures SteadyRun(c, inputs) ==> Inv(c, Run(c, inputs))
  {
    hide Step, Run, Inv, Steady, AlwaysConsistent, SteadyRun, AllDistinct;
    StartKeeps(c);
    if inputs != [] {
      var before, i := inputs[..|inputs| - 1], inputs[|inputs| - 1];
      assert inputs == before + [i];
      RunKeeps(c, before);
      RunOne(c, before, i);
      RunSnoc(c, before, i);
      RunDistinct(c, before);
      if AlwaysConsistent(c, before) {
        StepKeeps(c, Run(c, before), i);
      }
    }
  }

  // ----- Which hosts make a step unsteady -----

  predicate Plain(i: Input) {
    i.Create? ==> '|' !in i.host
  }

  ghost predicate PlainHosts(s: State) {
    forall id :: id in s.entries ==> '|' !in s.entries[id].host
  }

  lemma {:induction false} RunPlain(c: Config, inputs: seq<Input>)
    requires forall k :: 0 <= k < |inputs| ==> Plain(inputs[k])
    ensures PlainHosts(Run(c, inputs))
  {
    if inputs != [] {
      var before, i := inputs[..|inputs| - 1], inputs[|inputs| - 1];
      RunPlain(c, before);
      hide Step, PlainHosts;
      StepPlain(c, Run(c, before), i);
    }
  }

  lemma MovedPlain(s: State, t: State)
    requires AllMoved(s, t) && PlainHosts(s)
    ensures PlainHosts(t)
  {
    forall id | id in t.entries
      ensures '|' !in t.entries[id].host
    {
      assert Moved(s.entries[id], t.entries[id], s.nextUuid, t.nextUuid);
    }
  }

  lemma {:induction false} StepPlain(c: Config, s: State, i: Input)
    requires PlainHosts(s) && Plain(i)
    ensures PlainHosts(Step(c, s, i))
  {
    hide Swept, Zombies, Dropping, Closing, Expired, CompositeKey, ResolveEntry, Refuses, Trimmed, AllMoved;
    match i
    case Create(sid, host, ccPid, _, now) =>
      var sids := Zombies(s, s.sessions.order, sid, host, ccPid);
      SweptMoves(c, s, sids, now);
      MovedPlain(s, Swept(c, s, sids, now));
    case Record(_, _, _) =>
    case Close(sid, host, now) =>
      ClosingMoves(c, s, sid, host, now);
      MovedPlain(s, Closing(c, s, sid, host, now));
    case Drop(sid, host, now) =>
      DroppingMoves(c, s, sid, host, now);
      MovedPlain(s, Dropping(c, s, sid, host, now));
    case Fire(timer, now) =>
      ExpiredMoves(s, timer, now);
      MovedPlain(s, Expired(s, timer, now));
  }

  /**
   * A session is created without a host while several hosts hold its id, one of them no host, and that one is closed.
   */
  predicate Buries(s: State, i: Input) {
    && i.Create? && i.host == "" && ResolveEntry(s, i.sid, "").None?
    && var key := CompositeKey("", i.sid);
       key in s.sessions.at && s.sessions.at[key] in s.entries && s.entries[s.sessions.at[key]].closed
  }

  /** When no host has a separator in it, this is the only step that is not steady. */
  lemma PlainIsSteady(c: Config, s: State, i: Input)
    requires Inv(c, s) && PlainHosts(s) && Plain(i)
    ensures Steady(s, i) <==> !Buries(s, i)
  {
    hide NoDup, TimersMatch, Refuses;
    if i.Create? {
      ResolvedIsStored(c, s, i.sid, i.host);
      var key := CompositeKey(i.host, i.sid);
      KeyTells(i.host, i.sid);
      if key in s.sessions.at {
        var e := s.entries[s.sessions.at[key]];
        KeyTells(e.host, e.sid);
      }
      hide IndexExact, CompositeKey, KeyHost, IndexOf;
    }
  }

  /**
   * So runs whose hosts have no separator in them stay consistent if and only if none of their steps is of that kind.
   */
  lemma {:induction false} PlainRunKeeps(c: Config, inputs: seq<Input>)
    requires forall k :: 0 <= k < |inputs| ==> Plain(inputs[k])
    ensures AlwaysConsistent(c, inputs) <==> forall k :: 0 <= k < |inputs| ==> !Buries(Run(c, inputs[..k]), inputs[k])
  {
    hide Run, Steady, Inv, Step, Plain, Buries, AlwaysConsistent;
    if inputs == [] {
      StartKeeps(c);
    } else {
      var before, i := inputs[..|inputs| - 1], inputs[|inputs| - 1];
      assert inputs == before + [i];
      assert forall k :: 0 <= k < |before| ==> before[k] == inputs[k] && before[..k] == inputs[..k];
      PlainRunKeeps(c, before);
      RunPlain(c, before);
      RunKeeps(c, before);
      RunKeeps(c, inputs);
      RunSnoc(c, before, i);
      if AlwaysConsistent(c, before) {
        PlainIsSteady(c, Run(c, before), i);
      }
    }
  }

  // ----- What follows for whole runs -----

  /** The host holds the session id. */
  ghost predicate HeldBy(s: State, sid: string, host: string) {
    var key := CompositeKey(host, sid);
    key in s.sessions.at && s.sessions.at[key] in s.entries
    && s.entries[s.sessions.at[key]].host == host && s.entries[s.sessions.at[key]].sid == sid
  }

  lemma {:induction false} HostsAre(keys: seq<string>)
    requires forall k :: k in keys ==> '|' in k
    ensures forall h :: h in HostsOf(keys) <==> h != "" && exists k :: k in keys && KeyHost(k) == h
  {
    if keys != [] {
      var p, k := keys[..|keys| - 1], keys[|keys| - 1];
      assert keys == p + [k] && k in keys;
      HostsAre(p);
      hide IndexOf;
    }
  }

  lemma LastHost(p: seq<string>, k: string)
    requires '|' in k
    ensures HostsOf(p + [k]) == HostsOf(p) + if KeyHost(k) != "" then [KeyHost(k)] else []
  {
    assert (p + [k])[..|p|] == p;
  }

  /** Each key seems to be of another host. */
  ghost predicate HostsApart(keys: seq<string>) {
    forall i, j :: 0 <= i < j < |keys| ==> KeyHost(keys[i]) != KeyHost(keys[j])
  }

  lemma LastApart(p: seq<string>, k: string)
    requires (forall x :: x in p ==> '|' in x) && HostsApart(p + [k])
    ensures HostsApart(p) && KeyHost(k) !in HostsOf(p)
  {
    HostsAre(p);
    hide KeyHost, HostsOf;
    var keys := p + [k];
    assert keys[|p|] == k && forall i :: 0 <= i < |p| ==> keys[i] == p[i];
  }

  lemma {:induction false} HostsDiffer(keys: seq<string>)
    requires (forall k :: k in keys ==> '|' in k) && HostsApart(keys)
    ensures NoDup(HostsOf(keys))
  {
    if keys != [] {
      var p, k := keys[..|keys| - 1], keys[|keys| - 1];
      assert keys == p + [k] && k in keys;
      LastApart(p, k);
      LastHost(p, k);
      hide HostsApart, HostsOf, KeyHost;
      HostsDiffer(p);
      NoDupAppend(HostsOf(p), KeyHost(k));
    }
  }

  /** The keys of a session id are those of the hosts that hold it. */
  lemma KeysAreHeld(c: Config, s: State, sid: string, k: string)
    requires Inv(c, s)
    ensures k in KeysOf(s, sid) <==> exists h :: HeldBy(s, sid, h) && k == CompositeKey(h, sid)
    ensures k in KeysOf(s, sid) ==>
              k in s.sessions.at && HeldBy(s, sid, s.entries[s.sessions.at[k]].host)
              && k == CompositeKey(s.entries[s.sessions.at[k]].host, sid)
  {
    hide TimersMatch, NoDup;
    if k in KeysOf(s, sid) {
      assert Carries(s.sessions.at, s.entries, k, sid);
      assert HeldBy(s, sid, s.entries[s.sessions.at[k]].host);
    }
  }

  ghost predicate PlainHolders(s: State, sid: string) {
    forall h :: HeldBy(s, sid, h) ==> '|' !in h
  }

  /**
   * A lookup by session id alone finds the session if exactly one host holds it; it reports a conflict if several
   * do, naming exactly those hosts that are not empty, up to a separator in them; and it finds nothing if none does.
   */
  lemma {:induction false} LookupBySid(c: Config, inputs: seq<Input>, sid: string)
    requires SteadyRun(c, inputs)
    ensures
      var s := Run(c, inputs);
      match ResolveSidLookup(s, sid, "")
      case NotFound => forall h :: !HeldBy(s, sid, h)
      case Found(id) =>
        && id in s.entries && HeldBy(s, sid, s.entries[id].host)
        && s.sessions.at[CompositeKey(s.entries[id].host, sid)] == id
        && forall h :: HeldBy(s, sid, h) ==> h == s.entries[id].host
      case Conflict(hosts) =>
        && (exists g, h :: g != h && HeldBy(s, sid, g) && HeldBy(s, sid, h))
        && (forall h :: h in hosts <==> h != "" && exists g :: HeldBy(s, sid, g) && KeyHost(CompositeKey(g, sid)) == h)
        && (PlainHolders(s, sid) ==>
              && (forall h :: h in hosts <==> h != "" && HeldBy(s, sid, h))
              && NoDup(hosts))
  {
    RunKeeps(c, inputs);
    hide Run;
    var s := Run(c, inputs);
    var keys := KeysOf(s, sid);
    hide Inv, SteadyRun;
    FewHolders(c, s, sid);
    if |keys| >= 2 {
      ConflictNames(c, s, sid);
    }
  }

  lemma FewHolders(c: Config, s: State, sid: string)
    requires Inv(c, s)
    ensures
      match ResolveSidLookup(s, sid, "")
      case NotFound => forall h :: !HeldBy(s, sid, h)
      case Found(id) =>
        && id in s.entries && HeldBy(s, sid, s.entries[id].host)
        && s.sessions.at[CompositeKey(s.entries[id].host, sid)] == id
        && forall h :: HeldBy(s, sid, h) ==> h == s.entries[id].host
      case Conflict(hosts) =>
        hosts == HostsOf(KeysOf(s, sid)) && exists g, h :: g != h && HeldBy(s, sid, g) && HeldBy(s, sid, h)
  {
    var keys := KeysOf(s, sid);
    forall k
      ensures k in keys ==>
                k in s.sessions.at && HeldBy(s, sid, s.entries[s.sessions.at[k]].host)
                && k == CompositeKey(s.entries[s.sessions.at[k]].host, sid)
    {
      KeysAreHeld(c, s, sid, k);
    }
    forall h | HeldBy(s, sid, h)
      ensures CompositeKey(h, sid) in keys
    {
      KeysAreHeld(c, s, sid, CompositeKey(h, sid));
    }
    KeysDiffer(c, s, sid);
    hide Inv, HostsOf, KeysOf;
    if |keys| >= 1 {
      assert keys[0] in keys;
    }
    if |keys| >= 2 {
      assert keys[1] in keys && keys[0] != keys[1];
    }
  }

  lemma KeysDiffer(c: Config, s: State, sid: string)
    requires Inv(c, s)
    ensures NoDup(KeysOf(s, sid))
  {
    hide TimersMatch;
  }

  lemma {:induction false} ConflictNames(c: Config, s: State, sid: string)
    requires Inv(c, s)
    ensures
      var hosts := HostsOf(KeysOf(s, sid));
      && (forall h :: h in hosts <==> h != "" && exists g :: HeldBy(s, sid, g) && KeyHost(CompositeKey(g, sid)) == h)
      && (PlainHolders(s, sid) ==>
            && (forall h :: h in hosts <==> h != "" && HeldBy(s, sid, h))
            && NoDup(hosts))
  {
    var keys := KeysOf(s, sid);
    forall k
      ensures k in keys <==> exists h :: HeldBy(s, sid, h) && k == CompositeKey(h, sid)
    {
      KeysAreHeld(c, s, sid, k);
    }
    KeysDiffer(c, s, sid);
    forall h: string
      ensures '|' in CompositeKey(h, sid)
      ensures '|' !in h ==> KeyHost(CompositeKey(h, sid)) == h
    {
      KeyTells(h, sid);
      assert CompositeKey(h, sid)[|h|] == '|';
    }
    hide Inv, HostsOf, KeysOf, HeldBy, KeyHost, CompositeKey;
    HostsAre(keys);
    if PlainHolders(s, sid) {
      assert forall i :: 0 <= i < |keys| ==> keys[i] in keys;
      assert HostsApart(keys);
      HostsDiffer(keys);
    }
  }

  /** Where sessions are kept after closing, a stored session is closed exactly if its retention timer is armed. */
  lemma ClosedIffWaiting(c: Config, inputs: seq<Input>, key: string)
    requires SteadyRun(c, inputs) && c.retentionMs > 0 && key in Run(c, inputs).sessions.at
    ensures
      var s := Run(c, inputs);
      var id := s.sessions.at[key];
      && id in s.entries && key == CompositeKey(s.entries[id].host, s.entries[id].sid)
      && (s.entries[id].closed <==> exists t :: t in s.timers.armed && s.timers.armed[t].owner == id)
      && forall t, u :: t in s.timers.armed && u in s.timers.armed ==>
                          (s.timers.armed[t].owner == s.timers.armed[u].owner ==> t == u)
  {
    RunKeeps(c, inputs);
    hide Run, IndexExact, NoDup, CompositeKey;
    var s := Run(c, inputs);
    assert IsStored(s.sessions.at, s.entries, s.sessions.at[key]);
    hide IsStored;
  }

  /** A retention timer that fires deletes the closed session it was armed for, and nothing else. */
  lemma TimerDeletesOnlyClosed(c: Config, inputs: seq<Input>, t: nat, now: int)
    requires SteadyRun(c, inputs) && Run(c, inputs).timers.CanFire(t, now)
    ensures
      var s := Run(c, inputs);
      var after := Step(c, s, Fire(t, now));
      var id := s.timers.armed[t].owner;
      && id in s.entries && s.entries[id].closed && s.entries[id].timer == Some(t)
      && var key := CompositeKey(s.entries[id].host, s.entries[id].sid);
      && key in s.sessions.at && s.sessions.at[key] == id
      && after.sessions.at == s.sessions.at - {key} && after.entries == s.entries
  {
    RunKeeps(c, inputs);
    hide Run, Inv, Without, CompositeKey;
    OwnerIsStored(c, Run(c, inputs), t);
  }

  /** No frame is twice in the transcript of a session, in any run. */
  lemma TranscriptsDistinct(c: Config, inputs: seq<Input>, id: nat, i: nat, j: nat)
    requires id in Run(c, inputs).entries && i < j < |Run(c, inputs).entries[id].transcript|
    ensures Run(c, inputs).entries[id].transcript[i] != Run(c, inputs).entries[id].transcript[j]
  {
    RunDistinct(c, inputs);
    hide Run;
    assert Distinct(Run(c, inputs).entries[id].transcript, Run(c, inputs).nextUuid);
  }

  // ----- How long a transcript can be -----

  /** How often the session was closed since its last frame was recorded. */
  function Closes(c: Config, inputs: seq<Input>, id: nat): nat {
    if inputs == [] then 0
    else
      var before, i := inputs[..|inputs| - 1], inputs[|inputs| - 1];
      var s := Run(c, before);
      if id !in s.entries || Records(s, i, id) then 0
      else
        var t := Step(c, s, i);
        Closes(c, before, id) + if !s.entries[id].closed && id in t.entries && t.entries[id].closed then 1 else 0
  }

  function RingSize(c: Config): nat {
    if c.transcriptRing < 0 then 0 else c.transcriptRing
  }

  /** Closing adds a frame and removes none: a transcript is the ring, and a frame for each close since. */
  lemma {:induction false} TranscriptBound(c: Config, inputs: seq<Input>, id: nat)
    requires id in Run(c, inputs).entries
    ensures |Run(c, inputs).entries[id].transcript| <= RingSize(c) + Closes(c, inputs, id)
  {
    if inputs != [] {
      var before, i := inputs[..|inputs| - 1], inputs[|inputs| - 1];
      RunDistinct(c, before);
      var s := Run(c, before);
      FreeEntry(s);
      StepEvolves(c, s, i);
      if id in s.entries {
        TranscriptBound(c, before, id);
        hide Run, Step, Records;
        assert Evolved(c, s, i, id, Step(c, s, i));
      }
    }
  }

  lemma FreeEntry(s: State)
    requires AllDistinct(s)
    ensures s.nextEntry !in s.entries
  {
  }

  /** One session is stored, the one with the number 0, under this key; it is open, or closed with its timer. */
  ghost predicate OnlyOne(s: State, sid: string, host: string, closed: bool, frames: nat) {
    var key := CompositeKey(host, sid);
    && s.sessions == Table([key], map[key := 0]) && s.sidIndex == map[sid := [key]] && s.entries.Keys == {0}
    && s.entries[0].sid == sid && s.entries[0].host == host && s.entries[0].closed == closed
    && |s.entries[0].transcript| == frames && s.nextEntry == 1
  }

  lemma FirstCreated(c: Config, sid: string, host: string)
    ensures OnlyOne(Step(c, INITIAL, Create(sid, host, None, false, 0)), sid, host, false, 0)
  {
    hide CompositeKey;
    var t, key := Step(c, INITIAL, Create(sid, host, None, false, 0)), CompositeKey(host, sid);
    assert t.sessions.order == [key] && t.sessions.at == map[key := 0] && t.sidIndex[sid] == [key];
  }

  lemma OnlyClosed(c: Config, s: State, sid: string, host: string, frames: nat)
    requires c.retentionMs > 0 && OnlyOne(s, sid, host, false, frames)
    ensures
      var t := Step(c, s, Close(sid, host, 0));
      && OnlyOne(t, sid, host, true, frames + 1) && t.entries[0].timer == Some(s.timers.next)
      && t.timers == s.timers.Arm(0, 0, c.retentionMs)
  {
    hide CompositeKey;
  }

  lemma OnlyReopened(c: Config, s: State, sid: string, host: string, frames: nat)
    requires OnlyOne(s, sid, host, true, frames)
    ensures OnlyOne(Step(c, s, Create(sid, host, None, false, 0)), sid, host, false, frames)
  {
    hide CompositeKey;
  }

  /** Created, then closed and created again n times, without a frame in between. */
  function Reopenings(sid: string, host: string, n: nat): seq<Input> {
    if n == 0 then [] + [Create(sid, host, None, false, 0)]
    else Reopenings(sid, host, n - 1) + [Close(sid, host, 0)] + [Create(sid, host, None, false, 0)]
  }

  /** So the ring size is no bound: n reopenings leave n frames, for every n. */
  lemma {:induction false} TranscriptsOutgrowRing(c: Config, sid: string, host: string, n: nat)
    requires c.retentionMs > 0
    ensures OnlyOne(Run(c, Reopenings(sid, host, n)), sid, host, false, n)
  {
    hide Run, Step, OnlyOne;
    var again := Create(sid, host, None, false, 0);
    if n == 0 {
      RunOne(c, [], again);
      StartKeeps(c);
      FirstCreated(c, sid, host);
    } else {
      var before := Reopenings(sid, host, n - 1);
      TranscriptsOutgrowRing(c, sid, host, n - 1);
      RunOne(c, before, Close(sid, host, 0));
      OnlyClosed(c, Run(c, before), sid, host, n - 1);
      RunOne(c, before + [Close(sid, host, 0)], again);
      OnlyReopened(c, Run(c, before + [Close(sid, host, 0)]), sid, host, n);
    }
  }

  // ----- A session that is buried -----

  /** Created and closed without a host, created on another host, and again without a host. */
  function Burial(sid: string, host: string): seq<Input> {
    [] + [Create(sid, "", None, false, 0)] + [Close(sid, "", 0)] + [Create(sid, host, None, false, 0)]
    + [Create(sid, "", None, false, 0)]
  }

  /** An open session without a host is stored, and the timer 0 of a closed one with its key is armed. */
  ghost predicate Buried(c: Config, s: State, sid: string) {
    var key := CompositeKey("", sid);
    && key in s.sessions.at && s.sessions.at[key] == 2 && 2 in s.entries
    && s.entries[2] == Entry(sid, "", None, false, None, [])
    && 0 in s.entries && s.entries[0].sid == sid && s.entries[0].host == ""
    && 0 in s.timers.armed && s.timers.armed[0] == Timer(0, c.retentionMs)
  }

  lemma SecondHost(c: Config, s: State, sid: string, host: string)
    requires OnlyOne(s, sid, "", true, 1) && host != ""
    requires 0 in s.timers.armed && s.timers.armed[0] == Timer(0, c.retentionMs)
    ensures
      var t := Step(c, s, Create(sid, host, None, false, 0));
      && |KeysOf(t, sid)| == 2 && t.nextEntry == 2 && t.timers == s.timers
      && 0 in t.entries && t.entries[0] == s.entries[0]
  {
    KeysDifferBy(host, "", sid);
    hide CompositeKey;
  }

  lemma CreatedAgain(c: Config, s: State, sid: string)
    requires |KeysOf(s, sid)| == 2 && s.nextEntry == 2 && 0 in s.entries && s.entries[0].sid == sid
             && s.entries[0].host == ""
    requires 0 in s.timers.armed && s.timers.armed[0] == Timer(0, c.retentionMs)
    ensures Buried(c, Step(c, s, Create(sid, "", None, false, 0)), sid)
  {
    hide CompositeKey;
  }

  lemma BuriedIsLost(c: Config, s: State, sid: string)
    requires Buried(c, s, sid)
    ensures
      var t := Step(c, s, Fire(0, c.retentionMs));
      2 in t.entries && t.entries[2] == s.entries[2] && CompositeKey("", sid) !in t.sessions.at
  {
    hide CompositeKey, Without;
  }

  /** The retention timer of the first session deletes the key of the last one, which is open. */
  lemma {:induction false} OpenSessionIsLost(c: Config, sid: string, host: string)
    requires c.retentionMs > 0 && host != ""
    ensures
      var s, t := Run(c, Burial(sid, host)), Run(c, Burial(sid, host) + [Fire(0, c.retentionMs)]);
      && Buried(c, s, sid) && 2 in t.entries && t.entries[2] == s.entries[2] && !t.entries[2].closed
      && CompositeKey("", sid) !in t.sessions.at
  {
    hide Run, Step, OnlyOne;
    var b1 := [] + [Create(sid, "", None, false, 0)];
    var b2 := b1 + [Close(sid, "", 0)];
    var b3 := b2 + [Create(sid, host, None, false, 0)];
    StartKeeps(c);
    RunOne(c, [], Create(sid, "", None, false, 0));
    RunOne(c, b1, Close(sid, "", 0));
    RunOne(c, b2, Create(sid, host, None, false, 0));
    RunOne(c, b3, Create(sid, "", None, false, 0));
    RunOne(c, Burial(sid, host), Fire(0, c.retentionMs));
    FirstCreated(c, sid, "");
    FirstTimer(c, sid);
    OnlyClosed(c, Run(c, b1), sid, "", 0);
    OnlyNames(Run(c, b2), sid, "", true, 1);
    SecondHost(c, Run(c, b2), sid, host);
    CreatedAgain(c, Run(c, b3), sid);
    BuriedIsLost(c, Run(c, Burial(sid, host)), sid);
  }

  lemma FirstTimer(c: Config, sid: string)
    ensures Step(c, INITIAL, Create(sid, "", None, false, 0)).timers == Runtime(map[], 0)
  {
    hide CompositeKey;
  }

  lemma OnlyNames(s: State, sid: string, host: string, closed: bool, frames: nat)
    requires OnlyOne(s, sid, host, closed, frames)
    ensures 0 in s.entries && s.entries[0].sid == sid && s.entries[0].host == host
  {
  }

  // ----- The store itself -----

  class MirrorRegistry {
    const c: Config
    var sessions: Table<nat>
    var sidIndex: map<string, seq<string>>
    var entries: map<nat, Entry>
    var timers: Runtime<nat>
    var nextEntry: nat
    var nextUuid: nat

    ghost function Abs(): State
      reads this
    {
      State(sessions, sidIndex, entries, timers, nextEntry, nextUuid)
    }

    constructor (c: Config)
      ensures this.c == c && Abs() == INITIAL
    {
      this.c := c;
      sessions, sidIndex, entries, timers, nextEntry, nextUuid := Empty(), map[], map[], Runtime(map[], 0), 0, 0;
    }

    method SetEntry(id: nat, e: Entry)
      modifies `sessions, `sidIndex, `entries
      ensures Abs() == EntrySet(old(Abs()), id, e)
    {
      var key := CompositeKey(e.host, e.sid);
      entries := entries[id := e];
      sessions := sessions.Set(key, id);
      var keys := if e.sid in sidIndex then sidIndex[e.sid] else [];
      if key !in keys {
        keys := keys + [key];
      }
      sidIndex := sidIndex[e.sid := keys];
    }

    method DeleteEntry(e: Entry)
      modifies `sessions, `sidIndex
      ensures Abs() == EntryDeleted(old(Abs()), e)
    {
      var key := CompositeKey(e.host, e.sid);
      sessions := sessions.Delete(key);
      if e.sid in sidIndex {
        var keys := Without(sidIndex[e.sid], key);
        sidIndex := if |keys| == 0 then sidIndex - {e.sid} else sidIndex[e.sid := keys];
      }
    }

    method Resolve(sid: string, host: string) returns (id: Option<nat>)
      ensures id == ResolveEntry(Abs(), sid, host)
    {
      if host != "" {
        return sessions.Get(CompositeKey(host, sid));
      }
      if sid !in sidIndex || |sidIndex[sid]| != 1 {
        return None;
      }
      return sessions.Get(sidIndex[sid][0]);
    }

    method GetSession(sid: string, host: string) returns (r: Lookup)
      ensures r == ResolveSidLookup(Abs(), sid, host)
    {
      if host != "" {
        var id := Resolve(sid, host);
        return if id.Some? then Found(id.value) else NotFound;
      }
      if sid !in sidIndex || |sidIndex[sid]| == 0 {
        return NotFound;
      }
      var keys := sidIndex[sid];
      if |keys| == 1 {
        var id := sessions.Get(keys[0]);
        return if id.Some? then Found(id.value) else NotFound;
      }
      var hosts := [];
      for j := 0 to |keys|
        invariant hosts == HostsOf(keys[..j])
      {
        assert keys[..j + 1][..j] == keys[..j];
        var sep := IndexOf(keys[j], '|');
        if sep > 0 {
          hosts := hosts + [keys[j][..sep]];
        }
      }
      assert keys[..|keys|] == keys;
      return Conflict(hosts);
    }

    method CloseSession(sid: string, host: string, now: int)
      modifies this
      ensures Abs() == Closing(c, old(Abs()), sid, host, now)
    {
      hide ResolveEntry, EntryDeleted;
      var id := Resolve(sid, host);
      if id.None? || id.value !in entries || entries[id.value].closed {
        return;
      }
      var e := entries[id.value].(closed := true, transcript := entries[id.value].transcript + [nextUuid]);
      nextUuid := nextUuid + 1;
      entries := entries[id.value := e];
      if c.retentionMs > 0 {
        entries := entries[id.value := e.(timer := Some(timers.next))];
        timers := timers.Arm(id.value, now, c.retentionMs);
      } else {
        DeleteEntry(e);
      }
      ghost var ended := Ended(c, old(Abs()), id.value, now);
      assert entries == ended.entries;
    }

    method CloseAndDrop(sid: string, host: string, now: int)
      modifies this
      ensures Abs() == Dropping(c, old(Abs()), sid, host, now)
    {
      hide ResolveEntry, EntryDeleted, Closing;
      var id := Resolve(sid, host);
      CloseSession(sid, host, now);
      if id.None? || id.value !in entries {
        return;
      }
      var e := entries[id.value];
      if e.timer.Some? {
        timers := timers.Disarm(e.timer.value);
        entries := entries[id.value := e.(timer := None)];
      }
      DeleteEntry(e);
    }

    method RecordEvent(sid: string, host: string, uuid: nat) returns (duplicate: Option<bool>)
      modifies this
      ensures Abs() == Recorded(c, old(Abs()), sid, host, uuid)
      ensures
        var id := ResolveEntry(old(Abs()), sid, host);
        && (duplicate.Some? <==> id.Some? && id.value in old(entries) && !old(entries)[id.value].closed)
        && (duplicate.Some? ==> duplicate.value == (uuid in old(entries)[id.value].transcript))
    {
      hide ResolveEntry;
      var id := Resolve(sid, host);
      if id.None? || id.value !in entries || entries[id.value].closed {
        return None;
      }
      var e := entries[id.value];
      var transcript := e.transcript;
      for k := |transcript| downto 0
        invariant forall l :: k <= l < |transcript| ==> transcript[l] != uuid
      {
        if transcript[k] == uuid {
          return Some(true);
        }
      }
      transcript := transcript + [uuid];
      if |transcript| > c.transcriptRing {
        transcript := if c.transcriptRing <= 0 then [] else transcript[|transcript| - c.transcriptRing..];
      }
      entries := entries[id.value := e.(transcript := transcript)];
      nextUuid := Above(nextUuid, uuid);
      return Some(false);
    }

    /** The retention timer of an entry fires: the runtime disarms it, and the entry is deleted. */
    method OnRetentionTimer(t: nat, now: int)
      requires timers.CanFire(t, now)
      modifies this
      ensures Abs() == Expired(old(Abs()), t, now)
    {
      var id := timers.armed[t].owner;
      if id !in entries {
        return;
      }
      timers := timers.Disarm(t);
      DeleteEntry(entries[id]);
    }

    method CreateSession(sid: string, host: string, ccPid: Option<int>, mtime: bool, now: int)
      returns (restored: Option<bool>)
      modifies this
      ensures Abs() == Created(c, old(Abs()), sid, host, ccPid, mtime, now)
      ensures
        var id := ResolveEntry(old(Abs()), sid, host);
        && (restored == Some(true) <==>
              id.Some? && id.value in old(entries) && !Refuses(old(entries)[id.value], ccPid, mtime))
        && (restored == Some(false) <==> id.None? || id.value !in old(entries))
    {
      hide ResolveEntry, EntrySet, Swept, Zombies;
      var id := Resolve(sid, host);
      if id.Some? && id.value in entries {
        var e := entries[id.value];
        if Refuses(e, ccPid, mtime) {
          return None;
        }
        Reopen(id.value, host, ccPid);
        return Some(true);
      }
      if host != "" && ccPid.Some? {
        SweepZombies(sid, host, ccPid, now);
      }
      SetEntry(nextEntry, Entry(sid, host, ccPid, false, None, []));
      nextEntry := nextEntry + 1;
      return Some(false);
    }

    method Reopen(id: nat, host: string, ccPid: Option<int>)
      requires id in entries
      modifies `entries, `timers
      ensures Abs() == Restored(old(Abs()), id, host, ccPid)
    {
      var e := entries[id];
      if e.closed {
        if e.timer.Some? {
          timers := timers.Disarm(e.timer.value);
        }
        e := e.(closed := false, timer := None);
      }
      if host != "" {
        e := e.(host := host);
      }
      if ccPid.Some? {
        e := e.(ccPid := ccPid);
      }
      entries := entries[id := e];
    }

    /** First the zombies are listed, then dropped one by one. */
    method SweepZombies(sid: string, host: string, ccPid: Option<int>, now: int)
      modifies this
      ensures Abs() == Swept(c, old(Abs()), Zombies(old(Abs()), old(sessions).order, sid, host, ccPid), now)
    {
      hide Dropping;
      var keys, sweep := sessions.order, [];
      for j := 0 to |keys|
        invariant sweep == Zombies(Abs(), keys[..j], sid, host, ccPid)
      {
        assert keys[..j + 1][..j] == keys[..j];
        var k := keys[j];
        if k in sessions.at && sessions.at[k] in entries && IsZombie(entries[sessions.at[k]], sid, host, ccPid) {
          sweep := sweep + [entries[sessions.at[k]].sid];
        }
      }
      assert keys[..|keys|] == keys;
      for j := 0 to |sweep|
        invariant Abs() == Swept(c, old(Abs()), sweep[..j], now)
      {
        assert sweep[..j + 1][..j] == sweep[..j];
        CloseAndDrop(sweep[j], "", now);
      }
      assert sweep[..|sweep|] == sweep;
    }
  }
}
