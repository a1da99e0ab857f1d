/**
 * What happens to a mirrored session (src/hub/mirror.ts), told by the stored entries before and after a step of any run
 * whose states are consistent: which session is meant, which frames are kept, when it is dropped, and who is swept.
 */
module MirrorRules {
  import opened JsMap
  import opened MirrorSessions
  import opened Options
  import opened Timers

  function KeyOf(e: Entry): string {
    CompositeKey(e.host, e.sid)
  }

  ghost predicate Stored(s: State, id: nat) {
    IsStored(s.sessions.at, s.entries, id)
  }

  /** With a host, the session under its key; without one, the only session with the id. */
  ghost predicate Means(s: State, sid: string, host: string, id: nat) {
    && Stored(s, id)
    && if host != "" then KeyOf(s.entries[id]) == CompositeKey(host, sid)
       else s.entries[id].sid == sid && forall o :: Stored(s, o) && s.entries[o].sid == sid ==> o == id
  }

  lemma {:induction false} MeansIff(c: Config, s: State, sid: string, host: string, id: nat)
    requires Inv(c, s)
    ensures ResolveEntry(s, sid, host) == Some(id) <==> Means(s, sid, host, id)
  {
    hide TimersMatch, CompositeKey;
    if host == "" {
      OnlyOneIff(c, s, sid, id);
    }
  }

  lemma {:induction false} OnlyOneIff(c: Config, s: State, sid: string, id: nat)
    requires Inv(c, s)
    ensures EntryBySid(s, sid) == Some(id) <==> Means(s, sid, "", id)
  {
    hide TimersMatch, CompositeKey;
    var keys := KeysOf(s, sid);
    if |keys| == 1 {
      assert keys[0] in keys;
      forall o | Stored(s, o) && s.entries[o].sid == sid
        ensures KeyOf(s.entries[o]) == keys[0]
      {
        assert Carries(s.sessions.at, s.entries, KeyOf(s.entries[o]), sid);
      }
    } else if |keys| >= 2 {
      assert keys[0] in keys && keys[1] in keys;
    }
    if Stored(s, id) {
      assert Carries(s.sessions.at, s.entries, KeyOf(s.entries[id]), s.entries[id].sid);
    }
  }

  /** In every run a lookup with a host finds exactly the session under the key. */
  lemma {:induction false} LookupByHost(c: Config, inputs: seq<Input>, sid: string, host: string, id: nat)
    requires SteadyRun(c, inputs) && host != ""
    ensures
      var s := Run(c, inputs);
      && (ResolveSidLookup(s, sid, host) == Found(id) <==> Means(s, sid, host, id))
      && (ResolveSidLookup(s, sid, host) == NotFound <==> forall o :: !Means(s, sid, host, o))
  {
    RunKeeps(c, inputs);
    var s := Run(c, inputs);
    hide Run, Inv, SteadyRun, CompositeKey;
    forall o: nat
      ensures ResolveEntry(s, sid, host) == Some(o) <==> Means(s, sid, host, o)
    {
      MeansIff(c, s, sid, host, o);
    }
    hide Means;
  }

  ghost predicate SameAt(s: State, t: State, k: string) {
    && (k in t.sessions.at <==> k in s.sessions.at)
    && (k in s.sessions.at && s.sessions.at[k] in s.entries ==>
          && t.sessions.at[k] == s.sessions.at[k] && t.sessions.at[k] in t.entries
          && t.entries[t.sessions.at[k]] == s.entries[s.sessions.at[k]])
  }

  /** Nothing changes under any other key. */
  ghost predicate OthersStay(s: State, t: State, key: string) {
    forall k :: k != key ==> SameAt(s, t, k)
  }

  lemma {:induction false} OneMoreStep(c: Config, inputs: seq<Input>, i: Input)
    requires SteadyRun(c, inputs)
    ensures Run(c, inputs + [i]) == Step(c, Run(c, inputs), i) && Inv(c, Run(c, inputs)) && AllDistinct(Run(c, inputs))
  {
    RunKeeps(c, inputs);
    RunDistinct(c, inputs);
    RunOne(c, inputs, i);
  }

  /** The session that is meant, if any, is in the state asked for. */
  ghost predicate Finds(s: State, sid: string, host: string, closed: bool) {
    exists id :: Means(s, sid, host, id) && s.entries[id].closed == closed
  }

  // ----- Recording -----

  /**
   * In every run: a frame that an open session does not have yet comes last in its transcript, and of the frames the
   * newest ones are kept, as many as the ring holds; nothing else changes. Any other frame changes nothing.
   */
  lemma {:induction false} RecordedIs(c: Config, inputs: seq<Input>, sid: string, host: string, uuid: nat, id: nat)
    requires SteadyRun(c, inputs) && Means(Run(c, inputs), sid, host, id)
    ensures
      var s, t := Run(c, inputs), Run(c, inputs + [Record(sid, host, uuid)]);
      var e := s.entries[id];
      var all := e.transcript + [uuid];
      var n := if |all| <= RingSize(c) then |all| else RingSize(c);
      if e.closed || uuid in e.transcript then t == s
      else
        && t.sessions == s.sessions && t.timers == s.timers && t.sidIndex == s.sidIndex
        && t.entries == s.entries[id := e.(transcript := all[|all| - n..])]
  {
    hide Run, Inv, ResolveEntry, Means, AllDistinct, Step, SteadyRun;
    OneMoreStep(c, inputs, Record(sid, host, uuid));
    var s := Run(c, inputs);
    MeansIff(c, s, sid, host, id);
    MeansStored(s, sid, host, id);
    RecordTells(c, s, sid, host, uuid, id);
  }

  lemma MeansStored(s: State, sid: string, host: string, id: nat)
    requires Means(s, sid, host, id)
    ensures Stored(s, id)
  {
  }

  lemma RecordTells(c: Config, s: State, sid: string, host: string, uuid: nat, id: nat)
    requires ResolveEntry(s, sid, host) == Some(id) && id in s.entries
    ensures
      var t, e := Step(c, s, Record(sid, host, uuid)), s.entries[id];
      var all := e.transcript + [uuid];
      var n := if |all| <= RingSize(c) then |all| else RingSize(c);
      if e.closed || uuid in e.transcript then t == s
      else
        && t.sessions == s.sessions && t.timers == s.timers && t.sidIndex == s.sidIndex
        && t.entries == s.entries[id := e.(transcript := all[|all| - n..])]
  {
    hide ResolveEntry;
    var all := s.entries[id].transcript + [uuid];
    assert all[0..] == all && all[|all|..] == [];
  }

  /** A step that names no session, or one that is not as it needs, changes nothing. */
  lemma {:induction false} NothingMeant(c: Config, inputs: seq<Input>, sid: string, host: string, uuid: nat, now: int)
    requires SteadyRun(c, inputs)
    ensures
      var s := Run(c, inputs);
      && (!Finds(s, sid, host, false) ==> Run(c, inputs + [Record(sid, host, uuid)]) == s)
      && (!Finds(s, sid, host, false) ==> Run(c, inputs + [Close(sid, host, now)]) == s)
      && (!Finds(s, sid, host, false) && !Finds(s, sid, host, true) ==> Run(c, inputs + [Drop(sid, host, now)]) == s)
  {
    OneMoreStep(c, inputs, Record(sid, host, uuid));
    OneMoreStep(c, inputs, Close(sid, host, now));
    OneMoreStep(c, inputs, Drop(sid, host, now));
    var s := Run(c, inputs);
    hide Run, Inv, ResolveEntry, Ended, EntryDeleted, Trimmed, Means, AllDistinct;
    var found := ResolveEntry(s, sid, host);
    if found.Some? {
      MeansIff(c, s, sid, host, found.value);
      assert found.value in s.entries ==> Finds(s, sid, host, s.entries[found.value].closed);
    }
  }

  // ----- Closing, dropping, expiring -----

  /**
   * In every run: an open session that is closed gets an end frame, and is kept for the retention time, if there is
   * one.
   */
  lemma {:induction false} ClosedIs(c: Config, inputs: seq<Input>, sid: string, host: string, now: int, id: nat)
    requires SteadyRun(c, inputs) && Means(Run(c, inputs), sid, host, id) && !Run(c, inputs).entries[id].closed
    ensures
      var s, t := Run(c, inputs), Run(c, inputs + [Close(sid, host, now)]);
      var e, key := s.entries[id], KeyOf(s.entries[id]);
      && OthersStay(s, t, key) && id in t.entries
      && (exists u :: u !in e.transcript && t.entries[id].transcript == e.transcript + [u])
      && if c.retentionMs > 0 then
           && t.sessions == s.sessions && t.entries[id].closed && t.entries[id].timer == Some(s.timers.next)
           && s.timers.next in t.timers.armed && t.timers.armed[s.timers.next] == Timer(id, now + c.retentionMs)
         else key !in t.sessions.at
  {
    OneMoreStep(c, inputs, Close(sid, host, now));
    var s := Run(c, inputs);
    hide Run, ResolveEntry;
    MeansIff(c, s, sid, host, id);
    FreshFrame(s, id);
    hide AllDistinct, NoDup, Without, TimersMatch, IndexExact, CompositeKey;
    assert s.nextUuid !in s.entries[id].transcript;
    var t := Run(c, inputs + [Close(sid, host, now)]);
    assert t.entries[id].transcript == s.entries[id].transcript + [s.nextUuid];
  }

  lemma FreshFrame(s: State, id: nat)
    requires AllDistinct(s) && id in s.entries
    ensures s.nextUuid !in s.entries[id].transcript
  {
  }

  /** In every run: a session that is dropped is gone, whether it was open or closed. */
  lemma {:induction false} DroppedIs(c: Config, inputs: seq<Input>, sid: string, host: string, now: int, id: nat)
    requires SteadyRun(c, inputs) && Means(Run(c, inputs), sid, host, id)
    ensures
      var s, t := Run(c, inputs), Run(c, inputs + [Drop(sid, host, now)]);
      var key := KeyOf(s.entries[id]);
      && OthersStay(s, t, key) && key !in t.sessions.at
      && forall h :: h in t.timers.armed ==> t.timers.armed[h].owner != id
  {
    OneMoreStep(c, inputs, Drop(sid, host, now));
    var s := Run(c, inputs);
    hide Run, AllDistinct;
    MeansIff(c, s, sid, host, id);
    DropTells(c, s, sid, host, now, id);
    hide Inv, Dropping, ResolveEntry, Means, OthersStay;
  }

  lemma {:induction false} DropTells(c: Config, s: State, sid: string, host: string, now: int, id: nat)
    requires Inv(c, s) && ResolveEntry(s, sid, host) == Some(id) && Stored(s, id)
    ensures
      var t, key := Dropping(c, s, sid, host, now), KeyOf(s.entries[id]);
      && OthersStay(s, t, key) && t.sessions.at == s.sessions.at - {key}
      && (forall o :: o in s.entries && o != id ==> o in t.entries && t.entries[o] == s.entries[o])
      && forall h :: h in t.timers.armed ==> t.timers.armed[h].owner != id
  {
    DroppingKeeps(c, s, sid, host, now);
    DropShape(c, s, sid, host, now, id);
    hide Dropping, ResolveEntry, NoDup, Without, IndexExact, CompositeKey;
    var t := Dropping(c, s, sid, host, now);
    forall h | h in t.timers.armed
      ensures t.timers.armed[h].owner != id
    {
      assert TimerOwned(t.sessions.at, t.entries, h, t.timers.armed[h].owner);
    }
  }

  lemma DropShape(c: Config, s: State, sid: string, host: string, now: int, id: nat)
    requires ResolveEntry(s, sid, host) == Some(id) && Stored(s, id)
    ensures
      var t, key := Dropping(c, s, sid, host, now), KeyOf(s.entries[id]);
      && t.sessions.at == s.sessions.at - {key} && t.entries.Keys == s.entries.Keys
      && (forall o :: o in s.entries && o != id ==> t.entries[o] == s.entries[o])
      && t.entries[id].host == s.entries[id].host && t.entries[id].sid == s.entries[id].sid
  {
    hide ResolveEntry, NoDup, Without, CompositeKey;
  }

  /** In every run: when the retention timer of a session fires, the session is gone. */
  lemma {:induction false} ExpiredIs(c: Config, inputs: seq<Input>, timer: nat, now: int)
    requires SteadyRun(c, inputs) && Run(c, inputs).timers.CanFire(timer, now)
    ensures
      var s, t := Run(c, inputs), Run(c, inputs + [Fire(timer, now)]);
      var id := s.timers.armed[timer].owner;
      && Stored(s, id) && s.entries[id].closed
      && OthersStay(s, t, KeyOf(s.entries[id])) && KeyOf(s.entries[id]) !in t.sessions.at
  {
    OneMoreStep(c, inputs, Fire(timer, now));
    var s := Run(c, inputs);
    hide Run, AllDistinct, IndexExact, NoDup, Without, CompositeKey;
    assert TimerOwned(s.sessions.at, s.entries, timer, s.timers.armed[timer].owner);
  }

  // ----- Creating -----

  /** The announcement only guesses the session from the newest file, and another process has closed it. */
  predicate IsGuess(e: Entry, ccPid: Option<int>, mtime: bool) {
    e.closed && mtime && ccPid != None && e.ccPid != None && e.ccPid != ccPid
  }

  /**
   * In every run: a session that is announced again is reopened with the identity it announces, unless it is a guess.
   */
  lemma {:induction false} AnnouncedAgain(c: Config, inputs: seq<Input>, sid: string, host: string, ccPid: Option<int>,
                                          mtime: bool, now: int, id: nat)
    requires SteadyRun(c, inputs) && Means(Run(c, inputs), sid, host, id)
    ensures
      var s, t := Run(c, inputs), Run(c, inputs + [Create(sid, host, ccPid, mtime, now)]);
      var e := s.entries[id];
      if IsGuess(e, ccPid, mtime) then t == s
      else
        && t.sessions == s.sessions && t.sidIndex == s.sidIndex
        && t.timers.armed == (if e.closed && e.timer.Some? then s.timers.armed - {e.timer.value} else s.timers.armed)
        && t.entries == s.entries[id := Entry(e.sid, if host != "" then host else e.host,
                                              if ccPid != None then ccPid else e.ccPid, false,
                                              if e.closed then None else e.timer, e.transcript)]
  {
    OneMoreStep(c, inputs, Create(sid, host, ccPid, mtime, now));
    hide Run, Inv, ResolveEntry, AllDistinct;
    MeansIff(c, Run(c, inputs), sid, host, id);
    hide Means, Zombies, Swept;
  }

  /** An open entry of the same process that never got a frame, under another id that no other host has. */
  ghost predicate IsSwept(s: State, k: string, sid: string, host: string, ccPid: Option<int>) {
    && host != "" && ccPid != None && k in s.sessions.at && s.sessions.at[k] in s.entries
    && var e := s.entries[s.sessions.at[k]];
       && !e.closed && e.host == host && e.ccPid == ccPid && e.transcript == [] && e.sid != sid
       && forall o :: Stored(s, o) && s.entries[o].sid == e.sid ==> o == s.sessions.at[k]
  }

  lemma {:induction false} ZombiesAre(s: State, keys: seq<string>, sid: string, host: string, ccPid: Option<int>,
                                      x: string)
    ensures x in Zombies(s, keys, sid, host, ccPid) <==>
            exists k :: k in keys && k in s.sessions.at && s.sessions.at[k] in s.entries
                        && IsZombie(s.entries[s.sessions.at[k]], sid, host, ccPid)
                        && s.entries[s.sessions.at[k]].sid == x
  {
    hide IsZombie;
    if keys != [] {
      var p := keys[..|keys| - 1];
      ZombiesAre(s, p, sid, host, ccPid, x);
      assert keys == p + [keys[|keys| - 1]];
    }
  }

  ghost predicate OnlyHolder(s: State, id: nat)
    requires id in s.entries
  {
    forall o :: Stored(s, o) && s.entries[o].sid == s.entries[id].sid ==> o == id
  }

  /** The session under this key is among those to be dropped by their ids, and its id means no other. */
  ghost predicate Goes(s: State, k: string, sids: seq<string>) {
    && k in s.sessions.at && s.sessions.at[k] in s.entries
    && s.entries[s.sessions.at[k]].sid in sids && OnlyHolder(s, s.sessions.at[k])
  }

  ghost predicate SweptTo(s: State, u: State, sids: seq<string>) {
    && u.nextEntry == s.nextEntry && u.sessions.at.Keys <= s.sessions.at.Keys
    && forall k :: k in s.sessions.at ==> if Goes(s, k, sids) then k !in u.sessions.at else SameAt(s, u, k)
  }

  lemma StoredBefore(c: Config, s: State, u: State, sids: seq<string>, o: nat)
    requires Inv(c, s) && SweptTo(s, u, sids) && Stored(u, o)
    ensures Stored(s, o) && u.entries[o] == s.entries[o] && !Goes(s, KeyOf(s.entries[o]), sids)
  {
    hide NoDup, TimersMatch, IndexExact, CompositeKey;
    var k := KeyOf(u.entries[o]);
    assert SameAt(s, u, k);
  }

  lemma StoredStill(c: Config, s: State, u: State, sids: seq<string>, o: nat)
    requires Inv(c, s) && SweptTo(s, u, sids) && Stored(s, o) && !Goes(s, KeyOf(s.entries[o]), sids)
    ensures Stored(u, o) && u.entries[o] == s.entries[o]
  {
    hide NoDup, TimersMatch, IndexExact, CompositeKey, Goes;
    assert SameAt(s, u, KeyOf(s.entries[o]));
  }

  /**
   * An id means a session after some were dropped exactly if it meant that session before, and has not been dropped.
   */
  lemma {:induction false} MeansStill(c: Config, s: State, u: State, sids: seq<string>, x: string, id: nat)
    requires Inv(c, s) && SweptTo(s, u, sids)
    ensures Means(u, x, "", id) <==> Means(s, x, "", id) && x !in sids
  {
    hide Inv, SweptTo, SameAt, CompositeKey;
    if Means(s, x, "", id) && x !in sids {
      StoredStill(c, s, u, sids, id);
      forall o | Stored(u, o) && u.entries[o].sid == x
        ensures o == id
      {
        StoredBefore(c, s, u, sids, o);
      }
    }
    if Means(u, x, "", id) {
      StoredBefore(c, s, u, sids, id);
      forall o | Stored(s, o) && s.entries[o].sid == x
        ensures o == id
      {
        if Goes(s, KeyOf(s.entries[o]), sids) {
          StoredHere(s, o);
        } else {
          StoredStill(c, s, u, sids, o);
        }
      }
      StoredHere(s, id);
    }
  }

  lemma StoredHere(s: State, o: nat)
    requires Stored(s, o)
    ensures KeyOf(s.entries[o]) in s.sessions.at && s.sessions.at[KeyOf(s.entries[o])] == o
  {
  }

  lemma SameTwice(s: State, u: State, t: State, k: string)
    requires SameAt(s, u, k) && SameAt(u, t, k)
    ensures SameAt(s, t, k)
  {
  }

  lemma GoesMore(s: State, k: string, sids: seq<string>, x: string)
    ensures Goes(s, k, sids + [x]) <==>
              || Goes(s, k, sids)
              || (&& k in s.sessions.at && s.sessions.at[k] in s.entries
                  && s.entries[s.sessions.at[k]].sid == x && OnlyHolder(s, s.sessions.at[k]))
  {
    hide OnlyHolder;
  }

  lemma UnderKey(c: Config, s: State, k: string)
    requires Inv(c, s) && k in s.sessions.at
    ensures s.sessions.at[k] in s.entries && KeyOf(s.entries[s.sessions.at[k]]) == k && Stored(s, s.sessions.at[k])
  {
    hide NoDup, TimersMatch, IndexExact, CompositeKey;
  }

  /** `u` with the session that the id `x` means, if any, taken out. */
  ghost predicate TakesOut(u: State, t: State, x: string) {
    && t.sessions.at.Keys <= u.sessions.at.Keys
    && (forall id :: Means(u, x, "", id) ==>
          OthersStay(u, t, KeyOf(u.entries[id])) && KeyOf(u.entries[id]) !in t.sessions.at)
    && ((forall id :: !Means(u, x, "", id)) ==> t == u)
  }

  lemma {:induction false} DropTakesOut(c: Config, u: State, x: string, now: int)
    requires Inv(c, u)
    ensures TakesOut(u, Dropping(c, u, x, "", now), x)
  {
    DroppingMoves(c, u, x, "", now);
    hide Inv, Dropping, ResolveEntry, Means, AllMoved, OthersStay;
    var t, found := Dropping(c, u, x, "", now), ResolveEntry(u, x, "");
    MovedKeys(u, t);
    forall id: nat
      ensures found == Some(id) <==> Means(u, x, "", id)
    {
      MeansIff(c, u, x, "", id);
    }
    if found.Some? {
      MeansStored(u, x, "", found.value);
      DropTells(c, u, x, "", now, found.value);
    } else {
      NothingDropped(c, u, x, now);
    }
  }

  lemma MovedKeys(s: State, t: State)
    requires AllMoved(s, t)
    ensures t.sessions.at.Keys <= s.sessions.at.Keys && t.nextEntry == s.nextEntry
  {
  }

  lemma NothingDropped(c: Config, u: State, x: string, now: int)
    requires ResolveEntry(u, x, "").None?
    ensures Dropping(c, u, x, "", now) == u
  {
    hide ResolveEntry;
  }

  lemma {:induction false} SweepKey(c: Config, s: State, u: State, t: State, sids: seq<string>, x: string, k: string)
    requires Inv(c, s) && SweptTo(s, u, sids) && TakesOut(u, t, x) && k in s.sessions.at
    ensures if Goes(s, k, sids + [x]) then k !in t.sessions.at else SameAt(s, t, k)
  {
    var id := s.sessions.at[k];
    UnderKey(c, s, k);
    GoesMore(s, k, sids, x);
    MeansStill(c, s, u, sids, x, id);
    hide Inv, Goes, SameAt;
    if !Goes(s, k, sids) {
      if s.entries[id].sid == x && OnlyHolder(s, id) {
        assert x !in sids by { InSids(s, k, sids); }
        StoredStill(c, s, u, sids, id);
      } else {
        forall o | Means(u, x, "", o)
          ensures KeyOf(u.entries[o]) != k
        {
          MeansStill(c, s, u, sids, x, o);
          StoredBefore(c, s, u, sids, o);
          StoredHere(s, o);
        }
        KeyStays(s, u, t, x, k);
      }
    }
  }

  lemma InSids(s: State, k: string, sids: seq<string>)
    requires k in s.sessions.at && s.sessions.at[k] in s.entries && OnlyHolder(s, s.sessions.at[k]) && !Goes(s, k, sids)
    ensures s.entries[s.sessions.at[k]].sid !in sids
  {
  }

  lemma KeyStays(s: State, u: State, t: State, x: string, k: string)
    requires TakesOut(u, t, x) && SameAt(s, u, k)
    requires forall o :: Means(u, x, "", o) ==> KeyOf(u.entries[o]) != k
    ensures SameAt(s, t, k)
  {
    hide Means, SameAt;
    if o :| Means(u, x, "", o) {
      SameTwice(s, u, t, k);
    }
  }

  lemma {:induction false} SweepOne(c: Config, s: State, u: State, sids: seq<string>, x: string, now: int)
    requires Inv(c, s) && Inv(c, u) && SweptTo(s, u, sids)
    ensures SweptTo(s, Dropping(c, u, x, "", now), sids + [x])
  {
    var t := Dropping(c, u, x, "", now);
    DroppingMoves(c, u, x, "", now);
    MovedKeys(u, t);
    DropTakesOut(c, u, x, now);
    hide Dropping, Inv, AllMoved, Goes, SameAt, TakesOut;
    forall k | k in s.sessions.at
      ensures if Goes(s, k, sids + [x]) then k !in t.sessions.at else SameAt(s, t, k)
    {
      SweepKey(c, s, u, t, sids, x, k);
    }
  }

  lemma {:induction false} SweptIs(c: Config, s: State, sids: seq<string>, now: int)
    requires Inv(c, s)
    ensures SweptTo(s, Swept(c, s, sids, now), sids)
  {
    hide Inv, Dropping, SweptTo;
    if sids == [] {
      NoneSwept(s);
    } else {
      var p, x := sids[..|sids| - 1], sids[|sids| - 1];
      assert sids == p + [x];
      SweptIs(c, s, p, now);
      SweptKeeps(c, s, p, now);
      SweepOne(c, s, Swept(c, s, p, now), p, x, now);
    }
  }

  lemma NoneSwept(s: State)
    ensures SweptTo(s, s, [])
  {
  }

  /** The session under this key is swept when a session is created. */
  lemma {:induction false} GoesIff(c: Config, s: State, sid: string, host: string, ccPid: Option<int>, k: string)
    requires Inv(c, s) && host != "" && ccPid != None
    ensures Goes(s, k, Zombies(s, s.sessions.order, sid, host, ccPid)) <==>
            exists z :: IsZombieAt(s, z, sid, host, ccPid) && k in s.sessions.at && s.sessions.at[k] in s.entries
                        && s.entries[s.sessions.at[z]].sid == s.entries[s.sessions.at[k]].sid
                        && OnlyHolder(s, s.sessions.at[k])
  {
    hide NoDup, TimersMatch, IndexExact, CompositeKey, OnlyHolder;
    if k in s.sessions.at && s.sessions.at[k] in s.entries {
      ZombiesAre(s, s.sessions.order, sid, host, ccPid, s.entries[s.sessions.at[k]].sid);
    }
    hide Zombies;
  }

  ghost predicate IsZombieAt(s: State, z: string, sid: string, host: string, ccPid: Option<int>) {
    && z in s.sessions.at && s.sessions.at[z] in s.entries
    && IsZombie(s.entries[s.sessions.at[z]], sid, host, ccPid)
  }

  lemma {:induction false} SweptIff(c: Config, s: State, sid: string, host: string, ccPid: Option<int>, k: string)
    requires Inv(c, s) && host != "" && ccPid != None
    ensures Goes(s, k, Zombies(s, s.sessions.order, sid, host, ccPid)) <==> IsSwept(s, k, sid, host, ccPid)
  {
    GoesIff(c, s, sid, host, ccPid, k);
    if k in s.sessions.at {
      UnderKey(c, s, k);
    }
    forall z | IsZombieAt(s, z, sid, host, ccPid)
      ensures Stored(s, s.sessions.at[z])
    {
      UnderKey(c, s, z);
    }
    hide Inv, Goes, Zombies, IsStored, CompositeKey;
    if IsSwept(s, k, sid, host, ccPid) {
      assert IsZombieAt(s, k, sid, host, ccPid);
    }
  }

  lemma {:induction false} SweptAt(c: Config, s: State, u: State, sids: seq<string>, sid: string, host: string,
                                   ccPid: Option<int>, now: int, k: string)
    requires Inv(c, s) && sids == Zombies(s, s.sessions.order, sid, host, ccPid)
    requires u == if host != "" && ccPid.Some? then Swept(c, s, sids, now) else s
    ensures if IsSwept(s, k, sid, host, ccPid) then k !in u.sessions.at else SameAt(s, u, k)
    ensures u.nextEntry == s.nextEntry
  {
    if host != "" && ccPid.Some? {
      SweptIs(c, s, sids, now);
      SweptIff(c, s, sid, host, ccPid, k);
      hide Inv, Zombies, Swept, Goes;
    }
  }

  lemma SweptStays(u: State, t: State, k: string)
    ensures SameAt(u, t, k) && k !in u.sessions.at ==> k !in t.sessions.at
  {
  }

  lemma SameEntries(s: State, t: State)
    requires AllMoved(s, t)
    ensures t.entries.Keys == s.entries.Keys && t.nextEntry == s.nextEntry
  {
  }

  lemma SetTells(u: State, sid: string, host: string, e: Entry, k: string)
    requires e.sid == sid && e.host == host && u.nextEntry !in u.entries
    ensures
      var t, key := EntrySet(u, u.nextEntry, e).(nextEntry := u.nextEntry + 1), CompositeKey(host, sid);
      && key in t.sessions.at && t.sessions.at[key] == u.nextEntry
      && u.nextEntry in t.entries && t.entries[u.nextEntry] == e
      && (k != key ==> SameAt(u, t, k))
  {
    hide CompositeKey;
  }

  /**
   * In every run: a session that is announced for the first time gets an entry of its own; the open entries of the same
   * process on the host that never got a frame go, unless another host has their id; everything else stays.
   */
  lemma {:induction false} AnnouncedFirst(c: Config, inputs: seq<Input>, sid: string, host: string, ccPid: Option<int>,
                                          mtime: bool, now: int)
    requires SteadyRun(c, inputs) && forall id :: !Means(Run(c, inputs), sid, host, id)
    ensures
      var s, t := Run(c, inputs), Run(c, inputs + [Create(sid, host, ccPid, mtime, now)]);
      var key := CompositeKey(host, sid);
      && key in t.sessions.at && t.sessions.at[key] == s.nextEntry && s.nextEntry !in s.entries
      && s.nextEntry in t.entries && t.entries[s.nextEntry] == Entry(sid, host, ccPid, false, None, [])
      && forall k :: k != key ==>
           if IsSwept(s, k, sid, host, ccPid) then k !in t.sessions.at else SameAt(s, t, k)
  {
    OneMoreStep(c, inputs, Create(sid, host, ccPid, mtime, now));
    var s := Run(c, inputs);
    hide Run;
    var found := ResolveEntry(s, sid, host);
    if found.Some? {
      MeansIff(c, s, sid, host, found.value);
    }
    FreeEntry(s);
    hide AllDistinct, Inv, ResolveEntry, Means;
    var sids := Zombies(s, s.sessions.order, sid, host, ccPid);
    var u := if host != "" && ccPid.Some? then Swept(c, s, sids, now) else s;
    var e := Entry(sid, host, ccPid, false, None, []);
    var t := EntrySet(u, u.nextEntry, e).(nextEntry := u.nextEntry + 1);
    assert Run(c, inputs + [Create(sid, host, ccPid, mtime, now)]) == t;
    SweptMoves(c, s, sids, now);
    SameEntries(s, Swept(c, s, sids, now));
    SweptAt(c, s, u, sids, sid, host, ccPid, now, "");
    SetTells(u, sid, host, e, "");
    hide Zombies, Swept, IsSwept, SameAt, Goes, CompositeKey, EntrySet, AllMoved;
    forall k: string
      ensures k != CompositeKey(host, sid) ==>
                if IsSwept(s, k, sid, host, ccPid) then k !in t.sessions.at else SameAt(s, t, k)
    {
      SweptAt(c, s, u, sids, sid, host, ccPid, now, k);
      SetTells(u, sid, host, e, k);
      if k != CompositeKey(host, sid) && SameAt(s, u, k) {
        SameTwice(s, u, t, k);
      }
      SweptStays(u, t, k);
    }
  }
}
