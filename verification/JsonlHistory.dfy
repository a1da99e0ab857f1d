/**
 * Reading old records back from a transcript (src/mirror-agent/jsonl-history.ts): the last `limit` records before a
 * cutoff, found in one pass over the file with a ring of `limit` slots. However the file comes in chunks, the answer
 * depends on its text alone.
 */
module JsonlHistory {
  import opened Text
  import opened Options
  import opened RingIndex

  /** What `JSON.parse` makes of a line: a record, whose timestamp may be missing or unreadable. */
  datatype Json = Invalid | Null | Record(timestamp: Option<int>, body: string)

  datatype History = History(records: seq<Json>, exhausted: bool) | Throws

  const READ_CHUNK := 64 * 1024

  // ----- What is asked for -----

  /** The values of the lines that parse, in file order; empty lines and unreadable ones are passed over. */
  function Parsed(parse: string -> Json, ls: seq<string>): seq<Json> {
    if ls == [] then []
    else
      var l := ls[|ls| - 1];
      Parsed(parse, ls[..|ls| - 1]) + if l == "" || parse(l).Invalid? then [] else [parse(l)]
  }

  /** A record at which reading stops, or fails: `null` has no timestamp to look at. */
  predicate Halts(j: Json, beforeTs: Option<int>) {
    beforeTs.Some? && (j.Null? || (j.Record? && j.timestamp.Some? && j.timestamp.value >= beforeTs.value))
  }

  /** The records before the first one that halts the reading. */
  function Before(records: seq<Json>, beforeTs: Option<int>): (r: seq<Json>)
    ensures r <= records
    ensures forall j :: j in r ==> !Halts(j, beforeTs)
    ensures r != records ==> Halts(records[|r|], beforeTs)
  {
    if records == [] || Halts(records[0], beforeTs) then []
    else [records[0]] + Before(records[1..], beforeTs)
  }

  function LastOf<T>(s: seq<T>, n: int): seq<T> {
    if 0 <= n < |s| then s[|s| - n..] else s
  }

  /** The whole answer, as a function of the file and the request alone. */
  function Answer(file: Option<string>, parse: string -> Json, beforeTs: Option<int>, limit: int): History {
    if limit <= 0 || file.None? then History([], true)
    else
      var records := Parsed(parse, Lines(file.value));
      var before := Before(records, beforeTs);
      if before != records && records[|before|].Null? then Throws
      else History(LastOf(before, limit), |before| < limit)
  }

  // ----- Properties of the answer -----

  /** Asked without a cutoff, the end of the file is returned, oldest first, and nothing throws. */
  lemma {:induction false} NoCutoffKeepsAll(records: seq<Json>)
    ensures Before(records, None) == records
  {
    if records != [] {
      NoCutoffKeepsAll(records[1..]);
    }
  }

  /** The last records before the cutoff are older than it. */
  lemma {:induction false} LastAreOlder(records: seq<Json>, beforeTs: int, limit: int)
    requires limit > 0 && forall j :: j in records ==> !j.Invalid?
    ensures
      var before := Before(records, Some(beforeTs));
      var kept := LastOf(before, limit);
      && (forall j :: j in kept ==> j.Record? && (j.timestamp.None? || j.timestamp.value < beforeTs))
      && |kept| <= limit && |kept| <= |before| && kept == before[|before| - |kept|..]
      && (|before| < limit ==> kept == before)
  {
    var before := Before(records, Some(beforeTs));
    var kept := LastOf(before, limit);
    hide Before;
    forall j | j in kept
      ensures j.Record? && (j.timestamp.None? || j.timestamp.value < beforeTs)
    {
      var k :| 0 <= k < |kept| && kept[k] == j;
      assert j == before[|before| - |kept| + k] == records[|before| - |kept| + k];
      assert j in before && j in records;
      assert !Halts(j, Some(beforeTs));
    }
  }

  /** Nothing returned is stamped at or after the cutoff, and `exhausted` tells whether more is to be had. */
  lemma {:induction false} AnswerIsOlder(file: string, parse: string -> Json, beforeTs: int, limit: int)
    requires limit > 0
    requires Answer(Some(file), parse, Some(beforeTs), limit).History?
    ensures
      var a := Answer(Some(file), parse, Some(beforeTs), limit);
      var before := Before(Parsed(parse, Lines(file)), Some(beforeTs));
      && (forall j :: j in a.records ==> j.Record? && (j.timestamp.None? || j.timestamp.value < beforeTs))
      && |a.records| <= limit && |a.records| <= |before|
      && a.records == before[|before| - |a.records|..]
      && (a.exhausted <==> |before| < limit) && (a.exhausted ==> a.records == before)
  {
    hide Lines, Rest, Parsed, Before, LastOf;
    ParsedNeverInvalid(parse, Lines(file));
    LastAreOlder(Parsed(parse, Lines(file)), beforeTs, limit);
  }

  lemma {:induction false} ParsedNeverInvalid(parse: string -> Json, ls: seq<string>)
    ensures forall j :: j in Parsed(parse, ls) ==> !j.Invalid?
  {
    if ls != [] {
      ParsedNeverInvalid(parse, ls[..|ls| - 1]);
    }
  }

  /** Reading on in the file only appends to what was read, so a stop once found stays the stop. */
  lemma {:induction false} BeforeOfPrefix(a: seq<Json>, b: seq<Json>, beforeTs: Option<int>)
    ensures Before(a, beforeTs) != a ==> Before(a + b, beforeTs) == Before(a, beforeTs)
    ensures Before(a, beforeTs) == a ==> Before(a + b, beforeTs) == a + Before(b, beforeTs)
  {
    if a == [] {
      assert a + b == b;
    } else {
      assert (a + b)[1..] == a[1..] + b;
      BeforeOfPrefix(a[1..], b, beforeTs);
    }
  }

  lemma {:induction false} ParsedConcat(parse: string -> Json, a: seq<string>, b: seq<string>)
    ensures Parsed(parse, a + b) == Parsed(parse, a) + Parsed(parse, b)
    decreases |b|
  {
    if b == [] {
      assert a + b == a;
    } else {
      var p := b[..|b| - 1];
      assert (a + b)[..|a + b| - 1] == a + p;
      ParsedConcat(parse, a, p);
      AppendAssoc(Parsed(parse, a), Parsed(parse, p), Parsed(parse, b)[|Parsed(parse, p)|..]);
    }
  }

  /** The record stands at or after the cutoff, or is a `null` that has no timestamp to ask for. */
  predicate IsAtCutoff(j: Json, cutoff: int) {
    j == Null || (j.Record? && j.timestamp != None && j.timestamp.value >= cutoff)
  }

  /** What comes before the cutoff: everything up to the first record at or after it, or at a `null`. */
  lemma {:induction false} BeforeIs(records: seq<Json>, cutoff: int, n: nat)
    requires n <= |records|
    ensures Before(records, Some(cutoff)) == records[..n] <==>
            && (forall i :: 0 <= i < n ==> !IsAtCutoff(records[i], cutoff))
            && (n < |records| ==> IsAtCutoff(records[n], cutoff))
  {
    var before := Before(records, Some(cutoff));
    assert forall j :: Halts(j, Some(cutoff)) <==> IsAtCutoff(j, cutoff);
    hide Before, Halts, IsAtCutoff;
    assert |before| <= |records| && before == records[..|before|];
    forall i | 0 <= i < |before|
      ensures !IsAtCutoff(records[i], cutoff)
    {
      assert records[i] == before[i] && before[i] in before;
    }
    assert |records[..n]| == n;
  }

  /** A line is passed over if it is empty or no JSON; all others give their value, in order. */
  lemma {:induction false} ParsedIs(parse: string -> Json, a: seq<string>, line: string, b: seq<string>)
    ensures Parsed(parse, a + [line] + b) ==
            Parsed(parse, a) + (if line != "" && parse(line) != Invalid then [parse(line)] else []) + Parsed(parse, b)
  {
    ParsedConcat(parse, a, [line]);
    ParsedConcat(parse, a + [line], b);
    assert [line][..0] == [];
  }

  /** At place n there is a `null`, and nothing before it stands at or after the cutoff. */
  predicate IsNullFirst(records: seq<Json>, cutoff: int, n: nat) {
    n < |records| && records[n] == Null && forall i :: 0 <= i < n ==> !IsAtCutoff(records[i], cutoff)
  }

  lemma {:induction false} NullFirst(records: seq<Json>, cutoff: int, n: nat)
    requires n < |records|
    ensures IsNullFirst(records, cutoff, n) <==> Before(records, Some(cutoff)) == records[..n] && records[n] == Null
  {
    BeforeIs(records, cutoff, n);
    hide Before;
  }

  /** With a cutoff, reading fails exactly if it comes to a `null` before any record at or after the cutoff. */
  lemma {:induction false} ThrowsIff(file: string, parse: string -> Json, cutoff: int, limit: int)
    requires limit > 0
    ensures Answer(Some(file), parse, Some(cutoff), limit).Throws? <==>
            MeetsNull(Parsed(parse, Lines(file)), cutoff)
  {
    hide Lines, Parsed, Before, LastOf, MeetsNull;
    MeetsNullIff(Parsed(parse, Lines(file)), cutoff);
  }

  /** There is a `null` before any record at or after the cutoff. */
  ghost predicate MeetsNull(records: seq<Json>, cutoff: int) {
    exists n: nat :: IsNullFirst(records, cutoff, n)
  }

  lemma {:induction false} MeetsNullIff(records: seq<Json>, cutoff: int)
    ensures
      var before := Before(records, Some(cutoff));
      MeetsNull(records, cutoff) <==> before != records && records[|before|].Null?
  {
    hide Before, IsNullFirst, IsAtCutoff;
    var before := Before(records, Some(cutoff));
    assert before == records[..|before|];
    if before != records {
      NullFirst(records, cutoff, |before|);
    }
    forall n: nat | IsNullFirst(records, cutoff, n)
      ensures before != records && records[|before|] == Null
    {
      NullInside(records, cutoff, n);
      NullFirst(records, cutoff, n);
      assert |records[..n]| == n;
    }
  }

  lemma NullInside(records: seq<Json>, cutoff: int, n: nat)
    requires IsNullFirst(records, cutoff, n)
    ensures n < |records|
  {
  }

  // ----- The ring of the newest records -----

  /** The ring holds the newest records pushed, `|kept|` of them, oldest first, ending before `head`. */
  ghost predicate Holds(ring: seq<Json>, head: nat, kept: seq<Json>) {
    && head < |ring| && |kept| <= |ring|
    && (|kept| < |ring| ==> head == |kept|)
    && (|kept| < |ring| ==> kept == ring[..head])
    && (|kept| == |ring| ==> kept == ring[head..] + ring[..head])
  }

  /** While there are free slots, the new record takes the next one. */
  lemma {:induction false} PushGrows(ring: seq<Json>, head: nat, kept: seq<Json>, rec: Json)
    requires Holds(ring, head, kept) && |kept| < |ring|
    ensures Holds(ring[head := rec], Wrap(head + 1, |ring|), kept + [rec])
  {
    var now := ring[head := rec];
    assert now[..head + 1] == ring[..head] + [rec];
    if |kept| + 1 == |ring| {
      assert now[0..] + now[..0] == now[..head + 1];
    }
  }

  /** Once all slots are taken, it takes the one of the oldest record. */
  lemma {:induction false} PushWraps(ring: seq<Json>, head: nat, kept: seq<Json>, rec: Json)
    requires Holds(ring, head, kept) && |kept| == |ring|
    ensures Holds(ring[head := rec], Wrap(head + 1, |ring|), kept[1..] + [rec])
  {
    var now := ring[head := rec];
    assert kept[1..] == ring[head + 1..] + ring[..head];
    assert now[head + 1..] == ring[head + 1..] && now[..head + 1] == ring[..head] + [rec];
    assert head + 1 == |ring| ==> now[0..] + now[..0] == ring[..head] + [rec];
  }

  lemma {:induction false} LastAfterPush<T>(pushed: seq<T>, rec: T, n: nat)
    requires n > 0
    ensures
      var kept := LastOf(pushed, n);
      LastOf(pushed + [rec], n) == if |kept| < n then kept + [rec] else kept[1..] + [rec]
  {
  }

  lemma HoldsAt(ring: seq<Json>, head: nat, kept: seq<Json>, i: nat)
    requires Holds(ring, head, kept) && i < |kept|
    ensures
      var start := Wrap(head + |ring| - |kept|, |ring|);
      Wrap(start + i, |ring|) < |ring| && ring[Wrap(start + i, |ring|)] == kept[i]
  {
  }

  class Ring {
    const ring: array<Json>
    var ringHead: nat
    var ringSize: nat
    ghost var pushed: seq<Json>

    ghost predicate Valid()
      reads this, ring
    {
      && ring.Length > 0
      && ringSize == |LastOf(pushed, ring.Length)|
      && Holds(ring[..], ringHead, LastOf(pushed, ring.Length))
    }

    constructor (limit: nat)
      requires limit > 0
      ensures Valid() && fresh(ring) && ring.Length == limit && pushed == []
    {
      ring := new Json[limit](_ => Invalid);
      ringHead, ringSize, pushed := 0, 0, [];
    }

    method Push(rec: Json)
      requires Valid()
      modifies this, ring
      ensures Valid() && pushed == old(pushed) + [rec]
    {
      hide Holds, LastOf;
      ghost var kept := LastOf(pushed, ring.Length);
      HoldsBounds(ring[..], ringHead, kept);
      LastAfterPush(pushed, rec, ring.Length);
      if ringSize < ring.Length {
        PushGrows(ring[..], ringHead, kept, rec);
      } else {
        PushWraps(ring[..], ringHead, kept, rec);
      }
      ModIsWrap(ringHead + 1, ring.Length);
      ghost var now := ring[..][ringHead := rec];
      ring[ringHead] := rec;
      assert ring[..] == now;
      ringHead := (ringHead + 1) % ring.Length;
      if ringSize < ring.Length {
        ringSize := ringSize + 1;
      }
      pushed := pushed + [rec];
    }

    method Drain() returns (out: seq<Json>)
      requires Valid()
      ensures out == LastOf(pushed, ring.Length) && |out| == ringSize
    {
      hide Holds;
      ghost var kept := LastOf(pushed, ring.Length);
      HoldsBounds(ring[..], ringHead, kept);
      out := [];
      ModIsWrap(ringHead + ring.Length - ringSize, ring.Length);
      var start := (ringHead - ringSize + ring.Length) % ring.Length;
      for i := 0 to ringSize
        invariant out == kept[..i]
      {
        HoldsAt(ring[..], ringHead, kept, i);
        ModIsWrap(start + i, ring.Length);
        out := out + [ring[(start + i) % ring.Length]];
      }
    }
  }

  lemma HoldsBounds(ring: seq<Json>, head: nat, kept: seq<Json>)
    requires Holds(ring, head, kept)
    ensures head < |ring| && |kept| <= |ring|
  {
  }

  // ----- Reading the file -----

  /** Where the reading stands after one chunk. */
  datatype Outcome = Continue | Stop | Fail

  class Reader {
    const parse: string -> Json
    const beforeTs: Option<int>
    const kept: Ring
    var lineBuf: string
    /** The lines cut so far. */
    ghost var done: seq<string>

    constructor (parse: string -> Json, beforeTs: Option<int>, limit: nat)
      requires limit > 0
      ensures Valid() && fresh(kept) && fresh(kept.ring) && kept.ring.Length == limit
      ensures this.parse == parse && this.beforeTs == beforeTs && lineBuf == "" && done == []
    {
      this.parse, this.beforeTs := parse, beforeTs;
      kept := new Ring(limit);
      lineBuf, done := "", [];
    }

    /** Nothing met so far halts the reading, and all of it went into the ring. */
    ghost predicate Valid()
      reads this, kept, kept.ring
    {
      && kept.Valid()
      && kept.pushed == Parsed(parse, done)
      && Before(kept.pushed, beforeTs) == kept.pushed
    }

    /** Reads on until the file ends or a record halts the reading; `sizes` says what each read returns. */
    method ReadThrough(file: string, sizes: nat -> nat) returns (o: Outcome)
      requires Valid() && done == [] && lineBuf == ""
      modifies this, kept, kept.ring
      ensures kept.Valid()
      ensures o == Continue ==>
                kept.pushed == Parsed(parse, Lines(file)) && Before(kept.pushed, beforeTs) == kept.pushed
      ensures o != Continue ==> Halted(parse, Lines(file), beforeTs, kept.pushed, o)
    {
      hide Lines, Rest, Parsed, Before, Holds, Halted, LastOf, Ring.Valid;
      var pos := 0;
      o := Continue;
      assert file[..0] == "";
      NothingRead();
      while o == Continue && pos < |file|
        invariant 0 <= pos <= |file| && kept.Valid()
        invariant o == Continue ==> Valid() && done == Lines(file[..pos]) && lineBuf == Rest(file[..pos])
        invariant o != Continue ==> Halted(parse, Lines(file), beforeTs, kept.pushed, o)
        decreases |file| - pos, if o == Continue then 1 else 0
      {
        var n := ChunkSize(|file| - pos, sizes(pos));
        ReadOn(file, pos, n);
        o := Feed(file[pos..pos + n]);
        pos := pos + n;
        if o != Continue {
          HaltedStays(parse, file, pos, beforeTs, kept.pushed, o);
        }
      }
      assert file[..|file|] == file;
    }

    /** Takes in one more chunk. */
    method Feed(chunk: string) returns (o: Outcome)
      requires Valid()
      modifies this, kept, kept.ring
      ensures kept.Valid()
      ensures o == Continue ==>
        Valid() && done == old(done) + Lines(old(lineBuf) + chunk) && lineBuf == Rest(old(lineBuf) + chunk)
      ensures o != Continue ==> Halted(parse, old(done) + Lines(old(lineBuf) + chunk), beforeTs, kept.pushed, o)
    {
      hide Lines, Rest, Halted, Before, Parsed, Holds, LastOf;
      lineBuf := lineBuf + chunk;
      o := Consume();
    }

    /** Cuts `lineBuf` into lines until it is used up or a record halts the reading. */
    method Consume() returns (o: Outcome)
      requires Valid()
      modifies this, kept, kept.ring
      ensures kept.Valid()
      ensures o == Continue ==> Valid() && done == old(done) + Lines(old(lineBuf)) && lineBuf == Rest(old(lineBuf))
      ensures o != Continue ==> Halted(parse, old(done) + Lines(old(lineBuf)), beforeTs, kept.pushed, o)
    {
      hide Lines, Rest, Before, Parsed, Holds, LastOf;
      ghost var text, ls := lineBuf, Lines(lineBuf);
      ghost var cut: seq<string> := [];
      while true
        invariant Valid() && done == old(done) + cut
        invariant cut + Lines(lineBuf) == ls && Rest(lineBuf) == Rest(text)
        decreases |lineBuf|
      {
        FirstLine(lineBuf);
        var idx := IndexOf(lineBuf, '\n');
        if idx == -1 {
          assert cut + [] == cut;
          return Continue;
        }
        var line := lineBuf[..idx];
        lineBuf := lineBuf[idx + 1..];
        ghost var later := Lines(lineBuf);
        AppendAssoc(cut, [line], later);
        AppendAssoc(old(done), cut, [line]);
        AppendAssoc(old(done), cut + [line], later);
        OneMoreLine(parse, done, line, later, beforeTs);
        cut := cut + [line];
        done := done + [line];
        if |line| == 0 {
          continue;
        }
        var rec := parse(line);
        if rec.Invalid? {
          continue;
        }
        if beforeTs.Some? {
          if rec.Null? {
            return Fail;
          }
          if rec.timestamp.Some? && rec.timestamp.value >= beforeTs.value {
            return Stop;
          }
        }
        kept.Push(rec);
      }
    }
  }

  /** What one more line adds to the records read so far. */
  lemma OneMoreLine(parse: string -> Json, done: seq<string>, line: string, later: seq<string>, beforeTs: Option<int>)
    requires Before(Parsed(parse, done), beforeTs) == Parsed(parse, done)
    ensures
      var records, all := Parsed(parse, done), Parsed(parse, done + [line] + later);
      var j := parse(line);
      if line == "" || j.Invalid? then Parsed(parse, done + [line]) == records
      else
        && Parsed(parse, done + [line]) == records + [j]
        && (!Halts(j, beforeTs) ==> Before(records + [j], beforeTs) == records + [j])
        && (Halts(j, beforeTs) ==>
              Before(all, beforeTs) == records != all && |records| < |all| && all[|records|] == j)
  {
    var records, j := Parsed(parse, done), parse(line);
    assert (done + [line])[..|done|] == done;
    ParsedConcat(parse, done + [line], later);
    if line != "" && !j.Invalid? {
      BeforeOfPrefix(records, [j], beforeTs);
      assert [j][1..] == [];
      BeforeOfPrefix(records + [j], Parsed(parse, later), beforeTs);
    }
  }

  /** A chunk as `readSync` returns it: at least one byte while there are any, at most a buffer full. */
  function ChunkSize(left: nat, wanted: nat): (n: nat)
    ensures n <= left && (n == 0 <==> left == 0)
  {
    var n := if wanted == 0 then 1 else if wanted > READ_CHUNK then READ_CHUNK else wanted;
    if n > left then left else n
  }

  /**
   * Reads the file chunk by chunk (`sizes` says how much each read happens to return) and stops at the
   * first record at or after the cutoff. The answer depends on the file alone, not on the chunks.
   */
  method ReadHistoryBefore(file: Option<string>, parse: string -> Json, beforeTs: Option<int>, limit: int,
                           sizes: nat -> nat)
    returns (r: History)
    ensures r == Answer(file, parse, beforeTs, limit)
    ensures limit <= 0 || file.None? ==> r == History([], true)
  {
    if limit <= 0 || file.None? {
      return History([], true);
    }
    hide Lines, Rest, Parsed, Before, Holds, Answer, Halted, LastOf;
    var reader := new Reader(parse, beforeTs, limit);
    var o := reader.ReadThrough(file.value, sizes);
    AnswerOfRun(file.value, parse, beforeTs, limit, reader.kept.pushed, o);
    if o == Fail {
      return Throws;
    }
    var records := reader.kept.Drain();
    return History(records, reader.kept.ringSize < limit);
  }

  /** What the answer is once reading has ended, at a halting record or at the end of the file. */
  lemma AnswerOfRun(file: string, parse: string -> Json, beforeTs: Option<int>, limit: nat, pushed: seq<Json>,
                    o: Outcome)
    requires limit > 0
    requires o != Continue ==> Halted(parse, Lines(file), beforeTs, pushed, o)
    requires o == Continue ==> pushed == Parsed(parse, Lines(file)) && Before(pushed, beforeTs) == pushed
    ensures Answer(Some(file), parse, beforeTs, limit)
         == if o == Fail then Throws else History(LastOf(pushed, limit), |pushed| < limit)
  {
  }

  lemma ReadOn(file: string, pos: nat, n: nat)
    requires pos + n <= |file|
    ensures Lines(file[..pos + n]) == Lines(file[..pos]) + Lines(Rest(file[..pos]) + file[pos..pos + n])
    ensures Rest(file[..pos + n]) == Rest(Rest(file[..pos]) + file[pos..pos + n])
  {
    hide Lines, Rest;
    LinesConcat(file[..pos], file[pos..pos + n]);
    assert file[..pos] + file[pos..pos + n] == file[..pos + n];
  }

  lemma NothingRead()
    ensures Lines("") == [] && Rest("") == ""
  {
  }

  /** The reading of these lines ended early, with `before` in the ring. */
  ghost predicate Halted(parse: string -> Json, ls: seq<string>, beforeTs: Option<int>, before: seq<Json>, o: Outcome) {
    var records := Parsed(parse, ls);
    && before == Before(records, beforeTs) != records
    && (records[|before|].Null? <==> o == Fail)
  }

  lemma {:induction false} HaltedStays(parse: string -> Json, file: string, pos: nat, beforeTs: Option<int>,
                                       before: seq<Json>, o: Outcome)
    requires pos <= |file| && Halted(parse, Lines(file[..pos]), beforeTs, before, o)
    ensures Halted(parse, Lines(file), beforeTs, before, o)
  {
    hide Lines, Rest;
    assert file == file[..pos] + file[pos..];
    LinesConcat(file[..pos], file[pos..]);
    var ls, more := Lines(file[..pos]), Lines(Rest(file[..pos]) + file[pos..]);
    ParsedConcat(parse, ls, more);
    BeforeOfPrefix(Parsed(parse, ls), Parsed(parse, more), beforeTs);
  }
}
