/**
 * Following a transcript file as it grows (src/mirror-agent/jsonl-tail.ts): each pass reads a bounded chunk and hands
 * over the lines it completes, or starts over when the file has become smaller. What any run has handed over depends
 * only on the bytes it has taken in since.
 */
module JsonlTail {
  import opened Text
  import opened Options

  const INITIAL_TAIL_MAX_BYTES := 512 * 1024
  const READ_CHUNK_BYTES := 4 * 1024 * 1024

  // ----- Lines worth parsing -----

  /** The characters `String.prototype.trim` removes. */
  predicate IsWhite(c: char) {
    || c in "\t\n\r \U{0B}\U{0C}\U{A0}\U{FEFF}\U{1680}\U{202F}\U{205F}\U{3000}\U{2028}\U{2029}"
    || '\U{2000}' <= c <= '\U{200A}'
  }

  predicate IsBlank(line: string) {
    forall i :: 0 <= i < |line| ==> IsWhite(line[i])
  }

  function NonBlank(ls: seq<string>): seq<string> {
    if ls == [] then []
    else NonBlank(ls[..|ls| - 1]) + if IsBlank(ls[|ls| - 1]) then [] else [ls[|ls| - 1]]
  }

  lemma {:induction false} NonBlankConcat(a: seq<string>, b: seq<string>)
    ensures NonBlank(a + b) == NonBlank(a) + NonBlank(b)
    decreases |b|
  {
    if b == [] {
      assert a + b == a;
    } else {
      var p := b[..|b| - 1];
      assert (a + b)[..|a + b| - 1] == a + p;
      NonBlankConcat(a, p);
      AppendAssoc(NonBlank(a), NonBlank(p), NonBlank(b)[|NonBlank(p)|..]);
    }
  }

  /** White space and line terminators, by their code points (ECMA-262, sections 12.2 and 12.3). */
  lemma WhiteIs(c: char)
    ensures IsWhite(c) <==>
            || c as int in {0x9, 0xA, 0xB, 0xC, 0xD, 0x20, 0xA0, 0x1680, 0x2028, 0x2029, 0x202F, 0x205F, 0x3000, 0xFEFF}
            || 0x2000 <= c as int <= 0x200A
  {
  }

  /** The blank lines are left out, the others stay in order. */
  lemma {:induction false} NonBlankIs(a: seq<string>, line: string, b: seq<string>)
    ensures NonBlank(a + [line] + b) ==
            NonBlank(a) + (if exists c :: c in line && !IsWhite(c) then [line] else []) + NonBlank(b)
  {
    NonBlankConcat(a, [line]);
    NonBlankConcat(a + [line], b);
    BlankIff(line);
    hide IsWhite, IsBlank;
    assert [line][..0] == [];
    assert NonBlank([line]) == if IsBlank(line) then [] else [line];
  }

  lemma BlankIff(line: string)
    ensures IsBlank(line) <==> forall c :: c in line ==> IsWhite(c)
  {
    hide IsWhite;
    forall i | 0 <= i < |line|
      ensures line[i] in line
    {
    }
  }

  // ----- One pass -----

  datatype State = State(offset: nat, buffer: string, firstRead: bool, skipPartialLine: bool, drainScheduled: bool)

  const INITIAL := State(0, "", true, false, false)

  /** What the file system does: refuse to open or read the file, or return up to `most` bytes. */
  datatype Access = OpenFails | ReadFails | Reads(most: nat)

  /**
   * One pass: whether the drain timer runs it (or else the poll, or the watcher), and what it meets: the size
   * `stat` reports (none: no file), the bytes in the file, the access.
   */
  datatype Pass = Pass(drain: bool, size: Option<nat>, file: string, access: Access)

  function Min(a: nat, b: nat): nat {
    if a < b then a else b
  }

  /** `readSync` at `offset` for `length` bytes: a short read is possible, reading past the end is not. */
  function ReadSync(file: string, offset: nat, length: nat, most: nat): string {
    if offset >= |file| then "" else file[offset..offset + Min(Min(length, most), |file| - offset)]
  }

  /** The state a pass reads in: restarted if the file shrank, moved close to the end the first time. */
  function Positioned(s: State, size: nat): State {
    var s := if size < s.offset then s.(offset := 0, buffer := "", firstRead := true, skipPartialLine := false) else s;
    if !s.firstRead then s
    else if size <= INITIAL_TAIL_MAX_BYTES then s.(firstRead := false)
    else s.(firstRead := false, offset := size - INITIAL_TAIL_MAX_BYTES, skipPartialLine := true)
  }

  function Received(s: State, size: nat, p: Pass): string
    requires s.offset <= size
  {
    if p.access.Reads? then ReadSync(p.file, s.offset, Min(size - s.offset, READ_CHUNK_BYTES), p.access.most) else ""
  }

  /** Cuts what is in the buffer: the state afterwards, and the lines handed over. */
  function Cut(s: State): (State, seq<string>) {
    var ls := Lines(s.buffer);
    if s.skipPartialLine && ls == [] then (s.(buffer := ""), [])
    else (s.(buffer := Rest(s.buffer), skipPartialLine := false), NonBlank(if s.skipPartialLine then ls[1..] else ls))
  }

  function Read(s: State, p: Pass): (State, seq<string>) {
    if p.size.None? then (s, [])
    else
      var at := Positioned(s, p.size.value);
      if p.size.value <= at.offset || p.access.OpenFails? then (at, [])
      else
        var chunk := Received(at, p.size.value, p);
        var offset := at.offset + |chunk|;
        var (cut, handed) := Cut(at.(offset := offset, buffer := at.buffer + chunk));
        (cut.(drainScheduled := at.drainScheduled || (offset > at.offset && p.size.value > offset)), handed)
  }

  /** The drain timer clears its flag before it reads. */
  function Taken(s: State, p: Pass): State {
    if p.drain then s.(drainScheduled := false) else s
  }

  function Step(s: State, p: Pass): (State, seq<string>) {
    Read(Taken(s, p), p)
  }

  /** The lines handed over by a run, and the state it ends in. */
  function Run(passes: seq<Pass>): (State, seq<string>) {
    if passes == [] then (INITIAL, [])
    else
      var (s, before) := Run(passes[..|passes| - 1]);
      var (t, now) := Step(s, passes[|passes| - 1]);
      (t, before + now)
  }

  // ----- What any run hands over -----

  /** The file is smaller than what was read of it: the pass starts over. */
  predicate Restarts(s: State, p: Pass) {
    p.size.Some? && p.size.value < s.offset
  }

  /** What a pass takes in. */
  function Chunk(s: State, p: Pass): string {
    if p.size.None? then ""
    else
      var at := Positioned(s, p.size.value);
      if p.size.value <= at.offset || p.access.OpenFails? then "" else Received(at, p.size.value, p)
  }

  /** No pass takes in more than 4 MiB, and the first one that reads no more than the last 512 KiB. */
  lemma ChunkIsBounded(s: State, p: Pass)
    ensures |Chunk(s, p)| <= 4_194_304
    ensures s.firstRead || Restarts(s, p) ==> |Chunk(s, p)| <= 524_288
  {
  }

  /** What a run takes in. */
  function Bytes(passes: seq<Pass>): string {
    if passes == [] then ""
    else
      var before := passes[..|passes| - 1];
      Bytes(before) + Chunk(Run(before).0, passes[|passes| - 1])
  }

  /** The size the first pass that found the file was told. */
  function FirstSize(passes: seq<Pass>): Option<nat> {
    if passes == [] then None
    else
      var before := FirstSize(passes[..|passes| - 1]);
      if before.Some? then before else passes[|passes| - 1].size
  }

  /** Where reading starts: close to the end of a file that was already large, else at the beginning. */
  function Origin(passes: seq<Pass>): nat {
    var size := FirstSize(passes);
    if size.Some? && size.value > INITIAL_TAIL_MAX_BYTES then size.value - INITIAL_TAIL_MAX_BYTES else 0
  }

  predicate Seeks(passes: seq<Pass>) {
    var size := FirstSize(passes);
    size.Some? && size.value > INITIAL_TAIL_MAX_BYTES
  }

  /** No pass of a new tail's run starts over. */
  ghost predicate Unbroken(passes: seq<Pass>) {
    forall i :: 0 <= i < |passes| ==> !Restarts(Run(passes[..i]).0, passes[i])
  }

  /** The tail is new, or starts over with the first of these passes. */
  ghost predicate Begins(before: seq<Pass>, passes: seq<Pass>) {
    before == [] || (passes != [] && Restarts(Run(before).0, passes[0]))
  }

  /** What must have been handed over once `read` is known: its complete lines that are not blank. */
  function Expected(read: string, seeks: bool): seq<string> {
    NonBlank(if seeks && Lines(read) != [] then Lines(read)[1..] else Lines(read))
  }

  ghost predicate Inv(s: State, handed: seq<string>, read: string, seeks: bool) {
    && handed == Expected(read, seeks)
    && (s.skipPartialLine <==> seeks && Lines(read) == [])
    && s.buffer == (if s.skipPartialLine then "" else Rest(read))
  }

  lemma {:induction false} CutInv(read: string, chunk: string, seeks: bool, s: State)
    requires s.skipPartialLine <==> seeks && Lines(read) == []
    requires s.buffer == (if s.skipPartialLine then "" else Rest(read))
    ensures
      var (t, now) := Cut(s.(buffer := s.buffer + chunk));
      && Expected(read + chunk, seeks) == Expected(read, seeks) + now
      && (t.skipPartialLine <==> seeks && Lines(read + chunk) == [])
      && t.buffer == (if t.skipPartialLine then "" else Rest(read + chunk))
  {
    hide Lines, Rest, NonBlank;
    LinesConcat(read, chunk);
    NothingToHand();
    if s.skipPartialLine {
      assert s.buffer + chunk == chunk;
      SkippedPrefix(read, chunk);
    } else {
      var was, now := Lines(read), Lines(Rest(read) + chunk);
      NonBlankConcat(was, now);
      if seeks {
        NonBlankConcat(was[1..], now);
        assert (was + now)[1..] == was[1..] + now;
      }
    }
  }

  lemma NothingToHand()
    ensures NonBlank([]) == [] && Lines("") == [] && Rest("") == ""
  {
  }

  /** Dropping an unfinished first line early is the same as dropping it once it ends. */
  lemma SkippedPrefix(read: string, chunk: string)
    requires Lines(read) == []
    ensures Lines(read + chunk) == [] <==> Lines(chunk) == []
    ensures Lines(read + chunk) != [] ==> Lines(read + chunk)[1..] == Lines(chunk)[1..]
    ensures Lines(read + chunk) != [] ==> Rest(read + chunk) == Rest(chunk)
  {
    hide Lines, Rest, IndexOf;
    LinesConcat(read, chunk);
    RestHasNoNewline(read);
    FirstLine(chunk);
    var i := IndexOf(chunk, '\n');
    if i == -1 {
      NoNewline(Rest(read) + chunk);
    } else {
      var first, after := chunk[..i], chunk[i + 1..];
      assert Rest(read) + chunk == (Rest(read) + first) + "\n" + after;
      LinesCons(Rest(read) + first, after);
    }
  }

  lemma CutKeepsOffset(s: State)
    ensures Cut(s).0.offset == s.offset && Cut(s).0.firstRead == s.firstRead
  {
  }

  lemma ReadInv(s: State, handed: seq<string>, p: Pass, read: string, seeks: bool)
    requires p.size.Some? && !s.firstRead && !Restarts(s, p) && Inv(s, handed, read, seeks)
    ensures
      var (t, now) := Read(s, p);
      && Inv(t, handed + now, read + Chunk(s, p), seeks) && !t.firstRead && t.offset == s.offset + |Chunk(s, p)|
  {
    hide Lines, Rest, NonBlank, Expected, Cut;
    if p.size.value <= s.offset || p.access.OpenFails? {
      assert handed + [] == handed && read + "" == read;
    } else {
      var chunk := Received(s, p.size.value, p);
      CutInv(read, chunk, seeks, s.(offset := s.offset + |chunk|));
      CutKeepsOffset(s.(offset := s.offset + |chunk|, buffer := s.buffer + chunk));
    }
  }

  ghost predicate RunInvariant(passes: seq<Pass>) {
    var (s, handed) := Run(passes);
    && Inv(s, handed, Bytes(passes), Seeks(passes))
    && s.offset == Origin(passes) + |Bytes(passes)|
    && (s.firstRead <==> FirstSize(passes).None?)
    && (s.firstRead ==> s.offset == 0 && s.buffer == "" && !s.skipPartialLine && handed == [])
  }

  /** Equal but for the drain flag. */
  predicate Alike(s: State, t: State) {
    t == s.(drainScheduled := t.drainScheduled)
  }

  lemma PositionAlike(s: State, t: State, size: nat)
    requires Alike(s, t) || (t.(drainScheduled := false) == INITIAL && size < s.offset)
    ensures Alike(Positioned(s, size), Positioned(t, size))
  {
  }

  lemma ChunkAlike(s: State, t: State, p: Pass)
    requires Alike(s, t) || (t.(drainScheduled := false) == INITIAL && Restarts(s, p))
    ensures Chunk(s, p) == Chunk(t, p)
  {
    hide Positioned, ReadSync;
    if p.size.Some? {
      PositionAlike(s, t, p.size.value);
    }
  }

  lemma CutAlike(s: State, t: State)
    requires Alike(s, t)
    ensures Alike(Cut(s).0, Cut(t).0) && Cut(s).1 == Cut(t).1
  {
    hide Lines, Rest, NonBlank;
  }

  /** Neither the flag nor, once the file shrank, anything else of the state matters to a pass. */
  lemma StepAlike(s: State, t: State, p: Pass)
    requires Alike(s, t) || (t == INITIAL && Restarts(s, p))
    ensures Alike(Step(s, p).0, Step(t, p).0) && Step(s, p).1 == Step(t, p).1
  {
    hide Positioned, Received, Cut;
    if p.size.Some? {
      var s, t := Taken(s, p), Taken(t, p);
      PositionAlike(s, t, p.size.value);
      var sAt, tAt := Positioned(s, p.size.value), Positioned(t, p.size.value);
      if p.size.value > sAt.offset && !p.access.OpenFails? {
        ReadIs(s, p);
        ReadIs(t, p);
        ChunkAlike(s, t, p);
        var chunk := Chunk(s, p);
        CutAlike(sAt.(offset := sAt.offset + |chunk|, buffer := sAt.buffer + chunk),
                 tAt.(offset := tAt.offset + |chunk|, buffer := tAt.buffer + chunk));
      }
    }
  }

  lemma ReadIs(s: State, p: Pass)
    requires p.size.Some? && Positioned(s, p.size.value).offset < p.size.value && !p.access.OpenFails?
    ensures
      var at, chunk := Positioned(s, p.size.value), Chunk(s, p);
      var (cut, handed) := Cut(at.(offset := at.offset + |chunk|, buffer := at.buffer + chunk));
      && Read(s, p).1 == handed
      && Alike(Read(s, p).0, cut)
  {
    hide Positioned, Received, Cut;
  }

  /** The first pass that finds the file behaves like a later one that starts at the origin. */
  lemma FirstStep(s: State, p: Pass)
    requires s.firstRead && s.offset == 0 && s.buffer == "" && !s.skipPartialLine && p.size.Some?
    ensures
      var at := Positioned(s, p.size.value);
      && Read(s, p) == Read(at, p) && Chunk(s, p) == Chunk(at, p) && !at.firstRead && !Restarts(at, p)
      && at.offset == Origin([p]) && Inv(at, [], "", Seeks([p]))
  {
    hide Cut, ReadSync, NonBlank;
    assert [p][..0] == [];
    assert FirstSize([p]) == p.size;
    NothingToHand();
  }

  lemma {:induction false} RunInvStep(before: seq<Pass>, p: Pass)
    requires RunInvariant(before) && !Restarts(Run(before).0, p)
    ensures RunInvariant(before + [p])
  {
    hide Lines, Rest, Expected, NonBlank, Read, Positioned, Received;
    var passes := before + [p];
    assert passes[..|passes| - 1] == before;
    var handed := Run(before).1;
    var s := Taken(Run(before).0, p);
    ChunkAlike(Run(before).0, s, p);
    if p.size.None? {
      ReadNoFile(s, p);
      assert handed + [] == handed && Bytes(before) + "" == Bytes(before);
    } else if s.firstRead {
      assert [p][..0] == [];
      assert FirstSize([p]) == p.size == FirstSize(passes);
      FirstStep(s, p);
      ReadInv(Positioned(s, p.size.value), [], p, "", Seeks(passes));
      assert Bytes(before) == "" && "" + Chunk(s, p) == Chunk(s, p);
    } else {
      ReadInv(s, handed, p, Bytes(before), Seeks(passes));
    }
  }

  lemma ReadNoFile(s: State, p: Pass)
    requires p.size.None?
    ensures Read(s, p) == (s, []) && Chunk(s, p) == ""
  {
  }

  lemma {:induction false} UnbrokenBefore(before: seq<Pass>, p: Pass)
    ensures Unbroken(before + [p]) <==> Unbroken(before) && !Restarts(Run(before).0, p)
  {
    hide Run, Restarts;
    var passes := before + [p];
    assert passes[..|before|] == before && passes[|before|] == p;
    forall i | 0 <= i < |before|
      ensures passes[..i] == before[..i] && passes[i] == before[i]
    {
    }
  }

  lemma {:induction false} RunInv(passes: seq<Pass>)
    requires Unbroken(passes)
    ensures RunInvariant(passes)
    decreases |passes|
  {
    if passes == [] {
      assert RunInvariant([]);
    } else {
      hide RunInvariant, Unbroken, Run;
      var n := |passes| - 1;
      assert passes == passes[..n] + [passes[n]];
      UnbrokenBefore(passes[..n], passes[n]);
      RunInv(passes[..n]);
      RunInvStep(passes[..n], passes[n]);
    }
  }

  /** After a pass that starts over, a tail goes on just like a new one. */
  lemma {:induction false} RestartIsFresh(before: seq<Pass>, passes: seq<Pass>)
    requires Begins(before, passes)
    ensures Run(before + passes).1 == Run(before).1 + Run(passes).1
    ensures Alike(Run(before + passes).0, Run(passes).0)
  {
    hide Run, Step;
    if before == [] {
      EmptyRun();
      assert before + passes == passes;
      assert [] + Run(passes).1 == Run(passes).1;
    } else {
      var n := |passes| - 1;
      var first, p := passes[..n], passes[n];
      assert before + passes == before + first + [p] && passes == first + [p];
      RunSnoc(before + first, p);
      RunSnoc(first, p);
      if n == 0 {
        EmptyRun();
        assert before + first == before;
        StepAlike(Run(before).0, INITIAL, p);
      } else {
        RestartIsFresh(before, first);
        StepAlike(Run(before + first).0, Run(first).0, p);
      }
    }
  }

  lemma EmptyRun()
    ensures Run([]) == (INITIAL, [])
  {
  }

  /**
   * Since the tail was new or last started over, it has handed over exactly the complete lines of what it has taken
   * in, each once and in order, less the blank ones and, if it began in the middle of the file, the first one.
   */
  lemma BytesDeliver(before: seq<Pass>, passes: seq<Pass>)
    requires Begins(before, passes) && Unbroken(passes)
    ensures Run(before + passes).1 == Run(before).1 + Expected(Bytes(passes), Seeks(passes))
    ensures Run(before + passes).0.offset == Origin(passes) + |Bytes(passes)|
  {
    hide Run, Bytes, Begins, Unbroken, Expected, Seeks, Origin, Lines, Rest;
    RestartIsFresh(before, passes);
    RunInv(passes);
  }

  /** Every run is of this kind: it has a last pass that started over, or none. */
  lemma {:induction false} AlwaysDelivers(passes: seq<Pass>) returns (k: nat)
    ensures k <= |passes| && Begins(passes[..k], passes[k..]) && Unbroken(passes[k..])
    ensures Run(passes).1 == Run(passes[..k]).1 + Expected(Bytes(passes[k..]), Seeks(passes[k..]))
  {
    hide Run, Begins, Unbroken, Expected, Seeks, Bytes, Origin;
    k := LastStart(passes);
    BytesDeliver(passes[..k], passes[k..]);
    assert passes[..k] + passes[k..] == passes;
  }

  lemma {:induction false} LastStart(passes: seq<Pass>) returns (k: nat)
    ensures k <= |passes| && Begins(passes[..k], passes[k..]) && Unbroken(passes[k..])
  {
    hide Unbroken, Run, Restarts;
    if passes == [] {
      NothingBroken([]);
      return 0;
    }
    var n := |passes| - 1;
    var before, p := passes[..n], passes[n];
    k := LastStart(before);
    assert passes[k..] == before[k..] + [p] && passes[..k] == before[..k];
    if Restarts(Run(before).0, p) {
      k := n;
      assert passes[n..] == [p];
      NothingBroken([p]);
    } else {
      assert before == before[..k] + before[k..];
      hide Begins;
      RestartIsFresh(before[..k], before[k..]);
      GoesOn(Run(before).0, before[k..], p);
      BeginsStill(before[..k], before[k..], p);
    }
  }

  lemma GoesOn(s: State, passes: seq<Pass>, p: Pass)
    requires Unbroken(passes) && !Restarts(s, p) && Alike(s, Run(passes).0)
    ensures Unbroken(passes + [p])
  {
    UnbrokenBefore(passes, p);
    hide Unbroken, Run;
  }

  lemma BeginsStill(before: seq<Pass>, passes: seq<Pass>, p: Pass)
    requires Begins(before, passes)
    ensures Begins(before, passes + [p])
  {
    hide Run, Restarts;
  }

  lemma NothingBroken(passes: seq<Pass>)
    requires |passes| <= 1
    ensures Unbroken(passes)
  {
  }

  // ----- A file that only grows -----

  /**
   * The file is only ever appended to, `stat` reports no less than an earlier pass met, and reading starts within
   * the file. What `stat` reports may be more than can be read.
   */
  ghost predicate AppendOnly(passes: seq<Pass>) {
    && (forall i :: 0 <= i < |passes| ==> Origin(passes[..i + 1]) <= |passes[i].file|)
    && (forall i, j :: 0 <= i < j < |passes| ==> passes[i].file <= passes[j].file)
    && (forall i, j :: 0 <= i < j < |passes| && passes[j].size.Some? ==> |passes[i].file| <= passes[j].size.value)
  }

  lemma AppendOnlyBefore(before: seq<Pass>, p: Pass)
    requires AppendOnly(before + [p])
    ensures AppendOnly(before) && Origin(before + [p]) <= |p.file|
    ensures before != [] ==>
              var was := before[|before| - 1].file;
              was <= p.file && (p.size.Some? ==> |was| <= p.size.value)
  {
    hide Origin;
    var passes := before + [p];
    assert passes[|before|] == p && passes[..|before| + 1] == passes;
    forall i | 0 <= i < |before|
      ensures Origin(before[..i + 1]) <= |before[i].file|
    {
      assert passes[..i + 1] == before[..i + 1] && passes[i] == before[i];
    }
    assert forall i :: 0 <= i < |before| ==> passes[i] == before[i];
  }

  /** What was read is a part of the file. */
  ghost predicate PartOf(read: string, file: string, origin: nat) {
    origin + |read| <= |file| && read == file[origin..origin + |read|]
  }

  lemma PartGrows(read: string, file: string, more: string, origin: nat)
    requires PartOf(read, file, origin) && file <= more
    ensures PartOf(read, more, origin)
  {
  }

  lemma ReadsPart(s: State, p: Pass, read: string, origin: nat)
    requires p.size.Some? && !s.firstRead && !Restarts(s, p)
    requires PartOf(read, p.file, origin) && s.offset == origin + |read|
    ensures PartOf(read + Chunk(s, p), p.file, origin)
  {
    var chunk := Chunk(s, p);
    if chunk == "" {
      assert read + chunk == read;
    } else {
      assert chunk == p.file[s.offset..s.offset + |chunk|];
    }
  }

  lemma {:induction false} GrowingStep(before: seq<Pass>, p: Pass)
    requires RunInvariant(before) && !Restarts(Run(before).0, p)
    requires PartOf(Bytes(before), p.file, Origin(before)) && Origin(before + [p]) <= |p.file|
    ensures PartOf(Bytes(before + [p]), p.file, Origin(before + [p]))
  {
    hide Inv, Read, Positioned, Chunk, Bytes, PartOf, Run, Seeks;
    var passes := before + [p];
    assert passes[..|passes| - 1] == before;
    BytesSnoc(before, p);
    var s := Run(before).0;
    if p.size.None? {
      ReadNoFile(s, p);
      assert Bytes(before) + "" == Bytes(before);
    } else if s.firstRead {
      assert [p][..0] == [];
      assert FirstSize([p]) == p.size == FirstSize(passes);
      NothingPart(p.file, Origin(passes));
      FirstStep(s, p);
      ReadsPart(Positioned(s, p.size.value), p, "", Origin(passes));
      assert Bytes(before) == "" && "" + Chunk(s, p) == Chunk(s, p);
    } else {
      ReadsPart(s, p, Bytes(before), Origin(before));
    }
  }

  lemma BytesSnoc(before: seq<Pass>, p: Pass)
    ensures Bytes(before + [p]) == Bytes(before) + Chunk(Run(before).0, p)
  {
    assert (before + [p])[..|before + [p]| - 1] == before;
  }

  lemma NothingPart(file: string, origin: nat)
    requires origin <= |file|
    ensures PartOf("", file, origin)
  {
  }

  lemma {:induction false} GrowingBytes(passes: seq<Pass>)
    requires passes != [] && AppendOnly(passes)
    ensures Unbroken(passes) && PartOf(Bytes(passes), passes[|passes| - 1].file, Origin(passes))
    decreases |passes|
  {
    hide AppendOnly, Run, Bytes, Origin, RunInvariant;
    var n := |passes| - 1;
    var before, p := passes[..n], passes[n];
    assert passes == before + [p];
    AppendOnlyBefore(before, p);
    UnbrokenBefore(before, p);
    if n == 0 {
      assert before == [];
      NothingRead(p.file);
    } else {
      GrowingBytes(before);
      PartGrows(Bytes(before), before[n - 1].file, p.file, Origin(before));
    }
    RunInv(before);
    OffsetIs(before);
    GrowingStep(before, p);
  }

  lemma NothingRead(file: string)
    ensures Run([]).0.offset == 0 && PartOf(Bytes([]), file, Origin([]))
  {
  }

  lemma OffsetIs(passes: seq<Pass>)
    requires RunInvariant(passes)
    ensures Run(passes).0.offset == Origin(passes) + |Bytes(passes)|
  {
  }

  /**
   * Every line of a file that is only appended to is handed over exactly once and in order, whatever the chunk caps,
   * short reads and failures: what has been handed over since the tail was new, or started over with this file, is
   * exactly the non-blank complete lines of the bytes between the origin and the offset (after the first newline,
   * when the first pass started in the middle of the file).
   */
  lemma RunDelivers(before: seq<Pass>, passes: seq<Pass>)
    requires passes != [] && AppendOnly(passes) && Begins(before, passes)
    ensures
      var (s, handed) := Run(before + passes);
      var file := passes[|passes| - 1].file;
      && Origin(passes) <= s.offset <= |file|
      && handed == Run(before).1 + Expected(file[Origin(passes)..s.offset], Seeks(passes))
  {
    hide Run, AppendOnly, Begins, Unbroken, Expected, Origin, Seeks, Bytes;
    GrowingBytes(passes);
    BytesDeliver(before, passes);
  }

  /** Caught up with a file that was small when first seen, nothing is missing and nothing is double. */
  lemma CaughtUp(before: seq<Pass>, passes: seq<Pass>)
    requires passes != [] && AppendOnly(passes) && Begins(before, passes) && !Seeks(passes)
    requires Run(before + passes).0.offset == |passes[|passes| - 1].file|
    ensures Run(before + passes).1 == Run(before).1 + NonBlank(Lines(passes[|passes| - 1].file))
  {
    RunDelivers(before, passes);
    var file := passes[|passes| - 1].file;
    hide Run, NonBlank, Lines, AppendOnly, Begins;
    assert file[0..|file|] == file;
  }

  // ----- A file that takes the place of another -----

  /**
   * A whole new file is taken in by the next pass exactly if it is smaller than what was read (or nothing was read);
   * one of just that size passes unnoticed.
   */
  lemma ReplacedIff(before: seq<Pass>, p: Pass)
    requires p.size == Some(|p.file|) && |p.file| <= INITIAL_TAIL_MAX_BYTES
    requires p.access.Reads? && p.access.most >= |p.file|
    ensures
      var s := Run(before).0;
      && (Chunk(s, p) == p.file <==> Restarts(s, p) || s.offset == 0)
      && (s.offset == |p.file| ==> Run(before + [p]).1 == Run(before).1)
  {
    FreshAtZero(before);
    RunSnoc(before, p);
    hide Run, Cut;
    var (s, handed) := Run(before);
    assert p.file[0..|p.file|] == p.file && handed + [] == handed;
    if s.offset < |p.file| {
      assert |Chunk(s, p)| == |p.file| - s.offset;
    }
  }

  // ----- The drain timer -----

  /** The pass advanced and left bytes that `stat` reported. */
  predicate LeavesMore(s: State, p: Pass) {
    p.size.Some? && Positioned(s, p.size.value).offset < Step(s, p).0.offset < p.size.value
  }

  ghost predicate PendingSince(passes: seq<Pass>, i: nat)
    requires i < |passes|
  {
    LeavesMore(Run(passes[..i]).0, passes[i]) && forall j :: i < j < |passes| ==> !passes[j].drain
  }

  lemma StepDrains(s: State, p: Pass)
    ensures Step(s, p).0.drainScheduled <==> LeavesMore(s, p) || (s.drainScheduled && !p.drain)
  {
    hide Cut, Received;
    if p.size.Some? {
      var at := Positioned(Taken(s, p), p.size.value);
      if p.size.value > at.offset {
        var chunk := Received(at, p.size.value, p);
        CutKeepsOffset(at.(offset := at.offset + |chunk|, buffer := at.buffer + chunk));
      }
    }
  }

  lemma RunSnoc(before: seq<Pass>, p: Pass)
    ensures
      var (s, handed) := Run(before);
      var (t, now) := Step(s, p);
      Run(before + [p]) == (t, handed + now)
  {
    assert (before + [p])[..|before + [p]| - 1] == before;
  }

  /** A re-read is pending just when, since some pass advanced and left bytes behind, the drain timer has not fired. */
  lemma {:induction false} DrainPendingIff(passes: seq<Pass>)
    ensures Run(passes).0.drainScheduled <==> exists i :: 0 <= i < |passes| && PendingSince(passes, i)
  {
    if passes != [] {
      var n := |passes| - 1;
      var before, p := passes[..n], passes[n];
      assert passes == before + [p];
      DrainPendingIff(before);
      RunSnoc(before, p);
      hide Run, Step, LeavesMore;
      StepDrains(Run(before).0, p);
      assert PendingSince(passes, n) <==> LeavesMore(Run(before).0, p);
      forall i | 0 <= i < n
        ensures PendingSince(passes, i) <==> PendingSince(before, i) && !p.drain
      {
        assert passes[..i] == before[..i];
      }
    }
  }

  /** Drains that each found a re-read pending, by passes that found no less than was read and no more than `limit`. */
  ghost predicate DrainChain(passes: seq<Pass>, more: seq<Pass>, limit: nat) {
    forall k :: 0 <= k < |more| ==>
      var s := Run(passes + more[..k]).0;
      more[k].drain && s.drainScheduled && (more[k].size.Some? ==> s.offset <= more[k].size.value <= limit)
  }

  lemma ChainBefore(passes: seq<Pass>, before: seq<Pass>, p: Pass, limit: nat)
    requires DrainChain(passes, before + [p], limit)
    ensures DrainChain(passes, before, limit)
    ensures
      var s := Run(passes + before).0;
      p.drain && s.drainScheduled && (p.size.Some? ==> s.offset <= p.size.value <= limit)
  {
    hide Run;
    var more := before + [p];
    assert more[|before|] == p && more[..|before|] == before;
    forall k | 0 <= k < |before|
      ensures more[k] == before[k] && more[..k] == before[..k]
    {
    }
  }

  /** Reading has not begun before the first pass that finds the file. */
  lemma {:induction false} FreshAtZero(passes: seq<Pass>)
    ensures Run(passes).0.firstRead ==> Run(passes).0.offset == 0
  {
    hide Lines, Rest, NonBlank;
    if passes != [] {
      FreshAtZero(passes[..|passes| - 1]);
    }
  }

  lemma PositionAdvances(s: State, size: nat)
    requires s.offset <= size && (s.firstRead ==> s.offset == 0)
    ensures s.offset <= Positioned(s, size).offset
  {
  }

  lemma {:induction false} ChainAdvances(passes: seq<Pass>, more: seq<Pass>, limit: nat)
    requires DrainChain(passes, more, limit)
    ensures
      var s := Run(passes + more).0;
      more != [] && s.drainScheduled ==> Run(passes).0.offset + |more| <= s.offset < limit
  {
    hide Step, DrainChain;
    if more != [] {
      var n := |more| - 1;
      var before, p := more[..n], more[n];
      assert more == before + [p];
      ChainBefore(passes, before, p, limit);
      ChainAdvances(passes, before, limit);
      assert passes + more == passes + before + [p];
      RunSnoc(passes + before, p);
      hide Run;
      StepDrains(Run(passes + before).0, p);
      FreshAtZero(passes + before);
      if p.size.Some? {
        PositionAdvances(Run(passes + before).0, p.size.value);
      }
      if before == [] {
        assert passes + before == passes;
      }
    }
  }

  /** Each drain but the last costs at least a byte: a chain of drains is no longer than what is left to read. */
  lemma ChainIsBounded(passes: seq<Pass>, more: seq<Pass>, limit: nat)
    requires DrainChain(passes, more, limit) && |more| >= 2
    ensures Run(passes).0.offset + |more| <= limit
  {
    hide Run, DrainChain;
    var before, p := more[..|more| - 1], more[|more| - 1];
    assert more == before + [p];
    ChainBefore(passes, before, p, limit);
    ChainAdvances(passes, before, limit);
  }

  /** Drains of a file that does not change and of which each read gets at least one byte. */
  predicate DrainsOf(more: seq<Pass>, file: string) {
    forall k :: 0 <= k < |more| ==>
      && more[k].drain && more[k].size == Some(|file|) && more[k].file == file
      && more[k].access.Reads? && more[k].access.most >= 1
  }

  lemma DrainOnce(s: State, p: Pass)
    requires DrainsOf([p], p.file)
    ensures
      var at, t := Positioned(s, |p.file|), Step(s, p).0;
      && at.offset <= t.offset <= |p.file| && (at.offset < |p.file| ==> at.offset < t.offset)
      && (t.drainScheduled <==> t.offset < |p.file|) && Positioned(t, |p.file|) == t
  {
    assert [p][0] == p;
    hide Cut;
    var at := Positioned(Taken(s, p), |p.file|);
    if at.offset < |p.file| {
      var chunk := Received(at, |p.file|, p);
      CutKeepsOffset(at.(offset := at.offset + |chunk|, buffer := at.buffer + chunk));
    }
  }

  /**
   * A chain of drains goes on exactly until it has caught up, and it does catch up, within as many drains as there
   * are bytes left.
   */
  lemma {:induction false} DrainsCatchUp(passes: seq<Pass>, more: seq<Pass>, file: string)
    requires more != [] && DrainsOf(more, file)
    ensures
      var at, t := Positioned(Run(passes).0, |file|), Run(passes + more).0;
      && (t.drainScheduled <==> t.offset < |file|) && Positioned(t, |file|) == t
      && (t.offset == |file| || at.offset + |more| <= t.offset < |file|)
  {
    var n := |more| - 1;
    var before, p := more[..n], more[n];
    assert passes + more == passes + before + [p];
    assert p.file == file && DrainsOf([p], file);
    RunSnoc(passes + before, p);
    DrainOnce(Run(passes + before).0, p);
    hide Step, Positioned, Run;
    if before == [] {
      assert passes + before == passes;
    } else {
      DrainsCatchUp(passes, before, file);
    }
  }

  /** So the drains alone deliver the rest of a file that was small when first seen. */
  lemma DrainsDeliver(before: seq<Pass>, passes: seq<Pass>, more: seq<Pass>, file: string)
    requires more != [] && DrainsOf(more, file)
    requires AppendOnly(passes + more) && Begins(before, passes + more) && !Seeks(passes + more)
    requires Positioned(Run(before + passes).0, |file|).offset + |more| >= |file|
    ensures Run(before + (passes + more)).1 == Run(before).1 + NonBlank(Lines(file))
  {
    hide Run, Seeks, NonBlank, Lines, Positioned, Begins, AppendOnly;
    var all := passes + more;
    assert before + passes + more == before + all;
    DrainsCatchUp(before + passes, more, file);
    assert all[|all| - 1] == more[|more| - 1];
    CaughtUp(before, all);
  }

  // ----- The tail itself -----

  class Tail {
    var offset: nat
    var buffer: string
    var firstRead: bool
    var skipPartialLine: bool
    var drainScheduled: bool
    var stopped: bool
    /** Every line that was given to the parser so far. */
    var handed: seq<string>

    ghost function Abs(): State
      reads this
    {
      State(offset, buffer, firstRead, skipPartialLine, drainScheduled)
    }

    constructor ()
      ensures Abs() == INITIAL && handed == [] && !stopped
    {
      offset, buffer, firstRead, skipPartialLine := 0, "", true, false;
      drainScheduled, stopped := false, false;
      handed := [];
    }

    method Stop()
      modifies `stopped
      ensures stopped
    {
      stopped := true;
    }

    method ReadMore(p: Pass)
      modifies this
      ensures stopped == old(stopped)
      ensures stopped ==> Abs() == old(Abs()) && handed == old(handed)
      ensures !stopped ==> Abs() == Read(old(Abs()), p).0 && handed == old(handed) + Read(old(Abs()), p).1
    {
      if stopped || p.size.None? {
        return;
      }
      hide Cut, Positioned, Received;
      var size := p.size.value;
      Reposition(size);
      if size <= offset || p.access.OpenFails? {
        return;
      }
      var startOffset := offset;
      ReadChunk(size, p);
      CutBuffer();
      if offset > startOffset && size > offset && !drainScheduled {
        drainScheduled := true;
      }
    }

    /** The drain timer fires: its flag is cleared, and the file read once more. */
    method OnDrain(p: Pass)
      requires drainScheduled && p.drain
      modifies this
      ensures stopped == old(stopped)
      ensures stopped ==> Abs() == Taken(old(Abs()), p) && handed == old(handed)
      ensures !stopped ==> Abs() == Step(old(Abs()), p).0 && handed == old(handed) + Step(old(Abs()), p).1
    {
      drainScheduled := false;
      ReadMore(p);
    }

    /** Reads what is left, up to a chunk, and takes in what the read returned. */
    method ReadChunk(size: nat, p: Pass)
      requires offset <= size
      modifies `offset, `buffer
      ensures offset == old(offset) + |Received(old(Abs()), size, p)|
      ensures buffer == old(buffer) + Received(old(Abs()), size, p)
    {
      if p.access.Reads? {
        var length := Min(size - offset, READ_CHUNK_BYTES);
        var chunk := ReadSync(p.file, offset, length, p.access.most);
        offset := offset + |chunk|;
        buffer := buffer + chunk;
      }
    }

    /** Starts over if the file shrank; the first time, moves close to the end of a large file. */
    method Reposition(size: nat)
      modifies `offset, `buffer, `firstRead, `skipPartialLine
      ensures Abs() == Positioned(old(Abs()), size)
    {
      if size < offset {
        offset, buffer, firstRead, skipPartialLine := 0, "", true, false;
      }
      if firstRead {
        firstRead := false;
        if size > INITIAL_TAIL_MAX_BYTES {
          offset := size - INITIAL_TAIL_MAX_BYTES;
          skipPartialLine := true;
        }
      }
    }

    /** Drops the leading partial line if there is one to drop, and hands over what is complete. */
    method CutBuffer()
      modifies `buffer, `skipPartialLine, `handed
      ensures
        var (t, now) := Cut(old(Abs()));
        && Abs() == t && handed == old(handed) + now
        && offset == old(offset) && drainScheduled == old(drainScheduled)
    {
      ghost var text := buffer;
      FirstLine(text);
      if skipPartialLine {
        var nl := IndexOf(buffer, '\n');
        if nl == -1 {
          buffer := "";
        } else {
          buffer := buffer[nl + 1..];
          skipPartialLine := false;
        }
      }
      if !skipPartialLine {
        HandOver();
      }
    }

    method HandOver()
      modifies `buffer, `handed
      ensures buffer == Rest(old(buffer)) && handed == old(handed) + NonBlank(Lines(old(buffer)))
    {
      var newlineIdx := IndexOf(buffer, '\n');
      ghost var text, done := buffer, [];
      while newlineIdx != -1
        invariant newlineIdx == IndexOf(buffer, '\n')
        invariant done + Lines(buffer) == Lines(text) && Rest(buffer) == Rest(text)
        invariant handed == old(handed) + NonBlank(done)
        decreases |buffer|
      {
        FirstLine(buffer);
        var line := buffer[..newlineIdx];
        buffer := buffer[newlineIdx + 1..];
        AppendAssoc(done, [line], Lines(buffer));
        assert (done + [line])[..|done|] == done;
        var nonBlank := HasNonWhite(line);
        if nonBlank {
          handed := handed + [line];
        }
        done := done + [line];
        newlineIdx := IndexOf(buffer, '\n');
      }
      FirstLine(buffer);
      assert done + [] == done;
    }
  }

  /** `line.trim().length > 0` */
  method HasNonWhite(line: string) returns (r: bool)
    ensures r <==> exists c :: c in line && !IsWhite(c)
    ensures r <==> !IsBlank(line)
  {
    BlankIff(line);
    for i := 0 to |line|
      invariant forall j :: 0 <= j < i ==> IsWhite(line[j])
    {
      if !IsWhite(line[i]) {
        return true;
      }
    }
    return false;
  }
}
