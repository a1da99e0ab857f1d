/**
 * The hub's in-memory log (src/hub/log-ring.ts): chunks of output are cut into lines, and the lines
 * go into a ring bounded both in lines and in characters.
 */
module LogRing {
  import opened Text
  import opened Options
  import opened RingIndex

  datatype Stream = Stdout | Stderr
  datatype Line = Line(ts: int, stream: Stream, text: string)

  const MAX_LINE_BYTES := 8 * 1024
  const MAX_PARTIAL_BYTES := MAX_LINE_BYTES

  // ----- What a raw line becomes -----

  function StripCR(raw: string): string {
    if raw != "" && raw[|raw| - 1] == '\r' then raw[..|raw| - 1] else raw
  }

  function Kept(raw: string): string {
    var s := StripCR(raw);
    if |s| > MAX_LINE_BYTES then s[..MAX_LINE_BYTES] else s
  }

  /** The texts that end up in the ring, in order: blank lines are dropped. */
  function Texts(raws: seq<string>): seq<string> {
    if raws == [] then []
    else
      var k := Kept(raws[|raws| - 1]);
      Texts(raws[..|raws| - 1]) + if k == "" then [] else [k]
  }

  function Stamp(ts: int, stream: Stream, texts: seq<string>): (r: seq<Line>)
    ensures |r| == |texts|
    ensures forall i :: 0 <= i < |r| ==> r[i] == Line(ts, stream, texts[i])
  {
    seq(|texts|, i requires 0 <= i < |texts| => Line(ts, stream, texts[i]))
  }

  lemma {:induction false} TextsConcat(a: seq<string>, b: seq<string>)
    ensures Texts(a + b) == Texts(a) + Texts(b)
    decreases |b|
  {
    if b == [] {
      assert a + b == a;
    } else {
      var p := b[..|b| - 1];
      assert (a + b)[..|a + b| - 1] == a + p;
      TextsConcat(a, p);
      AppendAssoc(Texts(a), Texts(p), Texts(b)[|Texts(p)|..]);
    }
  }

  lemma StampConcat(ts: int, stream: Stream, a: seq<string>, b: seq<string>)
    ensures Stamp(ts, stream, a + b) == Stamp(ts, stream, a) + Stamp(ts, stream, b)
  {
  }

  lemma StampNext(ts: int, stream: Stream, done: seq<string>, raw: string, before: seq<Line>)
    ensures before + Stamp(ts, stream, Texts(done + [raw]))
         == before + Stamp(ts, stream, Texts(done)) + Stamp(ts, stream, Texts([raw]))
  {
    TextsConcat(done, [raw]);
    StampConcat(ts, stream, Texts(done), Texts([raw]));
  }

  lemma StampNothing(ts: int, stream: Stream)
    ensures Stamp(ts, stream, Texts([])) == []
  {
  }

  // ----- The two bounds -----

  function Bytes(s: seq<Line>): nat {
    if s == [] then 0 else |s[0].text| + Bytes(s[1..])
  }

  /** Within the line capacity and the byte budget; a single line is kept whatever its length. */
  predicate Fits(s: seq<Line>, capacity: nat, maxBytes: int) {
    |s| <= capacity && (Bytes(s) <= maxBytes || |s| <= 1)
  }

  function Last<T>(s: seq<T>, n: nat): seq<T>
    requires n <= |s|
  {
    s[|s| - n..]
  }

  /** `kept` is the longest suffix of everything pushed that fits. */
  ghost predicate IsLongestFit(all: seq<Line>, kept: seq<Line>, capacity: nat, maxBytes: int) {
    && |kept| <= |all|
    && kept == Last(all, |kept|)
    && Fits(kept, capacity, maxBytes)
    && NoLongerFits(all, |kept|, capacity, maxBytes)
  }

  ghost predicate NoLongerFits(all: seq<Line>, k: nat, capacity: nat, maxBytes: int) {
    forall n :: k < n <= |all| ==> !Fits(Last(all, n), capacity, maxBytes)
  }

  /** The specification leaves no choice: what was pushed determines what is kept. */
  lemma LongestFitUnique(all: seq<Line>, a: seq<Line>, b: seq<Line>, capacity: nat, maxBytes: int)
    requires IsLongestFit(all, a, capacity, maxBytes) && IsLongestFit(all, b, capacity, maxBytes)
    ensures a == b
  {
    assert Fits(Last(all, |a|), capacity, maxBytes) && Fits(Last(all, |b|), capacity, maxBytes);
  }

  lemma {:induction false} BytesAppend(s: seq<Line>, e: Line)
    ensures Bytes(s + [e]) == Bytes(s) + |e.text|
  {
    if s == [] {
      assert s + [e] == [e];
    } else {
      assert (s + [e])[1..] == s[1..] + [e];
      BytesAppend(s[1..], e);
    }
  }

  /** The size of the ring is the sum of the lengths of its lines. */
  lemma {:induction false} BytesIs(a: seq<Line>, e: Line, b: seq<Line>)
    ensures Bytes([]) == 0 && Bytes(a + [e] + b) == Bytes(a) + |e.text| + Bytes(b)
    decreases |b|
  {
    if b == [] {
      assert a + [e] + b == a + [e];
      BytesAppend(a, e);
    } else {
      var p, f := b[..|b| - 1], b[|b| - 1];
      assert a + [e] + b == a + [e] + p + [f] && b == p + [f];
      BytesIs(a, e, p);
      BytesAppend(a + [e] + p, f);
      BytesAppend(p, f);
    }
  }

  lemma BytesFirst(s: seq<Line>)
    requires s != []
    ensures Bytes(s) == |s[0].text| + Bytes(s[1..])
  {
  }

  lemma LongerStillTooLong(all: seq<Line>, k: nat, e: Line, capacity: nat, maxBytes: int)
    requires k <= |all| && NoLongerFits(all, k, capacity, maxBytes)
    ensures NoLongerFits(all + [e], k + 1, capacity, maxBytes)
  {
    forall n | k + 1 < n <= |all + [e]|
      ensures !Fits(Last(all + [e], n), capacity, maxBytes)
    {
      assert !Fits(Last(all, n - 1), capacity, maxBytes);
      assert Last(all + [e], n) == Last(all, n - 1) + [e];
      BytesAppend(Last(all, n - 1), e);
    }
  }

  lemma PushedStillTooLong(all: seq<Line>, kept: seq<Line>, e: Line, capacity: nat, maxBytes: int)
    requires IsLongestFit(all, kept, capacity, maxBytes) && capacity >= 1
    ensures
      var survivors := Survivors(kept, capacity);
      && survivors + [e] == Last(all + [e], |survivors| + 1) && |survivors| <= |all|
      && NoLongerFits(all + [e], |survivors| + 1, capacity, maxBytes)
  {
    LongerStillTooLong(all, |kept|, e, capacity, maxBytes);
  }

  lemma TrimStep(all: seq<Line>, k: nat, capacity: nat, maxBytes: int)
    requires 1 < k <= |all| && NoLongerFits(all, k, capacity, maxBytes)
    requires Bytes(Last(all, k)) > maxBytes
    ensures Last(all, k)[1..] == Last(all, k - 1)
    ensures NoLongerFits(all, k - 1, capacity, maxBytes)
  {
  }

  lemma LongestFitReached(all: seq<Line>, k: nat, capacity: nat, maxBytes: int)
    requires k <= |all| && k <= capacity && NoLongerFits(all, k, capacity, maxBytes)
    requires Bytes(Last(all, k)) <= maxBytes || k <= 1
    ensures IsLongestFit(all, Last(all, k), capacity, maxBytes)
  {
  }

  // ----- Reassembling chunks -----

  /** What one `write` hands to the ring, and the remainder it leaves waiting for its newline. */
  function Emit(partial: string, chunk: string): (seq<string>, string) {
    var text := partial + chunk;
    var rest := Rest(text);
    if |rest| > MAX_PARTIAL_BYTES then (Lines(text) + [rest], "") else (Lines(text), rest)
  }

  /** Writing `a` and then `b` shows the same lines, and leaves the same remainder, as writing `a + b`. */
  predicate SameAsOneWrite(partial: string, a: string, b: string) {
    var (la, pa) := Emit(partial, a);
    var (lb, pb) := Emit(pa, b);
    var (lab, pab) := Emit(partial, a + b);
    Texts(la + lb) == Texts(lab) && pb == pab
  }

  lemma {:induction false} EmitWithinCap(partial: string, a: string, b: string)
    requires |Rest(partial + a)| <= MAX_PARTIAL_BYTES
    ensures
      var (la, pa) := Emit(partial, a);
      var (lb, pb) := Emit(pa, b);
      Emit(partial, a + b) == (la + lb, pb)
  {
    hide Lines, Rest;
    assert partial + (a + b) == (partial + a) + b;
    LinesConcat(partial + a, b);
    AppendAssoc(Lines(partial + a), Lines(Rest(partial + a) + b), [Rest(partial + a + b)]);
  }

  lemma KeptOfLong(r: string, s: string)
    requires |r| > MAX_LINE_BYTES
    ensures Kept(r + s) == Kept(r) == r[..MAX_LINE_BYTES]
    ensures Kept(r) != ""
  {
  }

  lemma TextsOne(r: string)
    ensures Texts([r]) == if Kept(r) == "" then [] else [Kept(r)]
  {
    assert [r][..0] == [];
  }

  lemma BlankLines(r: string)
    ensures Kept(r) == "" <==> r == "" || r == "\r"
  {
  }

  /**
   * What is kept of a line, ended by "\n" or by "\r\n": the line without the line end,
       up to the longest that a line may
   * be; of an empty line nothing.
   */
  lemma {:induction false} LineIsKept(line: string, crlf: bool)
    requires '\n' !in line && (line != "" ==> line[|line| - 1] != '\r')
    ensures
      var (raws, rest) := Emit("", line + (if crlf then "\r\n" else "\n"));
      && rest == ""
      && Texts(raws) == if line == "" then [] else if |line| <= 8192 then [line] else [line[..8192]]
  {
    hide Kept, Lines, Rest, Texts, IndexOf;
    var raw := line + if crlf then "\r" else "";
    var text := line + if crlf then "\r\n" else "\n";
    assert raw[..|line|] == line && "" + text == text && text == raw + "\n" + "";
    assert '\n' !in raw;
    LinesCons(raw, "");
    NoNewline("");
    assert [raw] + [] == [raw] && Lines(text) == [raw] && Rest(text) == "";
    TextsOne(raw);
    KeptIs(line, raw, crlf);
  }

  lemma KeptIs(line: string, raw: string, crlf: bool)
    requires raw == line + (if crlf then "\r" else "") && (line != "" ==> line[|line| - 1] != '\r')
    ensures Kept(raw) == if |line| <= 8192 then line else line[..8192]
  {
    assert if crlf then raw[..|raw| - 1] == line else raw == line;
  }

  /** Two texts that differ only in the middle are equal just when the extra middle is empty. */
  lemma ExtraMiddle<T>(a: seq<T>, k: T, m: seq<T>, c: seq<T>)
    ensures a + [k] + (m + c) == a + ([k] + c) <==> m == []
  {
    if m == [] {
      assert m + c == c;
      AppendAssoc(a, [k], c);
    } else {
      assert |a + [k] + (m + c)| != |a + ([k] + c)|;
    }
  }

  lemma SplitOffLong(la: seq<string>, r: string, s: string, ls: seq<string>)
    requires Kept(r + s) == Kept(r) != ""
    ensures Texts(la + [r] + ([s] + ls)) == Texts(la + ([r + s] + ls)) <==> Kept(s) == ""
  {
    TextsConcat(la + [r], [s] + ls);
    TextsConcat(la, [r]);
    TextsConcat([s], ls);
    TextsConcat(la, [r + s] + ls);
    TextsConcat([r + s], ls);
    TextsOne(r);
    TextsOne(s);
    TextsOne(r + s);
    ExtraMiddle(Texts(la), Kept(r), Texts([s]), Texts(ls));
  }

  lemma StartsWithLineEnd(b: string)
    requires IndexOf(b, '\n') != -1
    ensures Kept(b[..IndexOf(b, '\n')]) == "" <==> "\n" <= b || "\r\n" <= b
  {
    var i := IndexOf(b, '\n');
    BlankLines(b[..i]);
    if b[..i] == "\r" {
      assert b[0] == b[..i][0] && b[1] == '\n';
    }
    if "\r\n" <= b {
      assert b[0] == '\r' && b[1] == '\n';
    }
  }

  lemma LinesOfSplit(s: string, i: nat, r: string)
    requires i == IndexOf(s, '\n') && '\n' !in r
    ensures Lines(s) == [s[..i]] + Lines(s[i + 1..]) && Rest(s) == Rest(s[i + 1..])
    ensures Lines(r + s) == [r + s[..i]] + Lines(s[i + 1..]) && Rest(r + s) == Rest(s[i + 1..])
  {
    hide Lines, Rest;
    FirstLine(s);
    assert r + s == (r + s[..i]) + "\n" + s[i + 1..];
    LinesCons(r + s[..i], s[i + 1..]);
  }

  /** Past the cap, `b` decides: it must add nothing to the line that was cut short. */
  lemma {:induction false} EmitPastCap(partial: string, a: string, b: string)
    requires |Rest(partial + a)| > MAX_PARTIAL_BYTES
    ensures SameAsOneWrite(partial, a, b) <==> b == "" || "\n" <= b || "\r\n" <= b
  {
    hide Lines, Rest, Texts, Kept, IndexOf;
    var la, r := Lines(partial + a), Rest(partial + a);
    assert partial + (a + b) == (partial + a) + b;
    LinesConcat(partial + a, b);
    assert "" + b == b;
    RestHasNoNewline(partial + a);
    if IndexOf(b, '\n') == -1 {
      PastCapNoNewline(la, r, b);
    } else {
      PastCapNewline(la, r, b);
    }
  }

  lemma PastCapNewline(la: seq<string>, r: string, b: string)
    requires |r| > MAX_PARTIAL_BYTES && '\n' !in r && IndexOf(b, '\n') != -1
    ensures b != "" && Rest(r + b) == Rest(b)
    ensures Texts(la + [r] + Lines(b)) == Texts(la + Lines(r + b)) <==> "\n" <= b || "\r\n" <= b
    ensures Texts(la + [r] + (Lines(b) + [Rest(b)])) == Texts(la + Lines(r + b) + [Rest(b)])
       <==> "\n" <= b || "\r\n" <= b
  {
    var i := IndexOf(b, '\n');
    var s, ls := b[..i], Lines(b[i + 1..]);
    LinesOfSplit(b, i, r);
    StartsWithLineEnd(b);
    KeptOfLong(r, s);
    SplitOffLong(la, r, s, ls);
    SplitOffLong(la, r, s, ls + [Rest(b)]);
    AppendAssoc([s], ls, [Rest(b)]);
    AppendAssoc([r + s], ls, [Rest(b)]);
    AppendAssoc(la, [r + s] + ls, [Rest(b)]);
  }

  lemma {:induction false} PastCapNoNewline(la: seq<string>, r: string, b: string)
    requires |r| > MAX_PARTIAL_BYTES && '\n' !in r && IndexOf(b, '\n') == -1
    ensures !("\n" <= b || "\r\n" <= b) && (b == "" <==> r + b == r + "")
    ensures Lines(b) == [] && Rest(b) == b && Lines(r + b) == [] && Rest(r + b) == r + b
    ensures |b| > MAX_PARTIAL_BYTES ==> Texts(la + [r] + [b]) != Texts(la + [r + b])
    ensures Texts(la + [r]) == Texts(la + [r + b])
    ensures Lines(b) + [b] == [b] && la + [r] + [] == la + [r] && la + [] + [r + b] == la + [r + b]
  {
    hide Lines, Rest, Texts, Kept, IndexOf;
    NoLineEnd(b);
    NoLineEnd(r + b);
    NoNewline(b);
    NoNewline(r + b);
    UnendedTexts(la, r, b);
  }

  lemma {:induction false} NoLineEnd(b: string)
    requires '\n' !in b
    ensures !("\n" <= b || "\r\n" <= b)
  {
    assert |b| >= 1 ==> b[0] in b;
    assert |b| >= 2 ==> b[1] in b;
  }

  lemma UnendedTexts(la: seq<string>, r: string, b: string)
    requires |r| > MAX_PARTIAL_BYTES
    ensures |b| > MAX_PARTIAL_BYTES ==> Texts(la + [r] + [b]) != Texts(la + [r + b])
    ensures Texts(la + [r]) == Texts(la + [r + b])
  {
    KeptOfLong(r, b);
    TextsOne(r);
    TextsOne(r + b);
    TextsOne(b);
    TextsConcat(la, [r]);
    TextsConcat(la, [r + b]);
    TextsConcat(la + [r], [b]);
    if |b| > MAX_PARTIAL_BYTES {
      BlankLines(b);
      assert |Texts(la + [r] + [b])| == |Texts(la + [r + b])| + 1;
    }
  }

  /**
   * Exactly when splitting one write into two goes unnoticed: nothing overflowed the cap after the
   * first half, or the second half starts by ending the line that was cut short.
   */
  lemma {:induction false} ChunkingExact(partial: string, a: string, b: string)
    ensures SameAsOneWrite(partial, a, b)
       <==> |Rest(partial + a)| <= MAX_PARTIAL_BYTES || b == "" || "\n" <= b || "\r\n" <= b
  {
    if |Rest(partial + a)| <= MAX_PARTIAL_BYTES {
      EmitWithinCap(partial, a, b);
    } else {
      EmitPastCap(partial, a, b);
    }
  }

  function EmitAll(partial: string, chunks: seq<string>): (seq<string>, string)
    decreases |chunks|
  {
    if chunks == [] then ([], partial)
    else
      var (l, p) := Emit(partial, chunks[0]);
      var (ls, q) := EmitAll(p, chunks[1..]);
      (l + ls, q)
  }

  function Joined(chunks: seq<string>): string {
    if chunks == [] then "" else chunks[0] + Joined(chunks[1..])
  }

  /** While no remainder outgrows the cap, a stream may be chunked in any way at all. */
  lemma {:induction false} ChunkingIrrelevant(partial: string, chunks: seq<string>)
    requires |Rest(partial)| <= MAX_PARTIAL_BYTES && Rest(partial) == partial
    requires forall k :: 0 <= k <= |chunks| ==> |Rest(partial + Joined(chunks[..k]))| <= MAX_PARTIAL_BYTES
    ensures EmitAll(partial, chunks) == Emit(partial, Joined(chunks))
    decreases |chunks|
  {
    hide Lines, Rest;
    RestHasNoNewline(partial);
    if chunks == [] {
      NoNewline(partial);
      assert partial + "" == partial;
    } else {
      var p := Rest(partial + chunks[0]);
      assert chunks[..1] == [chunks[0]];
      assert Joined([chunks[0]]) == chunks[0] + Joined([chunks[0]][1..]) == chunks[0];
      assert Joined(chunks[..1]) == chunks[0];
      RestHasNoNewline(partial + chunks[0]);
      NoNewline(p);
      forall k | 0 <= k <= |chunks[1..]|
        ensures |Rest(p + Joined(chunks[1..][..k]))| <= MAX_PARTIAL_BYTES
      {
        var j := Joined(chunks[1..][..k]);
        assert chunks[..k + 1][0] == chunks[0] && chunks[..k + 1][1..] == chunks[1..][..k];
        assert partial + (chunks[0] + j) == (partial + chunks[0]) + j;
        LinesConcat(partial + chunks[0], j);
      }
      ChunkingIrrelevant(p, chunks[1..]);
      EmitWithinCap(partial, chunks[0], Joined(chunks[1..]));
    }
  }

  // ----- The query -----

  predicate Selected(l: Line, since: Option<int>, stream: Option<Stream>) {
    (since.Some? ==> l.ts > since.value) && (stream.Some? ==> l.stream == stream.value)
  }

  function Filter(s: seq<Line>, since: Option<int>, stream: Option<Stream>): seq<Line> {
    if s == [] then []
    else Filter(s[..|s| - 1], since, stream)
         + if Selected(s[|s| - 1], since, stream) then [s[|s| - 1]] else []
  }

  lemma {:induction false} FilterConcat(a: seq<Line>, b: seq<Line>, since: Option<int>, stream: Option<Stream>)
    ensures Filter(a + b, since, stream) == Filter(a, since, stream) + Filter(b, since, stream)
    decreases |b|
  {
    hide Selected;
    if b == [] {
      assert a + b == a;
    } else {
      var p := b[..|b| - 1];
      assert (a + b)[..|a + b| - 1] == a + p;
      FilterConcat(a, p, since, stream);
      AppendAssoc(Filter(a, since, stream), Filter(p, since, stream),
                  if Selected(b[|b| - 1], since, stream) then [b[|b| - 1]] else []);
    }
  }

  /** A query keeps the order, and keeps of each line whether it is newer than asked and of the stream asked for. */
  lemma {:induction false} FilterIs(a: seq<Line>, e: Line, b: seq<Line>, since: Option<int>, stream: Option<Stream>)
    ensures
      var wanted := (since.Some? ==> since.value < e.ts) && (stream.Some? ==> e.stream == stream.value);
      Filter(a + [e] + b, since, stream) ==
      Filter(a, since, stream) + (if wanted then [e] else []) + Filter(b, since, stream)
  {
    assert [e][..0] == [];
    assert Filter([e], since, stream) == if Selected(e, since, stream) then [e] else [];
    hide Filter;
    FilterConcat(a, [e], since, stream);
    FilterConcat(a + [e], b, since, stream);
  }

  /** At most `limit` lines, the newest ones; no limit, or a negative one, keeps them all. */
  function Limited(s: seq<Line>, limit: Option<int>): (r: seq<Line>)
    ensures |r| == if limit.Some? && 0 <= limit.value < |s| then limit.value else |s|
    ensures r == s[|s| - |r|..]
  {
    if limit.Some? && 0 <= limit.value < |s| then Last(s, limit.value) else s
  }

  // ----- The ring -----

  /** How far slot `j` lies behind the oldest line, which is in slot `start`. */
  function Age(j: nat, start: nat, capacity: nat): nat
    requires start <= j + capacity
  {
    if j >= start then j - start else j + capacity - start
  }

  /** Where the oldest line is after a line was put into slot `head`. */
  lemma NextStart(head: nat, count: nat, capacity: nat)
    requires head < capacity && count <= capacity
    ensures
      var start, next := Wrap(head + capacity - count, capacity), Wrap(head + 1, capacity);
      && Age(head, start, capacity) == (if count == capacity then 0 else count)
      && (count < capacity ==> Wrap(next + capacity - (count + 1), capacity) == start)
      && (count == capacity ==> start == head && Wrap(next + capacity - count, capacity) == next)
  {
  }

  function Cell(contents: seq<Line>, i: nat): Option<Line> {
    if i < |contents| then Some(contents[i]) else None
  }

  /** The slots hold exactly `contents`, oldest first, ending just before `head`. */
  ghost predicate Holds(slots: seq<Option<Line>>, head: nat, contents: seq<Line>)
  {
    && head < |slots| && |contents| <= |slots|
    && var start := Wrap(head + |slots| - |contents|, |slots|);
       forall j :: 0 <= j < |slots| ==> slots[j] == Cell(contents, Age(j, start, |slots|))
  }

  /** What is left of `contents` when a line must be added to a ring of `capacity` slots. */
  function Survivors(contents: seq<Line>, capacity: nat): seq<Line> {
    if |contents| == 0 || |contents| < capacity then contents else contents[1..]
  }

  lemma HoldsAfterOverwrite(slots: seq<Option<Line>>, head: nat, contents: seq<Line>, e: Line)
    requires Holds(slots, head, contents)
    ensures slots[head] == if |contents| < |slots| then None else Some(contents[0])
    ensures Holds(slots[head := Some(e)], Wrap(head + 1, |slots|), Survivors(contents, |slots|) + [e])
  {
    NextStart(head, |contents|, |slots|);
  }

  lemma HoldsAfterDrop(slots: seq<Option<Line>>, head: nat, contents: seq<Line>)
    requires Holds(slots, head, contents) && contents != []
    ensures
      var start := Wrap(head + |slots| - |contents|, |slots|);
      slots[start] == Some(contents[0]) && Holds(slots[start := None], head, contents[1..])
  {
  }

  lemma HoldsBounds(slots: seq<Option<Line>>, head: nat, contents: seq<Line>)
    requires Holds(slots, head, contents)
    ensures head < |slots| && |contents| <= |slots|
  {
  }

  lemma HoldsAt(slots: seq<Option<Line>>, head: nat, contents: seq<Line>, i: nat)
    requires Holds(slots, head, contents) && i < |contents|
    ensures
      var start := Wrap(head + |slots| - |contents|, |slots|);
      slots[Wrap(start + i, |slots|)] == Some(contents[i])
  {
  }

  class Ring {
    const capacity: nat
    const maxBytes: int
    const buffer: array<Option<Line>>
    var head: nat
    var count: nat
    var bytes: int
    var dropped: nat
    var partial: map<Stream, string>
    /** Every line ever accepted, and the part of it the ring still holds. */
    ghost var pushed: seq<Line>
    ghost var contents: seq<Line>

    ghost predicate Valid()
      reads this, buffer
    {
      && Window()
      && IsLongestFit(pushed, contents, capacity, maxBytes)
      && dropped + count == |pushed|
      && partial.Keys == {Stdout, Stderr}
    }

    ghost predicate Window()
      reads this, buffer
    {
      && 0 < capacity == buffer.Length
      && count == |contents| && bytes == Bytes(contents)
      && Holds(buffer[..], head, contents)
    }

    constructor (capacity: nat, maxBytes: int)
      requires capacity >= 1
      ensures Valid() && fresh(buffer)
      ensures this.capacity == capacity && this.maxBytes == maxBytes
      ensures pushed == [] && partial == map[Stdout := "", Stderr := ""]
    {
      this.capacity, this.maxBytes := capacity, maxBytes;
      buffer := new Option<Line>[capacity](_ => None);
      head, count, bytes, dropped := 0, 0, 0, 0;
      partial := map[Stdout := "", Stderr := ""];
      pushed, contents := [], [];
    }

    method Write(stream: Stream, chunk: string, now: int)
      requires Valid()
      modifies this, buffer
      ensures Valid()
      ensures
        var (raws, rest) := Emit(old(partial[stream]), chunk);
        && pushed == old(pushed) + Stamp(now, stream, Texts(raws))
        && partial == old(partial)[stream := rest]
    {
      hide Lines, Rest, Texts, Kept, IsLongestFit;
      StampNothing(now, stream);
      var rest := partial[stream] + chunk;
      var nl := IndexOf(rest, '\n');
      ghost var text := rest;
      ghost var done: seq<string> := [];
      while nl != -1
        invariant Valid() && partial == old(partial)
        invariant nl == IndexOf(rest, '\n')
        invariant pushed == old(pushed) + Stamp(now, stream, Texts(done))
        invariant done + Lines(rest) == Lines(text) && Rest(rest) == Rest(text)
        decreases |rest|
      {
        PushLine(stream, rest[..nl], now);
        StampNext(now, stream, done, rest[..nl], old(pushed));
        FirstLine(rest);
        AppendAssoc(done, [rest[..nl]], Lines(rest[nl + 1..]));
        done := done + [rest[..nl]];
        rest := rest[nl + 1..];
        nl := IndexOf(rest, '\n');
      }
      FirstLine(rest);
      assert done + [] == done;
      if |rest| > MAX_PARTIAL_BYTES {
        PushLine(stream, rest, now);
        StampNext(now, stream, done, rest, old(pushed));
        rest := "";
      }
      partial := partial[stream := rest];
    }

    method Flush(now: int)
      requires Valid()
      modifies this, buffer
      ensures Valid() && partial == map[Stdout := "", Stderr := ""]
      ensures pushed == old(pushed) + Stamp(now, Stdout, Texts([old(partial[Stdout])]))
                                    + Stamp(now, Stderr, Texts([old(partial[Stderr])]))
    {
      FlushStream(Stdout, now);
      FlushStream(Stderr, now);
    }

    method FlushStream(stream: Stream, now: int)
      requires Valid()
      modifies this, buffer
      ensures Valid() && partial == old(partial)[stream := ""]
      ensures pushed == old(pushed) + Stamp(now, stream, Texts([old(partial[stream])]))
    {
      var rest := partial[stream];
      TextsOne(rest);
      if |rest| > 0 {
        PushLine(stream, rest, now);
        partial := partial[stream := ""];
      }
    }

    method PushLine(stream: Stream, raw: string, now: int)
      requires Valid()
      modifies `head, `count, `bytes, `dropped, `contents, `pushed, buffer
      ensures Valid()
      ensures pushed == old(pushed) + Stamp(now, stream, Texts([raw]))
    {
      hide Texts, Bytes, NoLongerFits, Holds, IsLongestFit, Survivors;
      TextsOne(raw);
      var stripped := if raw != "" && raw[|raw| - 1] == '\r' then raw[..|raw| - 1] else raw;
      if |stripped| == 0 {
        return;
      }
      var text := if |stripped| > MAX_LINE_BYTES then stripped[..MAX_LINE_BYTES] else stripped;
      var entry := Line(now, stream, text);
      assert Stamp(now, stream, [text]) == [entry];
      HoldsBounds(buffer[..], head, contents);
      PushedStillTooLong(pushed, contents, entry, capacity, maxBytes);
      pushed := pushed + [entry];
      Overwrite(entry);
      while bytes > maxBytes && count > 1
        invariant Window() && pushed == old(pushed) + [entry]
        invariant 0 < count == |contents| <= |pushed| && contents == Last(pushed, count)
        invariant NoLongerFits(pushed, count, capacity, maxBytes)
        invariant dropped + count == |pushed|
        decreases count
      {
        TrimStep(pushed, count, capacity, maxBytes);
        DropOldest();
      }
      HoldsBounds(buffer[..], head, contents);
      LongestFitReached(pushed, count, capacity, maxBytes);
    }

    /** The new line takes the slot at `head`, evicting the line that may be there. */
    method Overwrite(entry: Line)
      requires Window()
      modifies `head, `count, `bytes, `dropped, `contents, buffer
      ensures Window() && contents == Survivors(old(contents), capacity) + [entry]
      ensures dropped + count == old(dropped + count) + 1
    {
      hide Holds, Bytes;
      HoldsAfterOverwrite(buffer[..], head, contents, entry);
      BytesAppend(Survivors(contents, capacity), entry);
      HoldsBounds(buffer[..], head, contents);
      var evicted := buffer[head];
      if evicted.Some? {
        BytesFirst(contents);
        bytes := bytes - |evicted.value.text|;
        dropped := dropped + 1;
      }
      buffer[head] := Some(entry);
      bytes := bytes + |entry.text|;
      ModIsWrap(head + 1, capacity);
      head := (head + 1) % capacity;
      if count < capacity {
        count := count + 1;
      }
      contents := Survivors(contents, capacity) + [entry];
    }

    /** One turn of the loop that enforces the byte ceiling. */
    method DropOldest()
      requires Window() && count > 1
      modifies `count, `bytes, `dropped, `contents, buffer
      ensures Window() && contents == old(contents)[1..]
      ensures dropped + count == old(dropped + count)
    {
      hide Holds, Bytes;
      HoldsAfterDrop(buffer[..], head, contents);
      HoldsBounds(buffer[..], head, contents);
      BytesFirst(contents);
      ModIsWrap(head + capacity - count, capacity);
      var oldestIdx := (head - count + capacity) % capacity;
      var oldest := buffer[oldestIdx].value;
      buffer[oldestIdx] := None;
      bytes := bytes - |oldest.text|;
      count := count - 1;
      dropped := dropped + 1;
      contents := contents[1..];
    }

    method Query(since: Option<int>, limit: Option<int>, stream: Option<Stream>) returns (r: seq<Line>)
      requires Valid()
      ensures r == Limited(Filter(contents, since, stream), limit)
    {
      hide Holds;
      HoldsBounds(buffer[..], head, contents);
      var results: seq<Line> := [];
      ModIsWrap(head + capacity - count, capacity);
      var start := (head - count + capacity) % capacity;
      for i := 0 to count
        invariant results == Filter(contents[..i], since, stream)
      {
        ModIsWrap(start + i, capacity);
        HoldsAt(buffer[..], head, contents, i);
        assert contents[..i + 1][..i] == contents[..i];
        var entry := buffer[(start + i) % capacity].value;
        if since.Some? && entry.ts <= since.value {
          continue;
        }
        if stream.Some? && entry.stream != stream.value {
          continue;
        }
        results := results + [entry];
      }
      assert contents[..count] == contents;
      if limit.Some? && limit.value >= 0 && |results| > limit.value {
        return results[|results| - limit.value..];
      }
      return results;
    }
  }
}
