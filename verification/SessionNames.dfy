/**
 * Naming the tmux sessions the mirror agent starts (src/mirror-agent/host-channel.ts): the first free name of a
 * series, and a batch of restores that must not collide. A free name is found after no more probes than there are
 * taken names, and one more.
 */
module SessionNames {
  // ----- Decimal numerals -----

  function Digit(d: nat): char
    requires d < 10
  {
    "0123456789"[d]
  }

  function Decimal(n: nat): string {
    if n < 10 then [Digit(n)] else Decimal(n / 10) + [Digit(n % 10)]
  }

  function DigitValue(c: char): nat {
    if '0' <= c <= '9' then (c as int) - ('0' as int) else 0
  }

  function Value(s: string): nat {
    if s == "" then 0 else 10 * Value(s[..|s| - 1]) + DigitValue(s[|s| - 1])
  }

  lemma {:induction false} DecimalRoundTrip(n: nat)
    ensures Value(Decimal(n)) == n
  {
    DigitRoundTrip(n % 10);
    if n < 10 {
      assert [Digit(n)][..0] == "";
    } else {
      DecimalRoundTrip(n / 10);
      assert Decimal(n)[..|Decimal(n)| - 1] == Decimal(n / 10);
    }
  }

  lemma DigitRoundTrip(d: nat)
    requires d < 10
    ensures DigitValue(Digit(d)) == d
  {
  }

  // ----- The series base, base-2, base-3, ... -----

  function Candidate(base: string, k: nat): string {
    if k <= 1 then base else base + "-" + Decimal(k)
  }

  lemma CandidatesDiffer(base: string, j: nat, k: nat)
    requires 1 <= j < k
    ensures Candidate(base, j) != Candidate(base, k)
  {
    DecimalRoundTrip(j);
    DecimalRoundTrip(k);
    if j == 1 {
      assert |Candidate(base, k)| > |base|;
    } else {
      assert Candidate(base, j)[|base| + 1..] == Decimal(j);
      assert Candidate(base, k)[|base| + 1..] == Decimal(k);
    }
  }

  ghost function FirstNames(base: string, k: nat): set<string> {
    set j | 1 <= j < k :: Candidate(base, j)
  }

  lemma {:induction false} FirstNamesCount(base: string, k: nat)
    requires k >= 1
    ensures |FirstNames(base, k)| == k - 1
  {
    hide Candidate;
    if k == 1 {
      assert FirstNames(base, 1) == {};
    } else {
      FirstNamesCount(base, k - 1);
      forall j | 1 <= j < k - 1
        ensures Candidate(base, j) != Candidate(base, k - 1)
      {
        CandidatesDiffer(base, j, k - 1);
      }
      assert FirstNames(base, k) == FirstNames(base, k - 1) + {Candidate(base, k - 1)};
    }
  }

  lemma SubsetSize<T>(a: set<T>, b: set<T>)
    requires a <= b
    ensures |a| <= |b|
  {
    if a != {} {
      var x :| x in a;
      SubsetSize(a - {x}, b - {x});
    }
  }

  /** If the first k - 1 names of the series are all taken, then at least k - 1 names are taken. */
  lemma Pigeonhole(base: string, taken: set<string>, k: nat)
    requires k >= 1 && forall j :: 1 <= j < k ==> Candidate(base, j) in taken
    ensures k <= |taken| + 1
  {
    FirstNamesCount(base, k);
    SubsetSize(FirstNames(base, k), taken);
  }

  ghost predicate IsFirstFree(base: string, taken: set<string>, k: nat) {
    && k >= 1 && Candidate(base, k) !in taken
    && forall j :: 1 <= j < k ==> Candidate(base, j) in taken
  }

  lemma FirstFreeUnique(base: string, taken: set<string>, j: nat, k: nat)
    requires IsFirstFree(base, taken, j) && IsFirstFree(base, taken, k)
    ensures j == k
  {
  }

  /** Terminates within |taken| + 1 probes, on the first name of the series that is not taken. */
  method FreeSessionName(base: string, taken: set<string>) returns (name: string, n: nat)
    ensures IsFirstFree(base, taken, n) && name == Candidate(base, n)
    ensures name == if n == 1 then base else base + "-" + Decimal(n)
    ensures n <= |taken| + 1
  {
    n := 1;
    name := base;
    while name in taken
      invariant n >= 1 && name == Candidate(base, n)
      invariant forall j :: 1 <= j < n ==> Candidate(base, j) in taken
      decreases |taken| + 1 - n
    {
      Pigeonhole(base, taken, n + 1);
      n := n + 1;
      name := base + "-" + Decimal(n);
    }
    Pigeonhole(base, taken, n);
  }

  // ----- A batch of restores -----

  /** A requested session is no longer there to restore, or its spawn failed, or it runs under a name. */
  datatype Result = Gone(id: string) | Failed(id: string) | Restored(id: string, name: string)

  function RestoredNames(rs: seq<Result>): set<string> {
    set r | r in rs && r.Restored? :: r.name
  }

  ghost predicate NamesDistinct(rs: seq<Result>) {
    forall i, j :: 0 <= i < j < |rs| && rs[i].Restored? && rs[j].Restored? ==> rs[i].name != rs[j].name
  }

  /** What becomes of one requested session, given the names in use when its turn comes. */
  ghost predicate Outcome(r: Result, id: string, bases: map<string, string>, taken: set<string>, spawned: bool) {
    if id !in bases then r == Gone(id)
    else if !spawned then r == Failed(id)
    else r.Restored? && r.id == id && exists k :: IsFirstFree(bases[id], taken, k) && r.name == Candidate(bases[id], k)
  }

  /** What becomes of the first |rs| requested sessions. */
  ghost predicate Outcomes(rs: seq<Result>, ids: seq<string>, bases: map<string, string>, initial: set<string>,
                           spawns: nat -> bool) {
    && |rs| <= |ids|
    && forall i :: 0 <= i < |rs| ==> Outcome(rs[i], ids[i], bases, initial + RestoredNames(rs[..i]), spawns(i))
  }

  lemma {:induction false} OutcomesAppend(rs: seq<Result>, r: Result, ids: seq<string>, bases: map<string, string>,
                                          initial: set<string>, spawns: nat -> bool)
    requires Outcomes(rs, ids, bases, initial, spawns) && |rs| < |ids|
    requires Outcome(r, ids[|rs|], bases, initial + RestoredNames(rs), spawns(|rs|))
    ensures Outcomes(rs + [r], ids, bases, initial, spawns)
  {
    hide Outcome, RestoredNames;
    forall i | 0 <= i < |rs + [r]|
      ensures Outcome((rs + [r])[i], ids[i], bases, initial + RestoredNames((rs + [r])[..i]), spawns(i))
    {
      if i < |rs| {
        assert (rs + [r])[..i] == rs[..i];
      } else {
        assert (rs + [r])[..i] == rs;
      }
    }
  }

  /** `raw` without repetitions, in order of first occurrence. */
  function Distinct(raw: seq<string>): seq<string> {
    if raw == [] then []
    else
      var before, x := Distinct(raw[..|raw| - 1]), raw[|raw| - 1];
      if x in raw[..|raw| - 1] then before else before + [x]
  }

  lemma {:induction false} DistinctIsSet(raw: seq<string>)
    ensures forall x :: x in Distinct(raw) <==> x in raw
    ensures forall i, j :: 0 <= i < j < |Distinct(raw)| ==> Distinct(raw)[i] != Distinct(raw)[j]
  {
    if raw != [] {
      var p, x := raw[..|raw| - 1], raw[|raw| - 1];
      DistinctIsSet(p);
      assert raw == p + [x];
    }
  }

  method Dedupe(raw: seq<string>) returns (ids: seq<string>)
    ensures ids == Distinct(raw)
  {
    var seen: set<string> := {};
    ids := [];
    for i := 0 to |raw|
      invariant ids == Distinct(raw[..i])
      invariant forall x :: x in seen <==> x in raw[..i]
    {
      assert raw[..i + 1][..i] == raw[..i];
      if raw[i] in seen {
        continue;
      }
      seen := seen + {raw[i]};
      ids := ids + [raw[i]];
    }
    assert raw[..|raw|] == raw;
  }

  /**
   * Restores the sessions one after the other. A name is reserved before its spawn and given back if
   * the spawn fails; still no two sessions that came up share a name, and none takes over a name that
   * was in use at the start. `bases` holds the base name of each session that can still be restored,
   * `spawns` says which spawns succeed.
   */
  method Restore(rawIds: seq<string>, bases: map<string, string>, initial: set<string>, spawns: nat -> bool)
    returns (results: seq<Result>, taken: set<string>)
    ensures |results| == |Distinct(rawIds)| && Outcomes(results, Distinct(rawIds), bases, initial, spawns)
    ensures NamesDistinct(results) && RestoredNames(results) !! initial
    ensures taken == initial + RestoredNames(results)
  {
    hide RestoredNames, NamesDistinct, Outcomes, Outcome, Distinct;
    var ids := Dedupe(rawIds);
    results, taken := [], initial;
    NothingYet(ids, bases, initial, spawns);
    for i := 0 to |ids|
      invariant |results| == i && Outcomes(results, ids, bases, initial, spawns)
      invariant NamesDistinct(results) && RestoredNames(results) !! initial
      invariant taken == initial + RestoredNames(results)
    {
      var r, now := RestoreOne(ids[i], bases, taken, spawns(i));
      OutcomesAppend(results, r, ids, bases, initial, spawns);
      OneMoreResult(results, r);
      results, taken := results + [r], now;
    }
  }

  /** One turn of the loop: reserve a name, spawn, give the name back if the spawn failed. */
  method RestoreOne(id: string, bases: map<string, string>, taken: set<string>, spawned: bool)
    returns (r: Result, now: set<string>)
    ensures Outcome(r, id, bases, taken, spawned)
    ensures (r == Gone(id) <==> id !in bases) && (r == Failed(id) <==> id in bases && !spawned)
    ensures r.Restored? ==> r.name !in taken
    ensures now == taken + if r.Restored? then {r.name} else {}
  {
    now := taken;
    if id !in bases {
      return Gone(id), now;
    }
    var name, n := FreeSessionName(bases[id], now);
    now := now + {name};
    if spawned {
      return Restored(id, name), now;
    }
    now := now - {name};
    return Failed(id), now;
  }

  lemma NothingYet(ids: seq<string>, bases: map<string, string>, initial: set<string>, spawns: nat -> bool)
    ensures Outcomes([], ids, bases, initial, spawns) && NamesDistinct([]) && RestoredNames([]) == {}
  {
  }

  lemma OneMoreResult(rs: seq<Result>, r: Result)
    ensures RestoredNames(rs + [r]) == RestoredNames(rs) + if r.Restored? then {r.name} else {}
    ensures NamesDistinct(rs) && (r.Restored? ==> r.name !in RestoredNames(rs)) ==> NamesDistinct(rs + [r])
  {
    var all := rs + [r];
    assert all[|rs|] == r;
    forall x | x in rs
      ensures x in all
    {
    }
    if r.Restored? && r.name !in RestoredNames(rs) {
      forall i | 0 <= i < |rs| && rs[i].Restored?
        ensures rs[i].name != r.name
      {
        assert rs[i].name in RestoredNames(rs);
      }
    }
  }
}
