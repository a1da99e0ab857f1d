/**
 * JavaScript's `Map` and `Set` of strings: they iterate in insertion order, and a key that is set again
 * keeps its place unless it was deleted first.
 */
module JsMap {
  import opened Options

  // ----- Sequences without duplicates -----

  ghost predicate NoDup(s: seq<string>) {
    forall i, j :: 0 <= i < j < |s| ==> s[i] != s[j]
  }

  /** `s` without `x`. */
  function Without(s: seq<string>, x: string): seq<string> {
    if s == [] then []
    else Without(s[..|s| - 1], x) + if s[|s| - 1] == x then [] else [s[|s| - 1]]
  }

  lemma {:induction false} WithoutMembers(s: seq<string>, x: string)
    ensures forall y :: y in Without(s, x) <==> y in s && y != x
    ensures |Without(s, x)| <= |s|
  {
    if s != [] {
      var p := s[..|s| - 1];
      assert s == p + [s[|s| - 1]];
      WithoutMembers(p, x);
    }
  }

  lemma {:induction false} WithoutNoDup(s: seq<string>, x: string)
    requires NoDup(s)
    ensures NoDup(Without(s, x))
  {
    if s != [] {
      var p := s[..|s| - 1];
      WithoutNoDup(p, x);
      WithoutMembers(p, x);
      assert s[|s| - 1] !in p;
    }
  }

  /** `s` is sorted by `f`, strictly. */
  ghost predicate Increasing(s: seq<string>, f: string -> int) {
    forall i, j :: 0 <= i < j < |s| ==> f(s[i]) < f(s[j])
  }

  lemma {:induction false} WithoutIncreasing(s: seq<string>, x: string, f: string -> int)
    requires Increasing(s, f)
    ensures Increasing(Without(s, x), f)
  {
    if s != [] {
      var p := s[..|s| - 1];
      WithoutIncreasing(p, x, f);
      WithoutMembers(p, x);
      assert forall y :: y in p ==> f(y) < f(s[|s| - 1]);
    }
  }

  lemma {:induction false} WithoutAbsent(s: seq<string>, x: string)
    requires x !in s
    ensures Without(s, x) == s
  {
    if s != [] {
      assert s[|s| - 1] in s;
      WithoutAbsent(s[..|s| - 1], x);
    }
  }

  lemma {:induction false} WithoutConcat(a: seq<string>, b: seq<string>, x: string)
    ensures Without(a + b, x) == Without(a, x) + Without(b, x)
  {
    if b == [] {
      assert a + b == a;
    } else {
      assert (a + b)[..|a + b| - 1] == a + b[..|b| - 1];
      WithoutConcat(a, b[..|b| - 1], x);
    }
  }

  /** Deleting a key that is there makes the sequence shorter by one. */
  lemma {:induction false} WithoutSize(s: seq<string>, x: string)
    requires NoDup(s) && x in s
    ensures |Without(s, x)| == |s| - 1
  {
    var p, y := s[..|s| - 1], s[|s| - 1];
    if y == x {
      WithoutAbsent(p, x);
    } else {
      assert x in p;
      WithoutSize(p, x);
    }
  }

  lemma WithoutFirst(s: seq<string>)
    requires NoDup(s) && s != []
    ensures Without(s, s[0]) == s[1..]
  {
    assert s == [s[0]] + s[1..];
    WithoutConcat([s[0]], s[1..], s[0]);
    assert Without([s[0]], s[0]) == [];
    WithoutAbsent(s[1..], s[0]);
  }

  lemma NoDupAppend(s: seq<string>, x: string)
    requires NoDup(s) && x !in s
    ensures NoDup(s + [x])
  {
  }

  /** Putting `x` last keeps the order, if `x` has come last. */
  lemma TouchIncreases(s: seq<string>, x: string, f: string -> int, g: string -> int)
    requires NoDup(s) && x !in s && Increasing(s, f) && forall y :: y in s ==> g(y) == f(y) && f(y) < g(x)
    ensures NoDup(s + [x]) && Increasing(s + [x], g)
  {
  }

  // ----- Tables -----

  datatype Table<V> = Table(order: seq<string>, at: map<string, V>) {
    ghost predicate Wf() {
      NoDup(order) && forall k :: k in order <==> k in at
    }

    function Get(k: string): Option<V> {
      if k in at then Some(at[k]) else None
    }

    function Size(): nat {
      |order|
    }

    function Set(k: string, v: V): Table<V> {
      Table(if k in at then order else order + [k], at[k := v])
    }

    function Delete(k: string): Table<V> {
      Table(Without(order, k), at - {k})
    }

    lemma SetWf(k: string, v: V)
      requires Wf()
      ensures Set(k, v).Wf()
    {
    }

    lemma DeleteWf(k: string)
      requires Wf()
      ensures Delete(k).Wf() && Delete(k).Size() <= Size()
      ensures k in at ==> Delete(k).Size() == Size() - 1
      ensures k !in at ==> Delete(k) == this
    {
      WithoutMembers(order, k);
      WithoutNoDup(order, k);
      if k in at {
        WithoutSize(order, k);
      } else {
        WithoutAbsent(order, k);
        assert at - {k} == at;
      }
    }
  }

  function Empty<V>(): Table<V> {
    Table([], map[])
  }
}
