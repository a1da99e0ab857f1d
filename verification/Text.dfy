/** Strings as JavaScript sees them: `indexOf`, and cutting a stream of characters into lines. */
module Text {

  /** `s.indexOf(c, from)`: the first position at or after `from`, or -1. */
  function IndexOf(s: string, c: char, from: nat := 0): (i: int)
    requires from <= |s|
    ensures i == -1 || from <= i < |s|
    ensures i == -1 ==> forall k :: from <= k < |s| ==> s[k] != c
    ensures i != -1 ==> s[i] == c && forall k :: from <= k < i ==> s[k] != c
    decreases |s| - from
  {
    if from == |s| then -1
    else if s[from] == c then from
    else IndexOf(s, c, from + 1)
  }

  // The lines of a stream, defined character by character as the characters arrive: a newline ends
  // the line that is waiting, anything else makes the waiting line longer.

  /** The lines that have ended, without their newlines. */
  function Lines(s: string): seq<string> {
    if s == "" then []
    else if s[|s| - 1] == '\n' then Lines(s[..|s| - 1]) + [Rest(s[..|s| - 1])]
    else Lines(s[..|s| - 1])
  }

  /** The line still waiting for its newline. */
  function Rest(s: string): string {
    if s == "" || s[|s| - 1] == '\n' then "" else Rest(s[..|s| - 1]) + [s[|s| - 1]]
  }

  lemma {:induction false} RestHasNoNewline(s: string)
    ensures '\n' !in Rest(s) && |Rest(s)| <= |s|
  {
    if s != "" {
      RestHasNoNewline(s[..|s| - 1]);
    }
  }

  lemma {:induction false} NoNewline(s: string)
    requires '\n' !in s
    ensures Lines(s) == [] && Rest(s) == s
  {
    if s != "" {
      NoNewline(s[..|s| - 1]);
    }
  }

  /** The text that `Lines` cuts: each piece followed by its newline. */
  function Unlines(ls: seq<string>): string {
    if ls == [] then "" else Unlines(ls[..|ls| - 1]) + ls[|ls| - 1] + "\n"
  }

  lemma UnlinesSnoc(ls: seq<string>, l: string)
    ensures Unlines(ls + [l]) == Unlines(ls) + l + "\n"
  {
    assert (ls + [l])[..|ls|] == ls;
  }

  lemma AppendAssoc<T>(a: seq<T>, b: seq<T>, c: seq<T>)
    ensures a + b + c == a + (b + c)
  {
  }

  /** Cutting into lines keeps every character: the pieces, put together again, are the text. */
  lemma {:induction false} LinesRoundTrip(s: string)
    ensures Unlines(Lines(s)) + Rest(s) == s
  {
    if s != "" {
      var p, c := s[..|s| - 1], s[|s| - 1];
      LinesRoundTrip(p);
      assert s == p + [c];
      UnlinesSnoc(Lines(p), Rest(p));
      hide Unlines;
      AppendAssoc(Unlines(Lines(p)), Rest(p), [c]);
    }
  }

  /**
   * Feeding a stream piece by piece loses and invents no line: the lines of `a + b` are the lines
   * of `a` followed by the lines of what `a` left over together with `b`.
   */
  lemma {:induction false} LinesConcat(a: string, b: string)
    ensures Lines(a + b) == Lines(a) + Lines(Rest(a) + b)
    ensures Rest(a + b) == Rest(Rest(a) + b)
    decreases |b|
  {
    if b == "" {
      assert a + b == a && Rest(a) + b == Rest(a);
      RestHasNoNewline(a);
      NoNewline(Rest(a));
    } else {
      var p := b[..|b| - 1];
      LinesConcat(a, p);
      assert (a + b)[..|a + b| - 1] == a + p;
      assert (Rest(a) + b)[..|Rest(a) + b| - 1] == Rest(a) + p;
    }
  }

  /** The lines of a text that starts with a known line. */
  lemma LinesCons(l: string, t: string)
    requires '\n' !in l
    ensures Lines(l + "\n" + t) == [l] + Lines(t)
    ensures Rest(l + "\n" + t) == Rest(t)
  {
    NoNewline(l);
    assert (l + "\n")[..|l|] == l;
    LinesConcat(l + "\n", t);
    assert "" + t == t;
  }

  /** What the usual loop relies on: cut at the first newline, and go on behind it. */
  lemma FirstLine(s: string)
    ensures
      var i := IndexOf(s, '\n');
      && (i == -1 ==> Lines(s) == [] && Rest(s) == s)
      && (i != -1 ==> Lines(s) == [s[..i]] + Lines(s[i + 1..]) && Rest(s) == Rest(s[i + 1..]))
  {
    var i := IndexOf(s, '\n');
    if i == -1 {
      NoNewline(s);
    } else {
      assert s == s[..i] + "\n" + s[i + 1..];
      LinesCons(s[..i], s[i + 1..]);
    }
  }
}
