/** Agent names, `session:user@host`, and the partial addresses that stand for them (src/hub/registry.ts). */
module Names {
  import opened Text

  datatype Parts = Parts(session: string, user: string, host: string)

  /** All three parts present, the first ':' before an '@'. */
  predicate IsValid(name: string) {
    var colon := IndexOf(name, ':');
    && colon > 0
    && var at := IndexOf(name, '@', colon + 1);
    at > colon + 1 && at < |name| - 1
  }

  function Parse(name: string): Parts {
    var colon, at := IndexOf(name, ':'), IndexOf(name, '@');
    if colon != -1 && at != -1 && colon < at then Parts(name[..colon], name[colon + 1..at], name[at + 1..])
    else if at != -1 then Parts(name[..at], "", name[at + 1..])
    else Parts(name, "", "")
  }

  function Print(p: Parts): string {
    p.session + ":" + p.user + "@" + p.host
  }

  predicate Clean(part: string) {
    ':' !in part && '@' !in part
  }

  // ----- Reading and printing names -----

  lemma IndexIs(s: string, c: char, i: nat)
    requires i < |s| && s[i] == c && c !in s[..i]
    ensures IndexOf(s, c) == i
  {
    assert forall k :: 0 <= k < i ==> s[..i][k] == s[k];
  }

  lemma IndexWithin(s: string, c: char, i: nat)
    requires i <= |s| && c in s[..i]
    ensures 0 <= IndexOf(s, c) < i
  {
    var k :| 0 <= k < i && s[..i][k] == c;
    assert s[k] == c;
  }

  /** Where the separators of a printed name are. */
  lemma PrintedAt(p: Parts)
    ensures
      var n, c := Print(p), |p.session|;
      var a := c + 1 + |p.user|;
      && |n| == a + 1 + |p.host| && n[c] == ':' && n[a] == '@'
      && n[..c] == p.session && n[c + 1..a] == p.user && n[a + 1..] == p.host
      && n[..a] == p.session + ":" + p.user
  {
  }

  /** A printed name is read back as it was exactly when no part holds a separator too early. */
  lemma ParseOfPrint(p: Parts)
    ensures Parse(Print(p)) == p <==> ':' !in p.session && '@' !in p.session && '@' !in p.user
  {
    var n, c := Print(p), |p.session|;
    var a := c + 1 + |p.user|;
    PrintedAt(p);
    hide Print;
    if '@' in p.session || '@' in p.user {
      assert '@' in n[..a];
      IndexWithin(n, '@', a);
    } else {
      assert '@' !in n[..a];
      IndexIs(n, '@', a);
      if ':' in p.session {
        IndexWithin(n, ':', c);
      } else {
        IndexIs(n, ':', c);
      }
    }
  }

  lemma CutAt(name: string, c: nat, a: nat)
    requires c < a < |name| && name[c] == ':' && name[a] == '@'
    ensures name == name[..c] + ":" + name[c + 1..a] + "@" + name[a + 1..]
  {
  }

  /** A valid name is printed back as it was exactly when its first '@' comes after its first ':'. */
  lemma PrintOfParse(name: string)
    requires IsValid(name)
    ensures Print(Parse(name)) == name <==> IndexOf(name, ':') < IndexOf(name, '@')
    ensures IndexOf(name, ':') < IndexOf(name, '@') ==>
              Parse(name).session != "" && Parse(name).user != "" && Parse(name).host != ""
  {
    var c, a := IndexOf(name, ':'), IndexOf(name, '@');
    var p := Parse(name);
    var at := IndexOf(name, '@', c + 1);
    assert name[at] == '@' && name[c] == ':' && name[a] == '@';
    hide IndexOf;
    if c < a {
      assert a == at;
      CutAt(name, c, a);
    } else {
      assert |Print(p)| == |name| + 1;
    }
  }

  /** A name printed from parts without early separators is valid exactly when no part is empty. */
  lemma PrintedIsValid(p: Parts)
    requires ':' !in p.session && '@' !in p.user
    ensures IsValid(Print(p)) <==> p.session != "" && p.user != "" && p.host != ""
  {
    var n, c := Print(p), |p.session|;
    var a := c + 1 + |p.user|;
    PrintedAt(p);
    hide Print;
    IndexIs(n, ':', c);
    assert forall k :: c + 1 <= k < a ==> n[k] == n[c + 1..a][k - c - 1];
    assert IndexOf(n, '@', c + 1) == a;
  }

  /** The hub's own sender name has no ':', so nobody can register it. */
  lemma SystemNameIsReserved()
    ensures !IsValid("system@claude-net")
  {
    assert ':' !in "system@claude-net";
  }

  // ----- Addresses -----

  datatype Criterion =
    | BySessionUser(session: string, user: string)
    | ByUserHost(user: string, host: string)
    | BySession(word: string)
    | ByUser(word: string)
    | ByHost(word: string)

  predicate Meets(name: string, c: Criterion) {
    var p := Parse(name);
    match c
    case BySessionUser(s, u) => p.session == s && p.user == u
    case ByUserHost(u, h) => p.user == u && p.host == h
    case BySession(w) => p.session == w
    case ByUser(w) => p.user == w
    case ByHost(w) => p.host == w
  }

  function Select(names: seq<string>, c: Criterion): seq<string> {
    if names == [] then []
    else Select(names[..|names| - 1], c) + if Meets(names[|names| - 1], c) then [names[|names| - 1]] else []
  }

  /** The first two pieces of `s.split(sep)`. */
  function FirstTwo(s: string, sep: char): (string, string)
    requires sep in s
  {
    var i := IndexOf(s, sep);
    var j := IndexOf(s, sep, i + 1);
    (s[..i], if j == -1 then s[i + 1..] else s[i + 1..j])
  }

  /** The names an address stands for: a full name, `session:user`, `user@host`, or a plain word. */
  function MatchNames(query: string, names: seq<string>): seq<string> {
    if ':' in query && '@' in query then (if query in names then [query] else [])
    else if ':' in query then
      var (session, user) := FirstTwo(query, ':');
      Select(names, BySessionUser(session, user))
    else if '@' in query then
      var (user, host) := FirstTwo(query, '@');
      Select(names, ByUserHost(user, host))
    else if Select(names, BySession(query)) != [] then Select(names, BySession(query))
    else if Select(names, ByUser(query)) != [] then Select(names, ByUser(query))
    else Select(names, ByHost(query))
  }

  lemma {:induction false} SelectMembers(names: seq<string>, c: Criterion)
    ensures forall n :: n in Select(names, c) <==> n in names && Meets(n, c)
  {
    if names != [] {
      var p := names[..|names| - 1];
      assert names == p + [names[|names| - 1]];
      SelectMembers(p, c);
    }
  }

  lemma FirstTwoOf(a: string, sep: char, b: string)
    requires sep !in a && sep !in b
    ensures FirstTwo(a + [sep] + b, sep) == (a, b)
  {
    var s := a + [sep] + b;
    assert s[|a|] == sep && s[..|a|] == a && s[|a| + 1..] == b;
    IndexIs(s, sep, |a|);
    assert forall k :: |a| + 1 <= k < |s| ==> s[k] == b[k - |a| - 1];
  }

  lemma WhatSessionUserMeans(session: string, user: string, names: seq<string>)
    requires Clean(session) && Clean(user)
    ensures MatchNames(session + ":" + user, names) == Select(names, BySessionUser(session, user))
  {
    var q := session + ":" + user;
    assert q[|session|] == ':' && '@' !in q;
    FirstTwoOf(session, ':', user);
    hide FirstTwo, Select;
  }

  lemma {:induction false} WhatUserHostMeans(user: string, host: string, names: seq<string>)
    requires Clean(user) && Clean(host)
    ensures MatchNames(user + "@" + host, names) == Select(names, ByUserHost(user, host))
  {
    var q := user + "@" + host;
    assert q[|user|] == '@' && ':' !in q;
    FirstTwoOf(user, '@', host);
    hide FirstTwo, Select;
  }

  /**
   * Every address made from a name's own parts reaches the name; the plain user and the plain host
   * exactly when no name is reached by the same word at a higher rank.
   */
  lemma OwnAddressesMatch(p: Parts, names: seq<string>)
    requires Clean(p.session) && Clean(p.user) && Clean(p.host) && Print(p) in names
    ensures MatchNames(Print(p), names) == [Print(p)]
    ensures Print(p) in MatchNames(p.session + ":" + p.user, names)
    ensures Print(p) in MatchNames(p.user + "@" + p.host, names)
    ensures Print(p) in MatchNames(p.session, names)
    ensures Print(p) in MatchNames(p.user, names) <==>
            (p.session == p.user || forall n :: n in names ==> Parse(n).session != p.user)
    ensures Print(p) in MatchNames(p.host, names) <==>
            (|| p.session == p.host
             || ((forall n :: n in names ==> Parse(n).session != p.host)
                 && (p.user == p.host || forall n :: n in names ==> Parse(n).user != p.host)))
  {
    var n := Print(p);
    ParseOfPrint(p);
    PrintedAt(p);
    assert n[|p.session|] in n && n[|p.session| + 1 + |p.user|] in n;
    WhatSessionUserMeans(p.session, p.user, names);
    WhatUserHostMeans(p.user, p.host, names);
    SelectMembers(names, BySessionUser(p.session, p.user));
    SelectMembers(names, ByUserHost(p.user, p.host));
    hide Print, Parse, FirstTwo;
    PlainWord(p.session, n, names);
    PlainWord(p.user, n, names);
    PlainWord(p.host, n, names);
  }

  /** What a plain word reaches: sessions, or if there are none, users, or if there are none, hosts. */
  lemma PlainWord(word: string, name: string, names: seq<string>)
    requires Clean(word) && name in names
    ensures name in MatchNames(word, names) <==>
            (|| Parse(name).session == word
             || ((forall n :: n in names ==> Parse(n).session != word)
                 && (|| Parse(name).user == word
                     || ((forall n :: n in names ==> Parse(n).user != word) && Parse(name).host == word))))
  {
    SelectMembers(names, BySession(word));
    SelectMembers(names, ByUser(word));
    SelectMembers(names, ByHost(word));
    hide Parse, Select, FirstTwo;
    var s, u := Select(names, BySession(word)), Select(names, ByUser(word));
    if s != [] {
      assert s[0] in s && Meets(s[0], BySession(word));
    } else if u != [] {
      assert u[0] in u && Meets(u[0], ByUser(word));
    }
    assert forall n :: n in names && Parse(n).session == word ==> Meets(n, BySession(word));
    assert forall n :: n in names && Parse(n).user == word ==> Meets(n, ByUser(word));
    assert Meets(name, ByHost(word)) <==> Parse(name).host == word;
  }

  /** Some reading of the address fits the name. */
  predicate Fits(query: string, name: string) {
    if ':' in query && '@' in query then name == query
    else if ':' in query then Meets(name, BySessionUser(FirstTwo(query, ':').0, FirstTwo(query, ':').1))
    else if '@' in query then Meets(name, ByUserHost(FirstTwo(query, '@').0, FirstTwo(query, '@').1))
    else Meets(name, BySession(query)) || Meets(name, ByUser(query)) || Meets(name, ByHost(query))
  }

  /** Only names that fit are matched, and some are matched whenever some fit. */
  lemma MatchesFit(query: string, names: seq<string>)
    ensures forall n :: n in MatchNames(query, names) ==> n in names && Fits(query, n)
    ensures MatchNames(query, names) == [] ==> forall n :: n in names ==> !Fits(query, n)
  {
    hide Meets;
    if ':' in query && '@' in query {
    } else if ':' in query {
      SelectMembers(names, BySessionUser(FirstTwo(query, ':').0, FirstTwo(query, ':').1));
    } else if '@' in query {
      SelectMembers(names, ByUserHost(FirstTwo(query, '@').0, FirstTwo(query, '@').1));
    } else {
      SelectMembers(names, BySession(query));
      SelectMembers(names, ByUser(query));
      SelectMembers(names, ByHost(query));
    }
    hide Select, FirstTwo;
  }

  /** `a` and `b` are the first two of the pieces that the separators cut the text into. */
  ghost predicate AreFirstTwo(s: string, sep: char, a: string, b: string) {
    sep !in a && sep !in b && (s == a + [sep] + b || exists rest :: s == a + [sep] + b + [sep] + rest)
  }

  lemma FirstTwoAre(s: string, sep: char, a: string, b: string)
    requires sep in s
    ensures FirstTwo(s, sep) == (a, b) <==> AreFirstTwo(s, sep, a, b)
  {
    var i := IndexOf(s, sep);
    var j := IndexOf(s, sep, i + 1);
    var (x, y) := FirstTwo(s, sep);
    assert s == x + [sep] + y + if j == -1 then [] else [sep] + s[j + 1..];
    if j != -1 {
      assert s == x + [sep] + y + [sep] + s[j + 1..];
    }
    assert AreFirstTwo(s, sep, x, y);
    if AreFirstTwo(s, sep, a, b) {
      FirstTwoAreOne(s, sep, a, b, x, y);
    }
  }

  lemma FirstTwoAreOne(s: string, sep: char, a: string, b: string, x: string, y: string)
    requires AreFirstTwo(s, sep, a, b) && AreFirstTwo(s, sep, x, y)
    ensures a == x && b == y
  {
    assert s[|a|] == sep && s[|x|] == sep;
    assert forall k :: 0 <= k < |a| ==> s[k] == a[k];
    assert forall k :: 0 <= k < |x| ==> s[k] == x[k];
    assert |a| == |x| && a == s[..|a|] && x == s[..|x|];
    SecondIsOne(s, sep, a, b, y);
    SecondIsOne(s, sep, a, y, b);
  }

  lemma SecondIsOne(s: string, sep: char, a: string, b: string, y: string)
    requires AreFirstTwo(s, sep, a, b) && AreFirstTwo(s, sep, a, y)
    ensures |b| <= |y| && b == s[|a| + 1..|a| + 1 + |b|]
  {
    assert b == s[|a| + 1..|a| + 1 + |b|] && y == s[|a| + 1..|a| + 1 + |y|];
    assert |y| + |a| + 1 < |s| ==> s[|a| + 1 + |y|] == sep;
    assert forall k :: 0 <= k < |b| ==> s[|a| + 1 + k] == b[k];
  }

  /** Whom an address means among these names, by the parts of the name. */
  ghost predicate IsAddressed(query: string, names: seq<string>, n: string) {
    var p := Parse(n);
    && n in names
    && if ':' in query && '@' in query then n == query
       else if ':' in query then AreFirstTwo(query, ':', p.session, p.user)
       else if '@' in query then AreFirstTwo(query, '@', p.user, p.host)
       else
         || p.session == query
         || ((forall m :: m in names ==> Parse(m).session != query)
             && (|| p.user == query
                 || ((forall m :: m in names ==> Parse(m).user != query) && p.host == query)))
  }

  /** An address matches exactly the names it means. */
  lemma MatchedIff(query: string, names: seq<string>, n: string)
    ensures n in MatchNames(query, names) <==> IsAddressed(query, names, n)
  {
    if ':' in query && '@' in query {
    } else if ':' in query {
      var (session, user) := FirstTwo(query, ':');
      SelectMembers(names, BySessionUser(session, user));
      FirstTwoAre(query, ':', Parse(n).session, Parse(n).user);
      hide FirstTwo, Select, Parse, AreFirstTwo;
    } else if '@' in query {
      var (user, host) := FirstTwo(query, '@');
      SelectMembers(names, ByUserHost(user, host));
      FirstTwoAre(query, '@', Parse(n).user, Parse(n).host);
      hide FirstTwo, Select, Parse, AreFirstTwo;
    } else {
      hide FirstTwo, AreFirstTwo, Parse;
      if n in names {
        PlainWord(query, n, names);
      }
      SelectMembers(names, BySession(query));
      SelectMembers(names, ByUser(query));
      SelectMembers(names, ByHost(query));
      hide Select;
    }
  }
}
