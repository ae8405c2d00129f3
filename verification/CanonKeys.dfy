/** The match key of an HTTP request: which requests an evaluation takes for the same. */
module CanonKeys {
  // ---- Text

  function LowerChar(c: char): char {
    if 'A' <= c <= 'Z' then ((c as int) + 32) as char else c
  }

  function Lower(s: string): (r: string)
    ensures |r| == |s| && forall i :: 0 <= i < |s| ==> r[i] == LowerChar(s[i])
  {
    seq(|s|, i requires 0 <= i < |s| => LowerChar(s[i]))
  }

  /** The same letter, upper or lower case, or the same other character. */
  predicate SameLetter(a: char, b: char) {
    a == b || ('a' <= a <= 'z' && b as int == a as int - 32) || ('a' <= b <= 'z' && a as int == b as int - 32)
  }

  /** The same text up to case. */
  predicate SameText(s: string, t: string) {
    |s| == |t| && forall i :: 0 <= i < |s| ==> SameLetter(s[i], t[i])
  }

  /** Two texts agree in lower case exactly when they agree letter by letter up to case. */
  lemma LowerAgreesIff(s: string, t: string)
    ensures Lower(s) == Lower(t) <==> SameText(s, t)
  {
    if Lower(s) == Lower(t) {
      forall i | 0 <= i < |s| ensures SameLetter(s[i], t[i]) { assert Lower(s)[i] == Lower(t)[i]; }
    }
  }

  predicate Space(c: char) {
    c == ' ' || ('\t' <= c <= '\r')
  }

  function TrimLeft(s: string): string {
    if s != "" && Space(s[0]) then TrimLeft(s[1..]) else s
  }

  function TrimRight(s: string): string {
    if s != "" && Space(s[|s| - 1]) then TrimRight(s[..|s| - 1]) else s
  }

  function Trim(s: string): string {
    TrimRight(TrimLeft(s))
  }

  /** Byte-wise order of names. */
  predicate Leq(a: string, b: string) {
    a == "" || (b != "" && (a[0] < b[0] || (a[0] == b[0] && Leq(a[1..], b[1..]))))
  }

  lemma {:induction false} LeqTotal(a: string, b: string)
    ensures Leq(a, b) || Leq(b, a)
  {
    if a != "" && b != "" && a[0] == b[0] { LeqTotal(a[1..], b[1..]); }
  }

  lemma {:induction false} LeqAntisymmetric(a: string, b: string)
    requires Leq(a, b) && Leq(b, a)
    ensures a == b
  {
    if a != "" && b != "" {
      LeqAntisymmetric(a[1..], b[1..]);
      assert a == [a[0]] + a[1..] && b == [b[0]] + b[1..];
    }
  }

  lemma {:induction false} LeqTransitive(a: string, b: string, c: string)
    requires Leq(a, b) && Leq(b, c)
    ensures Leq(a, c)
  {
    if a != "" && a[0] == b[0] == c[0] { LeqTransitive(a[1..], b[1..], c[1..]); }
  }

  // ---- Query parameters

  type Pair = (string, string)

  /** The values of one name, in order. */
  function ValuesOf(q: seq<Pair>, name: string): seq<string> {
    if q == [] then [] else (if q[0].0 == name then [q[0].1] else []) + ValuesOf(q[1..], name)
  }

  predicate Ignored(ignore: seq<string>, name: string) {
    exists i :: 0 <= i < |ignore| && Lower(ignore[i]) == Lower(name)
  }

  /** One of the names is this one up to case. */
  predicate Listed(names: seq<string>, name: string) {
    exists i :: 0 <= i < |names| && SameText(names[i], name)
  }

  lemma IgnoredIff(ignore: seq<string>, name: string)
    ensures Ignored(ignore, name) <==> Listed(ignore, name)
  {
    forall i | 0 <= i < |ignore| ensures Lower(ignore[i]) == Lower(name) <==> SameText(ignore[i], name) { LowerAgreesIff(ignore[i], name); }
  }

  function Kept(q: seq<Pair>, ignore: seq<string>): seq<Pair> {
    if q == [] then [] else (if Ignored(ignore, q[0].0) then [] else [q[0]]) + Kept(q[1..], ignore)
  }

  function Insert(p: Pair, q: seq<Pair>): seq<Pair> {
    if q == [] then [p] else if Leq(p.0, q[0].0) then [p] + q else [q[0]] + Insert(p, q[1..])
  }

  /** Sorted by name; values of one name keep their order. */
  function Sort(q: seq<Pair>): seq<Pair> {
    if q == [] then [] else Insert(q[0], Sort(q[1..]))
  }

  ghost predicate Sorted(q: seq<Pair>) {
    forall i, j :: 0 <= i < j < |q| ==> Leq(q[i].0, q[j].0)
  }

  lemma {:induction false} InsertSorted(p: Pair, q: seq<Pair>)
    requires Sorted(q)
    ensures Sorted(Insert(p, q)) && (forall x :: x in Insert(p, q) <==> x == p || x in q)
  {
    if q == [] {
    } else if Leq(p.0, q[0].0) {
      forall j | 0 <= j < |q| ensures Leq(p.0, q[j].0) {
        if j > 0 { LeqTransitive(p.0, q[0].0, q[j].0); }
      }
    } else {
      LeqTotal(p.0, q[0].0);
      InsertSorted(p, q[1..]);
      assert q == [q[0]] + q[1..];
      var rest := Insert(p, q[1..]);
      forall j | 0 <= j < |rest| ensures Leq(q[0].0, rest[j].0) { assert rest[j] in rest; }
    }
  }

  lemma {:induction false} InsertValues(p: Pair, q: seq<Pair>, name: string)
    ensures ValuesOf(Insert(p, q), name) == (if p.0 == name then [p.1] else []) + ValuesOf(q, name)
    requires Sorted(q)
  {
    if q == [] || Leq(p.0, q[0].0) {
      assert ([p] + q)[1..] == q;
    } else {
      var rest := Insert(p, q[1..]);
      assert ([q[0]] + rest)[1..] == rest;
      InsertValues(p, q[1..], name);
      LeqTotal(p.0, q[0].0);
      assert p.0 != q[0].0 by { LeqReflexive(p.0); }
    }
  }

  lemma {:induction false} LeqReflexive(a: string)
    ensures Leq(a, a)
  {
    if a != "" { LeqReflexive(a[1..]); }
  }

  lemma {:induction false} SortKeeps(q: seq<Pair>, name: string)
    ensures Sorted(Sort(q)) && ValuesOf(Sort(q), name) == ValuesOf(q, name)
  {
    if q != [] {
      SortKeeps(q[1..], name);
      InsertSorted(q[0], Sort(q[1..]));
      InsertValues(q[0], Sort(q[1..]), name);
    }
  }

  lemma {:induction false} KeptValues(q: seq<Pair>, ignore: seq<string>, name: string)
    ensures ValuesOf(Kept(q, ignore), name) == if Ignored(ignore, name) then [] else ValuesOf(q, name)
  {
    if q != [] {
      KeptValues(q[1..], ignore, name);
      var rest := Kept(q[1..], ignore);
      assert [] + rest == rest && ([q[0]] + rest)[1..] == rest && [] + ValuesOf(rest, name) == ValuesOf(rest, name);
    }
  }

  lemma {:induction false} HasValues(q: seq<Pair>, name: string)
    ensures ValuesOf(q, name) != [] <==> exists i :: 0 <= i < |q| && q[i].0 == name
  {
    if q != [] {
      HasValues(q[1..], name);
      if exists i :: 0 <= i < |q| && q[i].0 == name {
        var i :| 0 <= i < |q| && q[i].0 == name;
        if i > 0 { assert q[1..][i - 1].0 == name; }
      }
      if exists i :: 0 <= i < |q[1..]| && q[1..][i].0 == name {
        var i :| 0 <= i < |q[1..]| && q[1..][i].0 == name;
        assert q[i + 1].0 == name;
      }
    }
  }

  /** Sorted parameter lists are the same exactly when every name has the same values. */
  lemma {:induction false} SortedDetermined(a: seq<Pair>, b: seq<Pair>)
    requires Sorted(a) && Sorted(b) && forall n :: ValuesOf(a, n) == ValuesOf(b, n)
    ensures a == b
  {
    if a == [] {
      assert b != [] ==> ValuesOf(b, b[0].0) != ValuesOf(a, b[0].0);
    } else {
      SameHead(a, b);
      forall n ensures ValuesOf(a[1..], n) == ValuesOf(b[1..], n) {
        assert ValuesOf(a, n) == ValuesOf(b, n);
        TailValues(a, n);
        TailValues(b, n);
      }
      SortedDetermined(a[1..], b[1..]);
      assert a == [a[0]] + a[1..] && b == [b[0]] + b[1..];
    }
  }

  lemma TailValues(q: seq<Pair>, n: string)
    requires q != []
    ensures q[0].0 == n ==> ValuesOf(q, n) != [] && ValuesOf(q[1..], n) == ValuesOf(q, n)[1..]
    ensures q[0].0 != n ==> ValuesOf(q[1..], n) == ValuesOf(q, n)
  {
  }

  lemma SameHead(a: seq<Pair>, b: seq<Pair>)
    requires Sorted(a) && Sorted(b) && a != [] && forall n :: ValuesOf(a, n) == ValuesOf(b, n)
    ensures b != [] && a[0] == b[0]
  {
    assert ValuesOf(a, a[0].0) == ValuesOf(b, a[0].0);
    HasValues(a, a[0].0);
    HasValues(b, a[0].0);
    var i :| 0 <= i < |b| && b[i].0 == a[0].0;
    assert ValuesOf(a, b[0].0) == ValuesOf(b, b[0].0);
    HasValues(b, b[0].0);
    HasValues(a, b[0].0);
    var j :| 0 <= j < |a| && a[j].0 == b[0].0;
    LeqReflexive(a[0].0);
    LeqReflexive(b[0].0);
    LeqAntisymmetric(a[0].0, b[0].0);
    assert ValuesOf(a, a[0].0)[0] == a[0].1 && ValuesOf(b, a[0].0)[0] == b[0].1;
  }

  // ---- Requests

  /** A parsed URL; `path` in its escaped form, `query` the pairs of the raw query. */
  datatype Url = Url(scheme: string, user: string, host: string, path: string, forceQuery: bool, query: seq<Pair>, fragment: string)

  datatype Parsed = Parsed(url: Url) | Unparsable(text: string)

  datatype CanonOpts = CanonOpts(ignoreQuery: seq<string>, includeBodyFlag: bool, bodyIsSet: bool)

  predicate IncludeBody(o: CanonOpts) {
    !o.bodyIsSet || o.includeBodyFlag
  }

  function CanonUrl(o: CanonOpts, u: Parsed): Parsed {
    match u
    case Unparsable(text) => Unparsable(Lower(text))
    case Parsed(url) =>
      Parsed(url.(scheme := Lower(url.scheme), host := Lower(url.host), fragment := "",
                  query := Sort(Kept(url.query, o.ignoreQuery))))
  }

  /** The ignored names, for lookup without regard to case. */
  method IgnoreSet(ignoreQuery: seq<string>) returns (ignore: set<string>)
    ensures forall n :: Lower(n) in ignore <==> Ignored(ignoreQuery, n)
  {
    ignore := {};
    for i := 0 to |ignoreQuery|
      invariant forall x :: x in ignore <==> exists k :: 0 <= k < i && Lower(ignoreQuery[k]) == x
    {
      ignore := ignore + {Lower(ignoreQuery[i])};
    }
  }

  /** The query part of a URL's canonical form. */
  method CanonQuery(query: seq<Pair>, ignoreQuery: seq<string>) returns (encoded: seq<Pair>)
    ensures encoded == Sort(Kept(query, ignoreQuery))
  {
    var ignore := IgnoreSet(ignoreQuery);
    var kept: seq<Pair> := [];
    for i := |query| downto 0
      invariant kept == Kept(query[i..], ignoreQuery)
    {
      assert query[i..][1..] == query[i + 1..];
      if Lower(query[i].0) !in ignore { kept := [query[i]] + kept; }
    }
    assert query[0..] == query;
    encoded := Sort(kept);
  }

  /** What SHA-256 is taken over; the hash is taken to be injective. */
  datatype Key = Key(operation: string, url: Parsed, body: string)

  function CanonKey(o: CanonOpts, operation: string, u: Parsed, body: string): Key {
    Key(Lower(Trim(operation)), CanonUrl(o, u), if IncludeBody(o) then body else "")
  }

  /** Method, scheme and host agree up to case (and surrounding space of the method); user, path
      and a bare trailing "?" agree; the bodies agree if they count; and every name that is not
      ignored has the same values in the same order. */
  ghost predicate SameRequest(o: CanonOpts, m: string, u: Url, b: string, m': string, u': Url, b': string) {
    && SameText(Trim(m), Trim(m')) && SameText(u.scheme, u'.scheme) && SameText(u.host, u'.host)
    && u.user == u'.user && u.path == u'.path && u.forceQuery == u'.forceQuery
    && ((o.bodyIsSet && !o.includeBodyFlag) || b == b')
    && forall n :: !Listed(o.ignoreQuery, n) ==> ValuesOf(u.query, n) == ValuesOf(u'.query, n)
  }

  /** For all parsed URLs: two requests have the same key exactly when they are the same request. */
  lemma KeysEqualIff(o: CanonOpts, m: string, u: Url, b: string, m': string, u': Url, b': string)
    ensures CanonKey(o, m, Parsed(u), b) == CanonKey(o, m', Parsed(u'), b') <==> SameRequest(o, m, u, b, m', u', b')
  {
    LowerAgreesIff(Trim(m), Trim(m'));
    LowerAgreesIff(u.scheme, u'.scheme);
    LowerAgreesIff(u.host, u'.host);
    forall n ensures Ignored(o.ignoreQuery, n) <==> Listed(o.ignoreQuery, n) { IgnoredIff(o.ignoreQuery, n); }
    QueriesEqualIff(o.ignoreQuery, u.query, u'.query);
  }

  lemma QueriesEqualIff(ignore: seq<string>, q: seq<Pair>, q': seq<Pair>)
    ensures Sort(Kept(q, ignore)) == Sort(Kept(q', ignore)) <==>
            forall n :: !Ignored(ignore, n) ==> ValuesOf(q, n) == ValuesOf(q', n)
  {
    var a, b := Sort(Kept(q, ignore)), Sort(Kept(q', ignore));
    forall n
      ensures ValuesOf(a, n) == if Ignored(ignore, n) then [] else ValuesOf(q, n)
      ensures ValuesOf(b, n) == if Ignored(ignore, n) then [] else ValuesOf(q', n)
    {
      SortKeeps(Kept(q, ignore), n);
      SortKeeps(Kept(q', ignore), n);
      KeptValues(q, ignore, n);
      KeptValues(q', ignore, n);
    }
    SortKeeps(Kept(q, ignore), "");
    SortKeeps(Kept(q', ignore), "");
    if forall n :: !Ignored(ignore, n) ==> ValuesOf(q, n) == ValuesOf(q', n) {
      forall n ensures ValuesOf(a, n) == ValuesOf(b, n) {}
      SortedDetermined(a, b);
    }
    if a == b {
      forall n | !Ignored(ignore, n) ensures ValuesOf(q, n) == ValuesOf(q', n) {
        assert ValuesOf(a, n) == ValuesOf(b, n);
      }
    }
  }

  lemma LowerTwice(s: string)
    ensures Lower(Lower(s)) == Lower(s)
  {
  }

  /** The canonical URL is its own canonical form. */
  lemma CanonTwice(o: CanonOpts, u: Parsed)
    ensures CanonUrl(o, CanonUrl(o, u)) == CanonUrl(o, u)
  {
    match u
    case Unparsable(text) => LowerTwice(text);
    case Parsed(url) =>
      LowerTwice(url.scheme);
      LowerTwice(url.host);
      var q := Sort(Kept(url.query, o.ignoreQuery));
      forall n | !Ignored(o.ignoreQuery, n) ensures ValuesOf(q, n) == ValuesOf(url.query, n) {
        SortKeeps(Kept(url.query, o.ignoreQuery), n);
        KeptValues(url.query, o.ignoreQuery, n);
      }
      QueriesEqualIff(o.ignoreQuery, q, url.query);
  }

  lemma {:induction false} ValuesConcat(a: seq<Pair>, b: seq<Pair>, n: string)
    ensures ValuesOf(a + b, n) == ValuesOf(a, n) + ValuesOf(b, n)
  {
    if a == [] {
      assert a + b == b;
    } else {
      assert (a + b)[1..] == a[1..] + b;
      ValuesConcat(a[1..], b, n);
    }
  }

  /** Swapping neighbouring parameters with different names does not change the key. */
  lemma ReorderKeepsKey(o: CanonOpts, m: string, u: Url, b: string, before: seq<Pair>, x: Pair, y: Pair, after: seq<Pair>)
    requires x.0 != y.0
    ensures CanonKey(o, m, Parsed(u.(query := before + [x, y] + after)), b) == CanonKey(o, m, Parsed(u.(query := before + [y, x] + after)), b)
  {
    forall n ensures ValuesOf(before + [x, y] + after, n) == ValuesOf(before + [y, x] + after, n) {
      ValuesConcat(before + [x, y], after, n);
      ValuesConcat(before, [x, y], n);
      ValuesConcat(before + [y, x], after, n);
      ValuesConcat(before, [y, x], n);
      assert [x, y][1..] == [y] && [y, x][1..] == [x] && [x][1..] == [] && [y][1..] == [];
    }
    QueriesEqualIff(o.ignoreQuery, before + [x, y] + after, before + [y, x] + after);
  }

  /** Adding, dropping or changing an ignored parameter does not change the key. */
  lemma IgnoredKeepsKey(o: CanonOpts, m: string, u: Url, b: string, before: seq<Pair>, x: Pair, after: seq<Pair>)
    requires Ignored(o.ignoreQuery, x.0)
    ensures CanonKey(o, m, Parsed(u.(query := before + [x] + after)), b) == CanonKey(o, m, Parsed(u.(query := before + after)), b)
  {
    forall n | !Ignored(o.ignoreQuery, n) ensures ValuesOf(before + [x] + after, n) == ValuesOf(before + after, n) {
      ValuesConcat(before + [x], after, n);
      ValuesConcat(before, [x], n);
      ValuesConcat(before, after, n);
      assert [x][1..] == [];
    }
    QueriesEqualIff(o.ignoreQuery, before + [x] + after, before + after);
  }

  /** "https://example.com/items" and "https://example.com/items?" are different requests, whatever
      the options. */
  lemma BareQueryMarkCounts(o: CanonOpts, m: string, b: string)
    ensures var u := Url("https", "", "example.com", "/items", false, [], "");
            CanonKey(o, m, Parsed(u), b) != CanonKey(o, m, Parsed(u.(forceQuery := true)), b)
  {
    var u := Url("https", "", "example.com", "/items", false, [], "");
    KeysEqualIff(o, m, u, b, m, u.(forceQuery := true), b);
  }

  // ---- What lower case, trimming and the options mean

  ghost predicate Spaces(s: string) {
    forall i :: 0 <= i < |s| ==> s[i] in {' ', '\t', '\n', '\U{000B}', '\U{000C}', '\r'}
  }

  lemma {:induction false} TrimLeftStrips(s: string)
    ensures var n := |s| - |TrimLeft(s)|; 0 <= n && s[n..] == TrimLeft(s) && Spaces(s[..n])
    ensures TrimLeft(s) != "" ==> !Spaces(TrimLeft(s)[..1])
  {
    if s != "" && Space(s[0]) {
      TrimLeftStrips(s[1..]);
      var n := |s| - |TrimLeft(s)|;
      assert s[..n] == [s[0]] + s[1..][..n - 1];
    } else if s != "" {
      assert s[..1][0] == s[0];
    }
  }

  lemma {:induction false} TrimRightStrips(s: string)
    ensures var n := |TrimRight(s)|; n <= |s| && s[..n] == TrimRight(s) && Spaces(s[n..])
    ensures TrimRight(s) != "" ==> !Spaces([TrimRight(s)[|TrimRight(s)| - 1]])
  {
    if s != "" && Space(s[|s| - 1]) {
      var init := s[..|s| - 1];
      TrimRightStrips(init);
      var n := |TrimRight(s)|;
      assert s[n..] == init[n..] + [s[|s| - 1]];
    } else if s != "" {
      assert [s[|s| - 1]][0] == s[|s| - 1];
    }
  }

  /** Trimming takes off the white space at both ends, and nothing else: what is left of the text has
      none there. */
  lemma TrimStrips(s: string) returns (before: string, after: string)
    ensures s == before + Trim(s) + after && Spaces(before) && Spaces(after)
    ensures Trim(s) != "" ==> !Spaces([Trim(s)[0]]) && !Spaces([Trim(s)[|Trim(s)| - 1]])
  {
    TrimLeftStrips(s);
    TrimRightStrips(TrimLeft(s));
    var mid := TrimLeft(s);
    before, after := s[..|s| - |mid|], mid[|Trim(s)|..];
    assert s == before + mid && mid == Trim(s) + after;
    if Trim(s) != "" { assert mid[..1][0] == Trim(s)[0] == [Trim(s)[0]][0]; }
  }

  /** Requests to one parsed URL that differ only in their bodies are different requests exactly unless
      the options say, explicitly, to leave the body out. */
  lemma BodyCountsIff(o: CanonOpts, m: string, u: Url, b: string, b': string)
    requires b != b'
    ensures CanonKey(o, m, Parsed(u), b) != CanonKey(o, m, Parsed(u), b') <==> !(o.bodyIsSet && !o.includeBodyFlag)
  {
    KeysEqualIff(o, m, u, b, m, u, b');
  }

  /** URLs that do not parse are compared as texts up to case, and never match one that does. */
  lemma UnparsableKeys(o: CanonOpts, m: string, t: string, b: string, m': string, t': string, b': string, u: Url)
    ensures CanonKey(o, m, Unparsable(t), b) != CanonKey(o, m', Parsed(u), b')
    ensures CanonKey(o, m, Unparsable(t), b) == CanonKey(o, m', Unparsable(t'), b') <==>
            SameText(Trim(m), Trim(m')) && ((o.bodyIsSet && !o.includeBodyFlag) || b == b') && SameText(t, t')
  {
    LowerAgreesIff(Trim(m), Trim(m'));
    LowerAgreesIff(t, t');
  }
}
