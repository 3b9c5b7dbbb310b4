/** Strings as the operator uses them: substring search, trimming, the newline-separated
    wire form of a URI list, and sorting. */
module Text {

  // ---------------------------------------------------------------- characters

  /** The white space of Go's unicode.IsSpace. */
  predicate IsSpace(c: char) {
    || '\t' <= c <= '\r' || c == ' ' || c == '\U{85}' || c == '\U{A0}' || c == '\U{1680}'
    || '\U{2000}' <= c <= '\U{200A}' || c == '\U{2028}' || c == '\U{2029}' || c == '\U{202F}'
    || c == '\U{205F}' || c == '\U{3000}'
  }

  /** The control characters of Go's unicode.IsControl. */
  predicate IsControl(c: char) {
    c <= '\U{1F}' || '\U{7F}' <= c <= '\U{9F}'
  }

  /** No white space and no control character anywhere. */
  predicate Clean(s: string) {
    forall i | 0 <= i < |s| :: !IsSpace(s[i]) && !IsControl(s[i])
  }

  /** White space and control characters by code point: the White_Space property and the category Cc
      of Unicode. */
  predicate SpacePoint(n: int) {
    || 9 <= n <= 13 || 8192 <= n <= 8202
    || n in {32, 133, 160, 5760, 8232, 8233, 8239, 8287, 12288}
  }

  predicate ControlPoint(n: int) {
    n <= 31 || 127 <= n <= 159
  }

  lemma CharacterClasses(c: char)
    ensures IsSpace(c) <==> SpacePoint(c as int)
    ensures IsControl(c) <==> ControlPoint(c as int)
  {
  }

  /** Nothing but white space. */
  predicate AllSpace(s: string) {
    forall i | 0 <= i < |s| :: SpacePoint(s[i] as int)
  }

  // ---------------------------------------------------------------- substrings

  predicate HasPrefix(s: string, t: string) {
    |t| <= |s| && s[..|t|] == t
  }

  predicate Contains(s: string, t: string) {
    HasPrefix(s, t) || (s != "" && Contains(s[1..], t))
  }

  /** Contains is exactly the existence of an occurrence. */
  lemma {:induction false} ContainsAt(s: string, t: string, i: nat)
    requires i <= |s| && HasPrefix(s[i..], t)
    ensures Contains(s, t)
  {
    if i == 0 {
      assert s[0..] == s;
    } else {
      assert s[1..][i - 1..] == s[i..];
      ContainsAt(s[1..], t, i - 1);
    }
  }

  lemma {:induction false} Occurrence(s: string, t: string) returns (i: nat)
    requires Contains(s, t)
    ensures i <= |s| && HasPrefix(s[i..], t)
  {
    if HasPrefix(s, t) {
      i := 0;
      assert s[0..] == s;
    } else {
      var j := Occurrence(s[1..], t);
      i := j + 1;
      assert s[1..][j..] == s[i..];
    }
  }

  // ---------------------------------------------------------------- trimming

  /** The first position from i on that holds no white space. */
  function FirstInk(s: string, i: nat): (k: nat)
    requires i <= |s|
    ensures i <= k <= |s| && (k < |s| ==> !IsSpace(s[k]))
    decreases |s| - i
  {
    if i < |s| && IsSpace(s[i]) then FirstInk(s, i + 1) else i
  }

  /** The end of the last ink between lo and j. */
  function LastInk(s: string, lo: nat, j: nat): (k: nat)
    requires lo <= j <= |s|
    ensures lo <= k <= j && (lo < k ==> !IsSpace(s[k - 1]))
  {
    if lo < j && IsSpace(s[j - 1]) then LastInk(s, lo, j - 1) else j
  }

  /** Go's strings.TrimSpace: the result neither starts nor ends with white space. */
  function Trim(s: string): (r: string)
    ensures r != "" ==> !IsSpace(r[0]) && !IsSpace(r[|r| - 1])
  {
    var lo := FirstInk(s, 0);
    s[lo..LastInk(s, lo, |s|)]
  }

  /** Trimming leaves alone exactly the strings with nothing to trim. */
  lemma TrimFixed(s: string)
    ensures Trim(s) == s <==> (s == "" || (!IsSpace(s[0]) && !IsSpace(s[|s| - 1])))
  {
  }

  /** A string without white space at its ends. */
  predicate Bare(s: string) {
    s != "" ==> !SpacePoint(s[0] as int) && !SpacePoint(s[|s| - 1] as int)
  }

  lemma {:induction false} FirstInkAt(s: string, i: nat, k: nat)
    requires i <= k <= |s| && forall j | i <= j < k :: IsSpace(s[j])
    requires k < |s| ==> !IsSpace(s[k])
    ensures FirstInk(s, i) == k
    decreases k - i
  {
    if i < k { FirstInkAt(s, i + 1, k); }
  }

  lemma {:induction false} LastInkAt(s: string, lo: nat, j: nat, k: nat)
    requires lo <= k <= j <= |s| && forall i | k <= i < j :: IsSpace(s[i])
    requires lo < k ==> !IsSpace(s[k - 1])
    ensures LastInk(s, lo, j) == k
    decreases j
  {
    if k < j { LastInkAt(s, lo, j - 1, k); }
  }

  /** Trimming removes exactly the white space around what has none at its ends. */
  lemma TrimExact(pre: string, core: string, post: string)
    requires AllSpace(pre) && AllSpace(post) && Bare(core)
    ensures Trim(pre + core + post) == core
  {
    var s := pre + core + post;
    forall i | 0 <= i < |s| ensures IsSpace(s[i]) <==> SpacePoint(s[i] as int) {
      CharacterClasses(s[i]);
    }
    assert forall i | 0 <= i < |pre| :: s[i] == pre[i];
    assert forall i | 0 <= i < |core| :: s[|pre| + i] == core[i];
    assert forall i | 0 <= i < |post| :: s[|pre| + |core| + i] == post[i];
    if core == "" {
      FirstInkAt(s, 0, |s|);
    } else {
      FirstInkAt(s, 0, |pre|);
      LastInkAt(s, |pre|, |s|, |pre| + |core|);
    }
  }

  lemma {:induction false} FirstInkSkips(s: string, i: nat)
    requires i <= |s|
    ensures forall j | i <= j < FirstInk(s, i) :: IsSpace(s[j])
    decreases |s| - i
  {
    if i < |s| && IsSpace(s[i]) { FirstInkSkips(s, i + 1); }
  }

  lemma {:induction false} LastInkSkips(s: string, lo: nat, j: nat)
    requires lo <= j <= |s|
    ensures forall i | LastInk(s, lo, j) <= i < j :: IsSpace(s[i])
    decreases j
  {
    if lo < j && IsSpace(s[j - 1]) { LastInkSkips(s, lo, j - 1); }
  }

  /** Every string is its trimmed form between white space. */
  lemma TrimParts(s: string) returns (pre: string, post: string)
    ensures s == pre + Trim(s) + post && AllSpace(pre) && AllSpace(post) && Bare(Trim(s))
  {
    var lo := FirstInk(s, 0);
    var hi := LastInk(s, lo, |s|);
    FirstInkSkips(s, 0);
    LastInkSkips(s, lo, |s|);
    pre, post := s[..lo], s[hi..];
    forall c ensures IsSpace(c) <==> SpacePoint(c as int) {
      CharacterClasses(c);
    }
  }

  lemma TrimClean(s: string)
    requires Clean(s)
    ensures Trim(s) == s
  {
    TrimFixed(s);
  }

  /** A trimmed string contains nothing its source did not contain. */
  lemma TrimContains(s: string, t: string)
    requires Contains(Trim(s), t)
    ensures Contains(s, t)
  {
    var lo := FirstInk(s, 0);
    var i := Occurrence(Trim(s), t);
    assert s[lo + i..][..|t|] == Trim(s)[i..][..|t|];
    ContainsAt(s, t, lo + i);
  }

  // ---------------------------------------------------------------- newline-separated lists

  function Join(us: seq<string>): string {
    if us == [] then ""
    else if |us| == 1 then us[0]
    else us[0] + "\n" + Join(us[1..])
  }

  /** Go's strings.Split at newlines: always at least one piece. */
  function Split(s: string): (r: seq<string>)
    ensures r != []
  {
    if s == "" then [""]
    else
      var r := Split(s[1..]);
      if s[0] == '\n' then [""] + r else [[s[0]] + r[0]] + r[1..]
  }

  lemma {:induction false} SplitLine(u: string)
    requires '\n' !in u
    ensures Split(u) == [u]
  {
    if u != "" {
      SplitLine(u[1..]);
      assert [u[0]] + u[1..] == u;
    }
  }

  lemma {:induction false} SplitFirst(u: string, rest: string)
    requires '\n' !in u
    ensures Split(u + "\n" + rest) == [u] + Split(rest)
  {
    var s := u + "\n" + rest;
    if u == "" {
      assert s[1..] == rest;
    } else {
      SplitFirst(u[1..], rest);
      assert s[1..] == u[1..] + "\n" + rest;
      assert [u[0]] + u[1..] == u;
    }
  }

  /** Splitting undoes joining when no piece holds the separator. */
  lemma {:induction false} SplitJoin(us: seq<string>)
    requires us != [] && forall i | 0 <= i < |us| :: '\n' !in us[i]
    ensures Split(Join(us)) == us
  {
    if |us| == 1 {
      SplitLine(us[0]);
    } else {
      SplitJoin(us[1..]);
      SplitFirst(us[0], Join(us[1..]));
    }
  }

  /** Trim every piece and drop the empty ones: done by the client before it posts an edit and
      by the server after it split the form field. */
  function Normalise(us: seq<string>): seq<string> {
    if us == [] then []
    else
      var last := Trim(us[|us| - 1]);
      Normalise(us[..|us| - 1]) + (if last != "" then [last] else [])
  }

  lemma {:induction false} NormaliseConcat(us: seq<string>, vs: seq<string>)
    ensures Normalise(us + vs) == Normalise(us) + Normalise(vs)
    decreases |vs|
  {
    if vs == [] {
      assert us + vs == us;
    } else {
      var init := vs[..|vs| - 1];
      assert (us + vs)[..|us + vs| - 1] == us + init;
      NormaliseConcat(us, init);
    }
  }

  /** Normalising keeps of every piece what is between its white space, in order, and drops the pieces
      that have nothing there. */
  lemma NormaliseExact(us: seq<string>, pre: string, core: string, post: string)
    requires AllSpace(pre) && AllSpace(post) && Bare(core)
    ensures Normalise([]) == []
    ensures Normalise(us + [pre + core + post]) == Normalise(us) + (if core == "" then [] else [core])
  {
    TrimExact(pre, core, post);
    assert (us + [pre + core + post])[..|us|] == us;
  }

  lemma {:induction false} NormaliseClean(us: seq<string>)
    requires forall i | 0 <= i < |us| :: us[i] != "" && Clean(us[i])
    ensures Normalise(us) == us
  {
    if us != [] {
      TrimClean(us[|us| - 1]);
      NormaliseClean(us[..|us| - 1]);
    }
  }

  // ---------------------------------------------------------------- order and sorting

  /** Go's order on strings. */
  predicate Leq(a: string, b: string) {
    a == "" || (b != "" && (a[0] < b[0] || (a[0] == b[0] && Leq(a[1..], b[1..]))))
  }

  lemma {:induction false} LeqTotal(a: string, b: string)
    ensures Leq(a, b) || Leq(b, a)
  {
    if a != "" && b != "" && a[0] == b[0] {
      LeqTotal(a[1..], b[1..]);
    }
  }

  lemma {:induction false} LeqAntisymmetric(a: string, b: string)
    requires Leq(a, b) && Leq(b, a)
    ensures a == b
  {
    if a != "" && b != "" {
      LeqAntisymmetric(a[1..], b[1..]);
      assert a == [a[0]] + a[1..] && b == [b[0]] + b[1..];
    }
  }

  lemma {:induction false} LeqTransitive(a: string, b: string, c: string)
    requires Leq(a, b) && Leq(b, c)
    ensures Leq(a, c)
  {
    if a != "" && b != "" && c != "" && a[0] == b[0] == c[0] {
      LeqTransitive(a[1..], b[1..], c[1..]);
    }
  }

  /** The order is decided by the first difference, code point against code point. */
  lemma {:induction false} LeqDecided(p: string, c: char, x: string, d: char, y: string)
    requires c as int < d as int
    ensures Leq(p + [c] + x, p + [d] + y) && !Leq(p + [d] + y, p + [c] + x)
  {
    var a, b := p + [c] + x, p + [d] + y;
    if p != "" {
      assert a[1..] == p[1..] + [c] + x && b[1..] == p[1..] + [d] + y;
      LeqDecided(p[1..], c, x, d, y);
    }
  }

  /** A proper prefix comes first. */
  lemma {:induction false} LeqPrefix(p: string, x: string)
    ensures Leq(p, p + x) && (x != "" ==> !Leq(p + x, p))
  {
    if p != "" {
      assert (p + x)[1..] == p[1..] + x;
      LeqPrefix(p[1..], x);
    }
  }

  predicate Sorted(s: seq<string>) {
    forall i, j | 0 <= i < j < |s| :: Leq(s[i], s[j])
  }

  lemma SortedHead(s: seq<string>, x: string)
    requires Sorted(s) && x in s
    ensures Leq(s[0], x)
  {
    var i :| 0 <= i < |s| && s[i] == x;
    if i == 0 { LeqReflexive(x); }
  }

  lemma SortedTail(s: seq<string>)
    requires Sorted(s) && s != []
    ensures Sorted(s[1..]) && s == [s[0]] + s[1..] && multiset(s[1..]) == multiset(s) - multiset{s[0]}
  {
    assert s == [s[0]] + s[1..];
  }

  lemma SortedCons(x: string, s: seq<string>)
    requires Sorted(s) && forall y | y in s :: Leq(x, y)
    ensures Sorted([x] + s)
  {
  }

  /** A multiset of strings has one sorted listing only. */
  lemma {:induction false} SortedUnique(a: seq<string>, b: seq<string>)
    requires Sorted(a) && Sorted(b) && multiset(a) == multiset(b)
    ensures a == b
  {
    if a == [] {
      assert |multiset(b)| == 0;
    } else {
      assert a[0] in multiset(a) && |multiset(b)| == |multiset(a)|;
      assert b[0] in multiset(b);
      SortedHead(a, b[0]);
      SortedHead(b, a[0]);
      LeqAntisymmetric(a[0], b[0]);
      SortedTail(a);
      SortedTail(b);
      SortedUnique(a[1..], b[1..]);
    }
  }

  lemma {:induction false} LeqReflexive(a: string)
    ensures Leq(a, a)
  {
    LeqTotal(a, a);
  }

  function Insert(x: string, s: seq<string>): (r: seq<string>)
    requires Sorted(s)
    ensures Sorted(r) && multiset(r) == multiset(s) + multiset{x}
  {
    if s == [] then [x]
    else if Leq(x, s[0]) then
      InsertFront(x, s);
      [x] + s
    else
      SortedTail(s);
      InsertLater(x, s, Insert(x, s[1..]));
      [s[0]] + Insert(x, s[1..])
  }

  lemma InsertFront(x: string, s: seq<string>)
    requires Sorted(s) && s != [] && Leq(x, s[0])
    ensures Sorted([x] + s)
  {
    forall y | y in s ensures Leq(x, y) {
      SortedHead(s, y);
      LeqTransitive(x, s[0], y);
    }
    SortedCons(x, s);
  }

  lemma InsertLater(x: string, s: seq<string>, t: seq<string>)
    requires Sorted(s) && s != [] && !Leq(x, s[0])
    requires Sorted(t) && multiset(t) == multiset(s[1..]) + multiset{x}
    ensures Sorted([s[0]] + t)
  {
    forall y | y in t ensures Leq(s[0], y) {
      assert y in multiset(t);
      if y == x {
        LeqTotal(x, s[0]);
      } else {
        assert y in s[1..];
        SortedHead(s, y);
      }
    }
    SortedCons(s[0], t);
  }

  /** The sorting of the standard library: a sorted rearrangement. */
  function Sort(s: seq<string>): (r: seq<string>)
    ensures Sorted(r) && multiset(r) == multiset(s)
  {
    if s == [] then []
    else
      assert s == [s[0]] + s[1..];
      Insert(s[0], Sort(s[1..]))
  }

  predicate Least(m: string, keys: set<string>) {
    m in keys && forall k | k in keys :: Leq(m, k)
  }

  lemma {:induction false} LeastExists(keys: set<string>)
    requires keys != {}
    ensures exists m :: Least(m, keys)
  {
    var x :| x in keys;
    LeqReflexive(x);
    var rest := keys - {x};
    if rest == {} {
      assert keys == {x};
      assert Least(x, keys);
    } else {
      LeastExists(rest);
      var m :| Least(m, rest);
      LeqTotal(x, m);
      if Leq(x, m) {
        forall k | k in keys ensures Leq(x, k) {
          if k != x { LeqTransitive(x, m, k); }
        }
        assert Least(x, keys);
      } else {
        assert Least(m, keys);
      }
    }
  }

  lemma LeastUnique(keys: set<string>)
    ensures forall m, n | Least(m, keys) && Least(n, keys) :: m == n
  {
    forall m, n | Least(m, keys) && Least(n, keys) ensures m == n {
      LeqAntisymmetric(m, n);
    }
  }

  /** The members of a set in ascending order. */
  function Ascending(keys: set<string>): (r: seq<string>)
    ensures Sorted(r) && multiset(r) == multiset(keys)
  {
    if keys == {} then []
    else
      LeastExists(keys);
      LeastUnique(keys);
      var m :| Least(m, keys);
      LeastFirst(m, keys, Ascending(keys - {m}));
      [m] + Ascending(keys - {m})
  }

  lemma LeastFirst(m: string, keys: set<string>, t: seq<string>)
    requires Least(m, keys) && Sorted(t) && multiset(t) == multiset(keys - {m})
    ensures Sorted([m] + t) && multiset([m] + t) == multiset(keys)
  {
    forall y | y in t ensures Leq(m, y) {
      assert y in multiset(t);
    }
    SortedCons(m, t);
  }

  /** Whatever order the keys of a map were appended in, sorting the list gives Ascending. */
  lemma SortOfKeys(s: seq<string>, keys: set<string>)
    requires multiset(s) == multiset(keys)
    ensures Sort(s) == Ascending(keys)
  {
    SortedUnique(Sort(s), Ascending(keys));
  }

  lemma AscendingMembers(keys: set<string>)
    ensures forall k :: k in Ascending(keys) <==> k in keys
    ensures Ascending(keys) == [] <==> keys == {}
  {
    var r := Ascending(keys);
    assert forall k :: k in r <==> k in multiset(r);
  }

  /** Both copies of the drift comparison: clone, sort, compare. It is multiset equality, so it
      counts duplicates, ignores order and is an equivalence. */
  method SameStrings(a: seq<string>, b: seq<string>) returns (same: bool)
    ensures same <==> multiset(a) == multiset(b)
  {
    if |a| != |b| {
      assert |multiset(a)| != |multiset(b)|;
      return false;
    }
    var sa, sb := Sort(a), Sort(b);
    if multiset(a) == multiset(b) { SortedUnique(sa, sb); }
    return sa == sb;
  }
}
