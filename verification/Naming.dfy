/** The ownership fingerprint inside registered client names. */
module Naming {
  import opened Text
  import opened Types

  function UidHead(a: Ident): string {
    if |a.uid| <= 8 then a.uid else a.uid[..8]
  }

  function Fingerprint(a: Ident): string {
    MARK + a.ns + "/" + a.name + "/" + UidHead(a) + "]"
  }

  function DisplayName(a: Ident, spec: Spec): string {
    var name := Trim(spec.clientName);
    if name == "" then a.name else name
  }

  function RegisteredName(a: Ident, spec: Spec): string {
    DisplayName(a, spec) + " " + Fingerprint(a)
  }

  function SecretName(a: Ident, spec: Spec): string {
    if spec.secretName != "" then spec.secretName else a.name + "-oidc"
  }

  /** A registered name carries the fingerprint of a. */
  predicate Carries(name: string, a: Ident) {
    Contains(name, Fingerprint(a))
  }

  predicate SameMark(a: Ident, b: Ident) {
    a.ns == b.ns && a.name == b.name && UidHead(a) == UidHead(b)
  }

  /** Two names split at the first slash are equal only piecewise. */
  lemma SplitAtSlash(p: string, q: string, r: string, s: string)
    requires NameText(p) && NameText(q) && p + "/" + r == q + "/" + s
    ensures p == q && r == s
  {
    var x := p + "/" + r;
    assert forall i | 0 <= i < |p| :: x[i] == p[i];
    assert forall i | 0 <= i < |q| :: x[i] == q[i];
    assert x[|p|] == '/' && x[|q|] == '/';
    assert |p| == |q|;
    assert x[..|p|] == p && x[..|q|] == q;
    assert x[|p| + 1..] == r && x[|q| + 1..] == s;
  }

  /** The body of a fingerprint holds no bracket, so brackets mark its two ends only. */
  lemma FingerprintBrackets(a: Ident)
    requires ValidIdent(a)
    ensures var f := Fingerprint(a);
            && |f| > 5
            && f[0] == '[' && f[|f| - 1] == ']'
            && forall i | 0 < i < |f| - 1 :: f[i] != '[' && f[i] != ']'
  {
    var f := Fingerprint(a);
    forall i | 0 < i < |f| - 1 ensures f[i] != '[' && f[i] != ']' {
      assert f[i] in "k8s:" || f[i] == '/' || NameChar(f[i]);
    }
  }

  /** A fingerprint determines namespace, name and the head of the uid. */
  lemma FingerprintInjective(a: Ident, b: Ident)
    requires ValidIdent(a) && ValidIdent(b)
    ensures Fingerprint(a) == Fingerprint(b) <==> SameMark(a, b)
  {
    if Fingerprint(a) == Fingerprint(b) {
      var ra, rb := a.name + "/" + UidHead(a), b.name + "/" + UidHead(b);
      var f, g := Fingerprint(a), Fingerprint(b);
      assert f[5..|f| - 1] == a.ns + "/" + ra;
      assert g[5..|g| - 1] == b.ns + "/" + rb;
      SplitAtSlash(a.ns, b.ns, ra, rb);
      SplitAtSlash(a.name, b.name, UidHead(a), UidHead(b));
    }
  }

  /** A fingerprint prefix of a fingerprint is the whole of it. */
  lemma FingerprintPrefix(a: Ident, b: Ident)
    requires ValidIdent(a) && ValidIdent(b) && HasPrefix(Fingerprint(a), Fingerprint(b))
    ensures Fingerprint(a) == Fingerprint(b)
  {
    FingerprintBrackets(a);
    FingerprintBrackets(b);
    var f, g := Fingerprint(a), Fingerprint(b);
    assert g[|g| - 1] == f[|g| - 1];
  }

  /** The five characters of the marker, wherever it occurs. */
  lemma MarkAt(s: string, i: nat)
    requires i <= |s| && HasPrefix(s[i..], MARK)
    ensures i + 5 <= |s| && s[i] == '[' && forall j | i <= j < i + 5 :: s[j] != ' '
  {
    forall j | i <= j < i + 5 ensures s[j] == MARK[j - i] {
      assert s[i..][..5][j - i] == s[j];
    }
  }

  lemma MarkHasBracket(s: string)
    requires Contains(s, MARK)
    ensures '[' in s
  {
    var i := Occurrence(s, MARK);
    MarkAt(s, i);
  }

  lemma NameTextClean(s: string)
    requires NameText(s)
    ensures !IsSpace(s[0]) && !IsSpace(s[|s| - 1]) && '[' !in s
  {
    assert NameChar(s[0]) && NameChar(s[|s| - 1]);
  }

  /** A display name never holds the marker, nor does it start or end with white space. */
  lemma DisplayNameClean(a: Ident, spec: Spec)
    requires ValidIdent(a) && !Contains(spec.clientName, MARK)
    ensures var d := DisplayName(a, spec);
            d != "" && !Contains(d, MARK) && !IsSpace(d[0]) && !IsSpace(d[|d| - 1])
  {
    NameTextClean(a.name);
    var d := DisplayName(a, spec);
    if Contains(d, MARK) {
      if d == a.name {
        MarkHasBracket(d);
      } else {
        TrimContains(spec.clientName, MARK);
      }
    }
  }

  /** Where a marker-free display name is followed by a space, an occurrence of the marker in the
      whole can only begin after that space: none straddles it. */
  lemma MarkAfterSpace(d: string, f: string, i: nat)
    requires !Contains(d, MARK)
    requires i <= |d + " " + f| && HasPrefix((d + " " + f)[i..], MARK)
    ensures i > |d|
  {
    var s := d + " " + f;
    MarkAt(s, i);
    assert s[|d|] == ' ';
    if i + 5 <= |d| {
      assert d[i..][..5] == s[i..][..5];
      ContainsAt(d, MARK, i);
    }
  }

  /** An occurrence of a whole fingerprint is an occurrence of the marker. */
  lemma FingerprintMarked(s: string, b: Ident, i: nat)
    requires i <= |s| && HasPrefix(s[i..], Fingerprint(b))
    ensures HasPrefix(s[i..], MARK)
  {
    var g := Fingerprint(b);
    assert g[..5] == MARK;
    assert s[i..][..5] == s[i..][..|g|][..5];
  }

  /** Within display name, space and fingerprint, a fingerprint occurs only at the end. */
  lemma OccurrenceAtEnd(d: string, a: Ident, b: Ident, i: nat)
    requires ValidIdent(a) && ValidIdent(b) && !Contains(d, MARK)
    requires var s := d + " " + Fingerprint(a); i <= |s| && HasPrefix(s[i..], Fingerprint(b))
    ensures Fingerprint(a) == Fingerprint(b)
  {
    var f := Fingerprint(a);
    var s := d + " " + f;
    FingerprintMarked(s, b, i);
    MarkAfterSpace(d, f, i);
    MarkAt(s, i);
    FingerprintBrackets(a);
    assert s[i] == f[i - |d| - 1];
    assert i == |d| + 1;
    assert s[i..] == f;
    FingerprintPrefix(a, b);
  }

  /** Fingerprint exactness: the name an admitted object registers under carries the fingerprint
      of another object exactly when the two agree on namespace, name and the first eight
      characters of the uid. No display name can forge or straddle a match. */
  lemma FingerprintExact(a: Ident, spec: Spec, b: Ident)
    requires ValidIdent(a) && ValidIdent(b) && !Contains(spec.clientName, MARK)
    ensures Carries(RegisteredName(a, spec), b) <==> SameMark(a, b)
  {
    var d, f, g := DisplayName(a, spec), Fingerprint(a), Fingerprint(b);
    var s := RegisteredName(a, spec);
    FingerprintInjective(a, b);
    DisplayNameClean(a, spec);
    if f == g {
      assert s[|d| + 1..] == f;
      ContainsAt(s, g, |d| + 1);
    }
    if Contains(s, g) {
      var i := Occurrence(s, g);
      OccurrenceAtEnd(d, a, b, i);
    }
  }

  predicate SameAt(u: string, v: string, i: nat) {
    (i < |u| <==> i < |v|) && (i < |u| && i < |v| ==> u[i] == v[i])
  }

  /** The first eight characters of two uids are the same. */
  predicate SameStart(u: string, v: string) {
    forall i: nat | i < 8 :: SameAt(u, v, i)
  }

  lemma HeadExact(a: Ident, b: Ident)
    ensures UidHead(a) == UidHead(b) <==> SameStart(a.uid, b.uid)
  {
    var u, v := UidHead(a), UidHead(b);
    assert forall i: nat | i < |u| :: u[i] == a.uid[i];
    assert forall i: nat | i < |v| :: v[i] == b.uid[i];
    assert SameStart(a.uid, b.uid) && |a.uid| < 8 ==> SameAt(a.uid, b.uid, |a.uid|);
    assert SameStart(a.uid, b.uid) && |b.uid| < 8 ==> SameAt(a.uid, b.uid, |b.uid|);
    if SameStart(a.uid, b.uid) {
      assert |u| == |v|;
      forall i: nat | i < |u| ensures u[i] == v[i] {
        assert SameAt(a.uid, b.uid, i);
      }
    }
  }

  /** Fingerprint exactness on the objects' own fields. */
  lemma MarkExact(a: Ident, spec: Spec, b: Ident)
    requires ValidIdent(a) && ValidIdent(b) && Admitted(spec)
    ensures Carries(RegisteredName(a, spec), b) <==> a.ns == b.ns && a.name == b.name && SameStart(a.uid, b.uid)
  {
    FingerprintExact(a, spec, b);
    HeadExact(a, b);
  }

  /** The registered name, from the fields it is made of: what stands between the white space of the
      client name, or the object's name where nothing does, and then the fingerprint. */
  lemma RegisteredNameExact(a: Ident, spec: Spec, pre: string, core: string, post: string)
    requires spec.clientName == pre + core + post && AllSpace(pre) && AllSpace(post) && Bare(core)
    ensures RegisteredName(a, spec) ==
              (if core == "" then a.name else core) + " [k8s:" + a.ns + "/" + a.name + "/"
              + (if |a.uid| < 8 then a.uid else a.uid[..8]) + "]"
  {
    TrimExact(pre, core, post);
    hide Trim;
    NameParts(if core == "" then a.name else core, a.ns, a.name, if |a.uid| < 8 then a.uid else a.uid[..8]);
  }

  lemma NameParts(shown: string, ns: string, name: string, head: string)
    ensures shown + " " + (MARK + ns + "/" + name + "/" + head + "]")
         == shown + " [k8s:" + ns + "/" + name + "/" + head + "]"
  {
    var rest := ns + "/" + name + "/" + head + "]";
    assert MARK + ns + "/" + name + "/" + head + "]" == MARK + rest;
    assert shown + " [k8s:" + ns + "/" + name + "/" + head + "]" == shown + " [k8s:" + rest;
    assert " " + MARK == " [k8s:";
    assert shown + " " + (MARK + rest) == shown + (" " + MARK) + rest;
  }

  /** The display name is the client name without the white space around it, whenever the client name
      holds anything else, and the object's name otherwise. */
  lemma DisplayNameExact(a: Ident, spec: Spec) returns (pre: string, post: string)
    ensures AllSpace(pre) && AllSpace(post)
    ensures !AllSpace(spec.clientName) ==> spec.clientName == pre + DisplayName(a, spec) + post
    ensures !AllSpace(spec.clientName) ==> DisplayName(a, spec) != "" && Bare(DisplayName(a, spec))
    ensures AllSpace(spec.clientName) ==> DisplayName(a, spec) == a.name
  {
    pre, post := TrimParts(spec.clientName);
    if AllSpace(spec.clientName) {
      assert spec.clientName == spec.clientName + "" + "";
      TrimExact(spec.clientName, "", "");
    }
    NothingBetween(spec.clientName, pre, Trim(spec.clientName), post);
    hide Trim;
  }

  lemma NothingBetween(s: string, pre: string, core: string, post: string)
    requires s == pre + core + post && AllSpace(pre) && AllSpace(post)
    ensures core == "" ==> AllSpace(s)
  {
    if core == "" { assert s == pre + post; }
  }

  /** A name without the marker carries nobody's fingerprint. */
  lemma UnmarkedCarriesNone(name: string, a: Ident)
    requires !Contains(name, MARK)
    ensures !Carries(name, a)
  {
    if Carries(name, a) {
      var i := Occurrence(name, Fingerprint(a));
      FingerprintMarked(name, a, i);
      ContainsAt(name, MARK, i);
    }
  }

  /** The registered name is already trimmed, so the /edit form carries it unchanged. */
  lemma RegisteredNameTrimmed(a: Ident, spec: Spec)
    requires ValidIdent(a) && !Contains(spec.clientName, MARK)
    ensures Trim(RegisteredName(a, spec)) == RegisteredName(a, spec)
  {
    DisplayNameClean(a, spec);
    FingerprintBrackets(a);
    var d, f, s := DisplayName(a, spec), Fingerprint(a), RegisteredName(a, spec);
    assert s[0] == d[0] && s[|s| - 1] == f[|f| - 1];
    TrimFixed(s);
  }
}
