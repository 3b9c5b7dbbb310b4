/** The custom resource and the admission rules on its spec. */
module Types {
  import opened Text

  datatype Option<+T> = None | Some(value: T)

  /** Namespace, name and uid of one OIDCClient object. */
  datatype Ident = Ident(ns: string, name: string, uid: string)

  datatype UpdatePolicy = Recreate | InPlace | Block
  datatype DeletionPolicy = Deregister | Orphan

  datatype Template = Template(labels: map<string, string>, annotations: map<string, string>)

  datatype Spec = Spec(
    clientName: string,
    redirectURIs: seq<string>,
    secretName: string,
    template: Option<Template>,
    updatePolicy: UpdatePolicy,
    deletionPolicy: DeletionPolicy)

  datatype Reason =
    | SpecInvalid | TsidpUnreachable | SecretReadFailed | SecretConflict | SecretCleanupFailed
    | RegistrationFailed | InPlaceUpdateFailed | DriftBlocked | SecretWriteFailed

  /** The Ready condition: unset, False with a reason, or True. */
  datatype Condition = Unset | False(reason: Reason) | True

  datatype Status = Status(clientID: string, secretName: string, issuer: string, ready: Condition)

  /** One OIDCClient object as the API server stores it. */
  datatype OIDCClient = OIDCClient(
    id: Ident,
    spec: Spec,
    status: Status,
    finalizer: bool,
    deleting: bool,
    force: bool,
    rv: nat)
  {
    function WithID(clientID: string): OIDCClient {
      this.(status := status.(clientID := clientID))
    }
  }

  // ---------------------------------------------------------------- names the API server accepts

  predicate NameChar(c: char) {
    'a' <= c <= 'z' || '0' <= c <= '9' || c == '-' || c == '.'
  }

  /** A non-empty string of lower-case letters, digits, dashes and dots: every namespace, object
      name and uid is one. */
  predicate NameText(s: string) {
    s != "" && forall i | 0 <= i < |s| :: NameChar(s[i])
  }

  predicate ValidIdent(a: Ident) {
    NameText(a.ns) && NameText(a.name) && NameText(a.uid)
  }

  // ---------------------------------------------------------------- admission of a spec

  const MARK := "[k8s:"

  /** The blocked URI schemes; the CRD rule and tsidp's /edit handler hold the same list. */
  const DANGEROUS := ["javascript:", "data:", "file:", "vbscript:", "about:", "blob:",
    "filesystem:", "chrome:", "chrome-extension:", "ftp:", "mailto:"]

  /** CEL's lowerAscii: only the ASCII letters change. */
  function LowerAsciiChar(c: char): char {
    if 'A' <= c <= 'Z' then c - 'A' + 'a' else c
  }

  function LowerAscii(s: string): (r: string)
    ensures |r| == |s|
  {
    seq(|s|, i requires 0 <= i < |s| => LowerAsciiChar(s[i]))
  }

  /** Some string of the list is a prefix of s. */
  predicate AnyPrefix(s: string, list: seq<string>) {
    list != [] && (HasPrefix(s, list[0]) || AnyPrefix(s, list[1..]))
  }

  predicate SchemeBlocked(u: string) {
    AnyPrefix(LowerAscii(u), DANGEROUS)
  }

  /** The CRD rules on one redirect URI. */
  predicate AdmittedURI(u: string) {
    u != "" && ':' in u && !SchemeBlocked(u)
  }

  predicate Admitted(spec: Spec) {
    && !Contains(spec.clientName, MARK)
    && spec.redirectURIs != []
    && forall i | 0 <= i < |spec.redirectURIs| :: AdmittedURI(spec.redirectURIs[i])
  }

  /** The guard at the head of reconcileNormal. */
  predicate URIsClean(uris: seq<string>) {
    forall i | 0 <= i < |uris| :: Clean(uris[i])
  }

  function TemplateOf(spec: Spec): Template {
    match spec.template
    case None => Template(map[], map[])
    case Some(t) => t
  }

  // ---------------------------------------------------------------- the rules, spelled out

  /** A code point that has no place in a redirect URI. */
  predicate BadPoint(n: int) {
    SpacePoint(n) || ControlPoint(n)
  }

  /** The guard refuses a list exactly if some code point in it is white space or a control character.
      In particular it refuses everything up to U+0020 and from U+007F to U+00A0, and passes what is
      made of the characters from exclamation mark to tilde. */
  lemma GuardExact(uris: seq<string>)
    ensures URIsClean(uris) <==>
              forall i, j | 0 <= i < |uris| && 0 <= j < |uris[i]| :: !BadPoint(uris[i][j] as int)
    ensures (exists i, j | 0 <= i < |uris| && 0 <= j < |uris[i]| :: uris[i][j] as int <= 32
              || 127 <= uris[i][j] as int <= 160)
              ==> !URIsClean(uris)
    ensures (forall i, j | 0 <= i < |uris| && 0 <= j < |uris[i]| :: 33 <= uris[i][j] as int <= 126) ==> URIsClean(uris)
  {
    forall c: char ensures IsSpace(c) || IsControl(c) <==> BadPoint(c as int) {
      CharacterClasses(c);
    }
    forall i | 0 <= i < |uris|
      ensures Clean(uris[i]) <==> forall j | 0 <= j < |uris[i]| :: !BadPoint(uris[i][j] as int)
    {
    }
  }

  /** The same letter, one of them perhaps an ASCII capital. */
  predicate SameLetter(c: char, p: char) {
    c == p || ('A' <= c <= 'Z' && c as int + 32 == p as int)
  }

  predicate StartsAs(u: string, p: string) {
    |p| <= |u| && forall i | 0 <= i < |p| :: SameLetter(u[i], p[i])
  }

  /** The schemes that the CRD rule names. */
  function Schemes(): set<string> {
    {"javascript:", "data:", "file:", "vbscript:", "about:", "blob:", "filesystem:", "chrome:", "chrome-extension:",
     "ftp:", "mailto:"}
  }

  lemma {:induction false} AnyPrefixExact(s: string, list: seq<string>)
    ensures AnyPrefix(s, list) <==> exists p :: p in list && HasPrefix(s, p)
  {
    if list != [] {
      AnyPrefixExact(s, list[1..]);
      forall p ensures p in list <==> p == list[0] || p in list[1..] {
      }
    }
  }

  /** No letter of these schemes is a capital, so lower-casing a character gives it exactly if the
      character is the same letter. */
  lemma LowerStarts(u: string, p: string)
    requires forall i | 0 <= i < |p| :: !('A' <= p[i] <= 'Z')
    ensures HasPrefix(LowerAscii(u), p) <==> StartsAs(u, p)
  {
    var l := LowerAscii(u);
    if |p| <= |u| {
      assert forall i | 0 <= i < |p| :: l[..|p|][i] == LowerAsciiChar(u[i]);
      forall i | 0 <= i < |p| ensures LowerAsciiChar(u[i]) == p[i] <==> SameLetter(u[i], p[i]) {
      }
    }
  }

  predicate NoCapital(p: string) {
    forall i | 0 <= i < |p| :: !('A' <= p[i] <= 'Z')
  }

  lemma DangerousSchemes()
    ensures forall p :: p in DANGEROUS <==> p in Schemes()
    ensures forall p | p in DANGEROUS :: NoCapital(p)
  {
    assert forall i | 0 <= i < |DANGEROUS| :: NoCapital(DANGEROUS[i]);
    assert DANGEROUS == ["javascript:", "data:", "file:", "vbscript:", "about:", "blob:",
      "filesystem:", "chrome:", "chrome-extension:", "ftp:", "mailto:"];
  }

  /** A URI is blocked exactly if it starts with one of the eleven schemes, in any mixture of cases. */
  lemma SchemeExact(u: string)
    ensures SchemeBlocked(u) <==> exists p :: p in Schemes() && StartsAs(u, p)
  {
    DangerousSchemes();
    AnyPrefixExact(LowerAscii(u), DANGEROUS);
    hide AnyPrefix, Schemes, LowerAscii;
    forall p | p in DANGEROUS ensures HasPrefix(LowerAscii(u), p) <==> StartsAs(u, p) {
      assert NoCapital(p);
      LowerStarts(u, p);
    }
  }

  /** What the CRD admits: a client name without the marker at any place, at least one redirect URI,
      each non-empty, with a colon and without a blocked scheme. */
  lemma AdmissionExact(spec: Spec)
    ensures Admitted(spec) <==>
              && (forall pre, post :: spec.clientName != pre + "[k8s:" + post)
              && spec.redirectURIs != []
              && forall i | 0 <= i < |spec.redirectURIs| ::
                   var u := spec.redirectURIs[i];
                   u != "" && ':' in u && forall p | p in Schemes() :: !StartsAs(u, p)
  {
    var n := spec.clientName;
    if Contains(n, MARK) {
      var i := Occurrence(n, MARK);
      assert n == n[..i] + "[k8s:" + n[i..][5..];
    }
    forall pre, post | n == pre + "[k8s:" + post ensures Contains(n, MARK) {
      assert n[|pre|..][..5] == MARK;
      ContainsAt(n, MARK, |pre|);
    }
    forall i | 0 <= i < |spec.redirectURIs|
      ensures SchemeBlocked(spec.redirectURIs[i]) <==> exists p :: p in Schemes() && StartsAs(spec.redirectURIs[i], p)
    {
      SchemeExact(spec.redirectURIs[i]);
    }
    hide Contains, SchemeBlocked, StartsAs, Schemes;
  }
}
