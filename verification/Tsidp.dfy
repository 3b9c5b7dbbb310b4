/** tsidp as the operator sees it: the client registry behind /register, /clients/ and /edit. */
module Tsidp {
  import opened Text
  import opened Types

  datatype Registration = Registration(name: string, uris: seq<string>, secret: string)
  {
    /** Reads blank the secret. */
    function Blank(): Registration { this.(secret := "") }
  }

  datatype Entry = Entry(id: string, reg: Registration)

  datatype Credentials = Credentials(id: string, secret: string)

  /** The discovery document. */
  datatype Discovery = Discovery(
    issuer: string, authorization: string, token: string, userinfo: string, jwks: string)

  // ---------------------------------------------------------------- the /edit form

  /** Go's unicode.ToLower, as far as its result can be an ASCII character: besides the ASCII
      capitals only U+0130 and the Kelvin sign fold to ASCII letters. */
  function LowerChar(c: char): char {
    if 'A' <= c <= 'Z' then c - 'A' + 'a'
    else if c == '\U{130}' then 'i'
    else if c == '\U{212A}' then 'k'
    else c
  }

  function Lower(s: string): (r: string)
    ensures |r| == |s|
  {
    seq(|s|, i requires 0 <= i < |s| => LowerChar(s[i]))
  }

  predicate EditRejects(u: string) {
    AnyPrefix(Lower(u), DANGEROUS) || ':' !in u
  }

  predicate EditAccepts(uris: seq<string>) {
    uris != [] && forall i | 0 <= i < |uris| :: !EditRejects(uris[i])
  }

  /** The redirect URIs the server reads from the posted form field. */
  function FormURIs(field: string): seq<string> {
    Normalise(Split(field))
  }

  /** The registry after POST /edit/{id}: a rejected form changes nothing, an accepted one changes
      name and URIs of that client. */
  function Edited(clients: map<string, Registration>, id: string, name: string, field: string):
      map<string, Registration> {
    if id in clients && EditAccepts(FormURIs(field)) then
      clients[id := clients[id].(name := Trim(name), uris := FormURIs(field))]
    else
      clients
  }

  /** What UpdateClient checks on the client it reads back. */
  predicate Converged(got: Registration, name: string, uris: seq<string>) {
    got.name == name && multiset(got.uris) == multiset(uris)
  }

  /** The wire form survives the round trip: for URIs that pass the reconciler's guard the server
      reads back the very list the client joined. */
  lemma FormRoundTrip(uris: seq<string>)
    requires uris != [] && forall i | 0 <= i < |uris| :: uris[i] != "" && Clean(uris[i])
    ensures Normalise(uris) == uris && FormURIs(Join(uris)) == uris
  {
    NormaliseClean(uris);
    forall i | 0 <= i < |uris| ensures '\n' !in uris[i] {
      assert forall j | 0 <= j < |uris[i]| :: !IsSpace(uris[i][j]);
    }
    SplitJoin(uris);
  }

  // ---------------------------------------------------------------- the rules of /edit, spelled out

  /** The server's lower-casing takes the character to the letter. */
  predicate FoldsTo(c: char, p: char) {
    SameLetter(c, p) || (c as int == 304 && p == 'i') || (c as int == 8490 && p == 'k')
  }

  predicate FoldsAs(u: string, p: string) {
    |p| <= |u| && forall i | 0 <= i < |p| :: FoldsTo(u[i], p[i])
  }

  /** A URI that /edit refuses: it has no colon, or starts with a blocked scheme up to case. */
  ghost predicate Refused(u: string) {
    ':' !in u || exists p :: p in Schemes() && FoldsAs(u, p)
  }

  ghost predicate AllPass(uris: seq<string>) {
    uris != [] && forall i | 0 <= i < |uris| :: !Refused(uris[i])
  }

  predicate SmallAscii(p: string) {
    forall i | 0 <= i < |p| :: p[i] as int <= 127 && !('A' <= p[i] <= 'Z')
  }

  lemma LowerFolds(u: string, p: string)
    requires SmallAscii(p)
    ensures HasPrefix(Lower(u), p) <==> FoldsAs(u, p)
  {
    var l := Lower(u);
    if |p| <= |u| {
      assert forall i | 0 <= i < |p| :: l[..|p|][i] == LowerChar(u[i]);
      forall i | 0 <= i < |p| ensures LowerChar(u[i]) == p[i] <==> FoldsTo(u[i], p[i]) {
      }
    }
  }

  lemma SchemesSmall()
    ensures forall p | p in DANGEROUS :: SmallAscii(p)
  {
    assert forall i | 0 <= i < |DANGEROUS| :: SmallAscii(DANGEROUS[i]);
  }

  lemma RefusedExact(u: string)
    ensures EditRejects(u) <==> Refused(u)
  {
    DangerousSchemes();
    SchemesSmall();
    AnyPrefixExact(Lower(u), DANGEROUS);
    hide AnyPrefix, Schemes, Lower, FoldsAs, SmallAscii;
    forall p | p in DANGEROUS ensures HasPrefix(Lower(u), p) <==> FoldsAs(u, p) {
      LowerFolds(u, p);
    }
  }

  lemma AllPassExact(uris: seq<string>)
    ensures EditAccepts(uris) <==> AllPass(uris)
  {
    hide EditRejects, Refused;
    forall i | 0 <= i < |uris| ensures EditRejects(uris[i]) <==> Refused(uris[i]) {
      RefusedExact(uris[i]);
    }
  }

  /** Every form field is a join of lines, and the server reads what is between their white space. */
  lemma FormExact(lines: seq<string>)
    requires lines != [] && forall i | 0 <= i < |lines| :: '\n' !in lines[i]
    ensures FormURIs(Join(lines)) == Normalise(lines)
  {
    SplitJoin(lines);
  }

  /** What an update of a live client may have done: if every URI passes, the client has the new name
      and URIs and its old secret, and nothing else changed; otherwise nothing changed at all. */
  ghost predicate UpdateOutcome(before: map<string, Registration>, after: map<string, Registration>, id: string,
      name: string, uris: seq<string>)
    requires id in before
  {
    && (AllPass(uris) ==> after == before[id := Registration(name, uris, before[id].secret)])
    && (!AllPass(uris) ==> after == before)
  }

  /** The effect of an edit whose form field parses to uris. */
  lemma EditedEffect(clients: map<string, Registration>, id: string, name: string, field: string, uris: seq<string>)
    requires id in clients && Trim(name) == name && FormURIs(field) == uris
    ensures UpdateOutcome(clients, Edited(clients, id, name, field), id, name, uris)
  {
    AllPassExact(uris);
    hide AllPass, EditAccepts, FormURIs, Trim;
  }

  /** Edit round trip, without faults: trimming, filtering and joining on the client, splitting,
      trimming, filtering and validating on the server compose to the outcome above for every trimmed
      name and every list of URIs that passes the reconciler's guard. The client read back has the
      wanted name and multiset of URIs exactly when no URI is refused or it had them before. */
  lemma EditRoundTrip(clients: map<string, Registration>, id: string, name: string, uris: seq<string>)
    requires id in clients && Trim(name) == name
    requires uris != [] && forall i | 0 <= i < |uris| :: uris[i] != "" && Clean(uris[i])
    ensures Normalise(uris) == uris
    ensures var after := Edited(clients, id, name, Join(uris));
            && UpdateOutcome(clients, after, id, name, uris)
            && after.Keys == clients.Keys && after[id].secret == clients[id].secret
            && ((after[id].name == name && multiset(after[id].uris) == multiset(uris)) <==>
                  AllPass(uris) || (clients[id].name == name && multiset(clients[id].uris) == multiset(uris)))
  {
    hide AllPass, FormURIs, Trim, Join, Normalise, Edited, Clean;
    FormRoundTrip(uris);
    EditedEffect(clients, id, name, Join(uris), uris);
  }

  // ---------------------------------------------------------------- admission against /edit

  predicate IsAscii(s: string) {
    forall i | 0 <= i < |s| :: s[i] <= '\U{7F}'
  }

  /** A URI with every capital I with a dot (U+0130) replaced by a plain i. */
  function Undotted(s: string): (r: string)
    ensures |r| == |s|
  {
    seq(|s|, i requires 0 <= i < |s| => if s[i] == '\U{130}' then 'i' else s[i])
  }

  /** ASCII characters other than k, the letter the Kelvin sign folds to. */
  predicate Plain(p: string) {
    forall i | 0 <= i < |p| :: p[i] <= '\U{7F}' && p[i] != 'k'
  }

  predicate AllPlain(list: seq<string>) {
    forall i | 0 <= i < |list| :: Plain(list[i])
  }

  lemma DangerousPlain()
    ensures AllPlain(DANGEROUS)
  {
  }

  lemma PrefixPointwise(s: string, p: string)
    ensures HasPrefix(s, p) <==> |p| <= |s| && forall i | 0 <= i < |p| :: s[i] == p[i]
  {
    if |p| <= |s| {
      assert forall i | 0 <= i < |p| :: s[..|p|][i] == s[i];
    }
  }

  /** Folding U+0130 by hand and then the ASCII capitals finds the same plain prefixes as the
      server's full lower-casing; without the first step it finds no others. */
  lemma {:induction false} FoldedPrefixes(u: string, list: seq<string>)
    requires AllPlain(list)
    ensures AnyPrefix(LowerAscii(Undotted(u)), list) <==> AnyPrefix(Lower(u), list)
    ensures AnyPrefix(LowerAscii(u), list) ==> AnyPrefix(Lower(u), list)
  {
    if list != [] {
      var p := list[0];
      assert Plain(p);
      PrefixPointwise(LowerAscii(Undotted(u)), p);
      PrefixPointwise(LowerAscii(u), p);
      PrefixPointwise(Lower(u), p);
      FoldedPrefixes(u, list[1..]);
    }
  }

  /** Whatever the CRD blocks, /edit rejects. */
  lemma BlockedIsRejected(u: string)
    requires SchemeBlocked(u)
    ensures EditRejects(u)
  {
    DangerousPlain();
    FoldedPrefixes(u, DANGEROUS);
  }

  /** The CRD rules do not mirror /edit exactly: an admitted URI is rejected there if and only if
      the CRD would block it with each U+0130 written as a plain i. */
  lemma AdmittedYetRejected(u: string)
    requires AdmittedURI(u)
    ensures EditRejects(u) <==> SchemeBlocked(Undotted(u))
  {
    DangerousPlain();
    FoldedPrefixes(u, DANGEROUS);
  }

  /** On ASCII URIs admission and /edit agree: nothing admitted can wedge an in-place update. */
  lemma AsciiAdmissionExact(u: string)
    requires u != "" && IsAscii(u)
    ensures AdmittedURI(u) <==> !EditRejects(u)
  {
    assert Undotted(u) == u;
    DangerousPlain();
    FoldedPrefixes(u, DANGEROUS);
  }

  lemma {:induction false} NoPlainPrefix(s: string, list: seq<string>)
    requires AllPlain(list) && |s| > 1 && s[1] > '\U{7F}'
    requires forall i | 0 <= i < |list| :: |list[i]| > 1
    ensures !AnyPrefix(s, list)
  {
    if list != [] {
      PrefixPointwise(s, list[0]);
      assert Plain(list[0]);
      NoPlainPrefix(s, list[1..]);
    }
  }

  lemma {:induction false} PrefixFromList(s: string, list: seq<string>, i: nat)
    requires i < |list| && HasPrefix(s, list[i])
    ensures AnyPrefix(s, list)
  {
    if i > 0 {
      PrefixFromList(s, list[1..], i - 1);
    }
  }

  /** A URI the CRD admits, that passes the white-space guard, and that /edit rejects. */
  lemma DottedFileScheme() returns (u: string)
    ensures AdmittedURI(u) && Clean(u) && EditRejects(u)
  {
    u := "f\U{130}le:x";
    assert u[4] == ':';
    assert Lower(u)[..5] == "file:";
    PrefixFromList(Lower(u), DANGEROUS, 2);
    DangerousPlain();
    assert LowerAscii(u)[1] == '\U{130}';
    NoPlainPrefix(LowerAscii(u), DANGEROUS);
  }

  // ---------------------------------------------------------------- fresh ids

  function Digit(d: nat): char
    requires d < 10
  {
    '0' + d as char
  }

  function Decimal(n: nat): (r: string)
    ensures r != ""
  {
    if n < 10 then [Digit(n)] else Decimal(n / 10) + [Digit(n % 10)]
  }

  lemma {:induction false} DecimalInjective(m: nat, n: nat)
    requires Decimal(m) == Decimal(n)
    ensures m == n
  {
    var dm, dn := Decimal(m), Decimal(n);
    assert dm[|dm| - 1] == Digit(m % 10) && dn[|dn| - 1] == Digit(n % 10);
    if m >= 10 && n >= 10 {
      assert dm[..|dm| - 1] == Decimal(m / 10) && dn[..|dn| - 1] == Decimal(n / 10);
      DecimalInjective(m / 10, n / 10);
    }
  }

  function FakeID(n: nat): string { "fake-client-" + Decimal(n) }

  function FakeSecret(n: nat): string { "fake-secret-" + Decimal(n) }

  lemma FakeIDInjective(m: nat, n: nat)
    requires FakeID(m) == FakeID(n)
    ensures m == n
  {
    assert FakeID(m)[12..] == Decimal(m) && FakeID(n)[12..] == Decimal(n);
    DecimalInjective(m, n);
  }

  lemma FakeForm()
    ensures FakeID(1) == "fake-client-1" && FakeID(12) == "fake-client-12" && FakeID(307) == "fake-client-307"
    ensures FakeSecret(1) == "fake-secret-1" && FakeSecret(12) == "fake-secret-12"
              && FakeSecret(307) == "fake-secret-307"
  {
    assert Decimal(3) == "3" && Decimal(30) == "30" && Decimal(307) == "307" && Decimal(12) == "12"
        && Decimal(1) == "1";
  }

  /** A complete listing of the registry, every client once and in any order. */
  predicate Listing(entries: seq<Entry>, clients: map<string, Registration>) {
    && (forall i | 0 <= i < |entries| :: entries[i].id in clients && entries[i].reg == clients[entries[i].id].Blank())
    && (forall i, j | 0 <= i < j < |entries| :: entries[i].id != entries[j].id)
    && (forall id | id in clients :: exists i :: 0 <= i < |entries| && entries[i].id == id)
  }

  // ---------------------------------------------------------------- the server

  datatype Response<T> = OK(value: T) | NotFound | BadRequest

  /** The in-memory tsidp. Each request is one atomic step. */
  class Server {
    var clients: map<string, Registration>
    var nextID: nat

    /** No client holds an id the counter has still to produce. */
    ghost predicate Valid() reads this {
      forall k: nat | k > nextID :: FakeID(k) !in clients
    }

    constructor ()
      ensures Valid() && clients == map[] && nextID == 0
    {
      clients, nextID := map[], 0;
    }

    /** POST /register. The id is new, and this response alone carries the secret. */
    method Register(name: string, uris: seq<string>) returns (r: Response<Credentials>)
      requires Valid()
      modifies this
      ensures Valid()
      ensures uris == [] ==> r.BadRequest? && clients == old(clients) && nextID == old(nextID)
      ensures uris != [] ==>
                && r.OK? && r.value.id != "" && r.value.secret != ""
                && r.value.id !in old(clients)
                && nextID == old(nextID) + 1 && r.value.id == FakeID(nextID)
                && clients == old(clients)[r.value.id := Registration(name, uris, r.value.secret)]
    {
      if uris == [] {
        return BadRequest;
      }
      nextID := nextID + 1;
      var c := Credentials(FakeID(nextID), FakeSecret(nextID));
      forall k: nat | k > nextID ensures FakeID(k) != c.id {
        if FakeID(k) == c.id { FakeIDInjective(k, nextID); }
      }
      clients := clients[c.id := Registration(name, uris, c.secret)];
      return OK(c);
    }

    /** GET /clients/: a complete listing in the map's own arbitrary order, secrets blanked. */
    method List() returns (out: seq<Entry>)
      ensures Listing(out, clients)
      ensures forall i | 0 <= i < |out| ::
                && out[i].reg.secret == "" && out[i].id in clients
                && out[i].reg.name == clients[out[i].id].name && out[i].reg.uris == clients[out[i].id].uris
    {
      out := [];
      var left := clients.Keys;
      while left != {}
        invariant left <= clients.Keys
        invariant forall i | 0 <= i < |out| ::
                    out[i].id in clients && out[i].id !in left && out[i].reg == clients[out[i].id].Blank()
        invariant forall i, j | 0 <= i < j < |out| :: out[i].id != out[j].id
        invariant forall id | id in clients && id !in left :: exists i :: 0 <= i < |out| && out[i].id == id
        decreases left
      {
        var id :| id in left;
        ghost var before := out;
        out := out + [Entry(id, clients[id].Blank())];
        left := left - {id};
        assert out[|before|].id == id;
        forall k | k in clients && k !in left ensures exists i :: 0 <= i < |out| && out[i].id == k {
          if k != id {
            var i :| 0 <= i < |before| && before[i].id == k;
            assert out[i].id == k;
          }
        }
      }
    }

    /** GET /clients/{id}. */
    method Get(id: string) returns (r: Response<Registration>)
      ensures if id in clients then r == OK(clients[id].Blank()) else r.NotFound?
      ensures r.OK? ==>
                r.value.secret == "" && r.value.name == clients[id].name && r.value.uris == clients[id].uris
    {
      if id !in clients {
        return NotFound;
      }
      return OK(clients[id].Blank());
    }

    /** DELETE /clients/{id}. */
    method Delete(id: string) returns (r: Response<()>)
      requires Valid()
      modifies this`clients
      ensures Valid()
      ensures r.OK? <==> id in old(clients)
      ensures r.NotFound? <==> id !in old(clients)
      ensures clients == old(clients) - {id}
    {
      if id !in clients {
        assert clients - {id} == clients;
        return NotFound;
      }
      clients := clients - {id};
      return OK(());
    }

    /** POST /edit/{id}. A rejected form is answered like an accepted one, so the response tells
        a missing client from a present one and nothing more. */
    method Edit(id: string, name: string, field: string) returns (r: Response<()>)
      requires Valid()
      modifies this`clients
      ensures Valid()
      ensures r.OK? <==> id in old(clients)
      ensures r.NotFound? <==> id !in old(clients)
      ensures clients == Edited(old(clients), id, name, field)
      ensures id in old(clients) && AllPass(FormURIs(field)) ==>
                clients == old(clients)[id := Registration(Trim(name), FormURIs(field), old(clients)[id].secret)]
      ensures id !in old(clients) || !AllPass(FormURIs(field)) ==> clients == old(clients)
    {
      AllPassExact(FormURIs(field));
      hide AllPass, Refused;
      hide Trim, Split, EditRejects, FakeID;
      if id !in clients {
        return NotFound;
      }
      var uris := [];
      var lines := Split(field);
      for i := 0 to |lines|
        invariant uris == Normalise(lines[..i])
      {
        assert lines[..i + 1][..i] == lines[..i];
        var u := Trim(lines[i]);
        if u != "" {
          uris := uris + [u];
        }
      }
      assert lines[..|lines|] == lines;
      r := OK(());
      if uris == [] {
        return;
      }
      for i := 0 to |uris|
        invariant forall j | 0 <= j < i :: !EditRejects(uris[j])
      {
        if EditRejects(uris[i]) {
          return;
        }
      }
      clients := clients[id := clients[id].(name := Trim(name), uris := uris)];
    }
  }
}
