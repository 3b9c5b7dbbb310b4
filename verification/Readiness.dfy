/** What an undisturbed pass achieves: what Ready means when it is set, and that it lasts. */
module Readiness {
  import opened Text
  import opened Types
  import opened Naming
  import opened Tsidp
  import opened Secrets
  import opened Cluster

  /** The object as given is in sync: its client is live with the wanted name and URIs; its Secret
      is owned, holds usable credentials of that client, and is what an upsert would write; the
      status says so. */
  ghost predicate InSync(w: World, oc: OIDCClient) {
    var c, key := oc.status.clientID, SecretKeyOf(oc);
    && c != "" && c in w.clients && Converged(w.clients[c], RegisteredName(oc.id, oc.spec), oc.spec.redirectURIs)
    && key in w.secrets
    && w.secrets[key].owner == Some(oc.id.uid)
    && Holds(w.secrets[key], c)
    && Wanted(w.secrets[key], oc, w.disc, None) == w.secrets[key]
    && oc.status.secretName == SecretName(oc.id, oc.spec)
    && oc.status.issuer == w.disc.issuer
    && oc.status.ready == True
  }

  /** An object under normal reconciliation whose spec passes the white-space guard. */
  ghost predicate Normal(w: World, a: Ident) {
    && Live(w, a) && ValidIdent(a)
    && w.crs[a].id == a && Admitted(w.crs[a].spec) && URIsClean(w.crs[a].spec.redirectURIs)
    && !w.crs[a].deleting && w.crs[a].finalizer
  }

  ghost predicate Settled(w: World, a: Ident) {
    Normal(w, a) && InSync(w, w.crs[a])
  }

  /** What Ready promises, on the fields themselves: a live client with the registered name and the
      very multiset of the spec's URIs; a status that names client, Secret and issuer; and under the
      wanted name an owned Secret with usable credentials of that client, everything discovery and spec
      say, and the metadata of the template. */
  ghost predicate Promised(w: World, oc: OIDCClient) {
    var id := oc.status.clientID;
    var name := if oc.spec.secretName == "" then oc.id.name + "-oidc" else oc.spec.secretName;
    var key := SecretKey(oc.id.ns, name);
    && id != "" && id in w.clients
    && w.clients[id].name == RegisteredName(oc.id, oc.spec)
    && multiset(w.clients[id].uris) == multiset(oc.spec.redirectURIs)
    && oc.status == Status(id, name, w.disc.issuer, True)
    && key in w.secrets
    && var s := w.secrets[key];
       && s.owner == Some(oc.id.uid)
       && "client_id" in s.data && s.data["client_id"] == id
       && "client_secret" in s.data && s.data["client_secret"] != ""
       && Publishes(s.data, w.disc, oc.spec.redirectURIs)
       && Shows(s, oc.spec.template)
  }

  /** In sync means all that. */
  lemma InSyncContents(w: World, oc: OIDCClient)
    requires InSync(w, oc)
    ensures Promised(w, oc)
    ensures w.clients[oc.status.clientID].name == RegisteredName(oc.id, oc.spec)
    ensures multiset(w.clients[oc.status.clientID].uris) == multiset(oc.spec.redirectURIs)
  {
    var s := w.secrets[SecretKeyOf(oc)];
    WantedShows(s, oc, w.disc, None);
    WantedCurrent(s, oc, w.disc);
    MetadataPublished(s.data, w.disc, oc.spec.redirectURIs);
    hide Wanted, Shows, Publishes, CurrentMetadata, RegisteredName;
  }

  lemma WantedCurrent(s: Secret, oc: OIDCClient, d: Discovery)
    ensures CurrentMetadata(Wanted(s, oc, d, None).data, d, oc.spec.redirectURIs)
  {
    MetadataContents(s.data, d, oc.spec.redirectURIs);
    hide CurrentMetadata, WithMetadata, Applied;
  }

  // ---------------------------------------------------------------- the points of an undisturbed pass

  /** The pass works on the object as it is. */
  ghost predicate Current(w: World, a: Ident, oc: OIDCClient) {
    && Normal(w, a)
    && oc.id == a && oc.spec == w.crs[a].spec && oc.rv == w.crs[a].rv
  }

  ghost predicate Informed(w: World, a: Ident, oc: OIDCClient) {
    Current(w, a, oc) && oc.status.issuer == w.disc.issuer
  }

  ghost predicate SecretUsable(w: World, oc: OIDCClient) {
    var key := SecretKeyOf(oc);
    && oc.status.clientID != "" && oc.status.clientID in w.clients
    && key in w.secrets && Holds(w.secrets[key], oc.status.clientID)
  }

  /** Before an upsert: the client it will vouch for is as wanted. */
  ghost predicate Vouched(w: World, oc: OIDCClient, cred: Option<Credentials>) {
    match cred
    case None =>
      SecretUsable(w, oc) && Converged(w.clients[oc.status.clientID], RegisteredName(oc.id, oc.spec),
          oc.spec.redirectURIs)
    case Some(c) =>
      && c.id != "" && c.secret != "" && c.id in w.clients
      && Converged(w.clients[c.id], RegisteredName(oc.id, oc.spec), oc.spec.redirectURIs)
  }

  /** The Secret an upsert starts from. */
  function Base(w: World, oc: OIDCClient): Secret {
    var key := SecretKeyOf(oc);
    if key in w.secrets then w.secrets[key] else NEW
  }

  ghost predicate Sound(w: World, a: Ident, pc: PC) {
    match pc
    case Idle(o) => o == Resync ==> Settled(w, a)
    case AddFinalizer(oc) =>
      Live(w, a) && ValidIdent(a) && oc == w.crs[a] && oc.id == a && Admitted(oc.spec) && !oc.deleting
    case Discover(oc) => Current(w, a, oc)
    case VetTarget(oc, d) => Informed(w, a, oc) && d == w.disc && oc.status.secretName != SecretName(a, oc.spec)
    case ReadOld(oc, d) => Informed(w, a, oc) && d == w.disc && oc.status.secretName != SecretName(a, oc.spec)
    case DropOld(oc, d, stale) =>
      && Informed(w, a, oc) && d == w.disc && oc.status.secretName != SecretName(a, oc.spec)
      && SecretKey(a.ns, oc.status.secretName) in w.secrets
      && w.secrets[SecretKey(a.ns, oc.status.secretName)] == stale
    case VetSecret(oc, d) => Informed(w, a, oc) && d == w.disc
    case ListForAdoption(oc, d, _) => Informed(w, a, oc) && d == w.disc
    case BurnOrphan(oc, _) => Current(w, a, oc)
    case Register(oc, d) => Informed(w, a, oc) && d == w.disc
    case UpsertRead(oc, d, cred) => Informed(w, a, oc) && d == w.disc && Vouched(w, oc, cred)
    case UpsertWrite(oc, cred, want, create) =>
      && Informed(w, a, oc) && Vouched(w, oc, cred)
      && (create <==> SecretKeyOf(oc) !in w.secrets)
      && want == Wanted(Base(w, oc), oc, w.disc, cred)
    case ReadRemote(oc, d) => Informed(w, a, oc) && d == w.disc && oc.status.clientID != ""
    case CheckSecret(oc, d, remote) =>
      && Informed(w, a, oc) && d == w.disc
      && oc.status.clientID != "" && oc.status.clientID in w.clients && remote == w.clients[oc.status.clientID].Blank()
    case BurnRecorded(oc) => Current(w, a, oc)
    case EditRemote(oc, d) => Informed(w, a, oc) && d == w.disc && SecretUsable(w, oc)
    case VerifyEdit(oc, d) => Informed(w, a, oc) && d == w.disc && SecretUsable(w, oc)
    case PutStatus(oc, o) => o == Resync ==> Current(w, a, oc) && InSync(w, oc)
    case _ => true
  }

  // ---------------------------------------------------------------- one undisturbed call

  lemma SoundEarly(w: World, a: Ident, pc: PC, ch: Choice)
    requires Sound(w, a, pc)
    requires pc.Discover? || pc.VetTarget? || pc.ReadOld? || pc.DropOld? || pc.VetSecret?
    ensures Allowed(w, CallOf(pc), ch)
    ensures var (w', r) := Serve(w, a, CallOf(pc), ch); Sound(w', a, Resume(pc, r))
  {
    hide Admitted, ValidIdent, SecretName, URIsClean;
  }

  lemma SoundClients(w: World, a: Ident, pc: PC, ch: Choice)
    requires Sound(w, a, pc)
    requires pc.ListForAdoption? || pc.BurnOrphan? || pc.BurnRecorded? || pc.ReadRemote?
    requires Allowed(w, CallOf(pc), ch) && "" !in w.clients
    ensures var (w', r) := Serve(w, a, CallOf(pc), ch); Sound(w', a, Resume(pc, r))
  {
    hide Admitted, ValidIdent, SecretName, URIsClean, Mine, Matches, RegisteredName, Trim, Join, Normalise, Holds,
      InSync;
    if pc.ListForAdoption? { MatchesMine(w.clients, ch.listing, a); }
    if pc.ListForAdoption? {
      var m := Matches(ch.listing, a);
      if m != [] { assert m[0] in m; MineLive(w.clients, a, m[0]); }
    }
  }

  lemma MineLive(clients: map<string, Registration>, a: Ident, id: string)
    requires id in Mine(clients, a)
    ensures id in clients
  {
  }

  lemma SoundRegister(w: World, a: Ident, oc: OIDCClient, d: Discovery, ch: Choice)
    requires Sound(w, a, Register(oc, d)) && Allowed(w, CallOf(Register(oc, d)), ch)
    ensures var (w', r) := Serve(w, a, CallOf(Register(oc, d)), ch); Sound(w', a, Resume(Register(oc, d), r))
  {
    hide Admitted, ValidIdent, SecretName, URIsClean, RegisteredName;
  }

  lemma SoundCheck(w: World, a: Ident, pc: PC, ch: Choice)
    requires Sound(w, a, pc) && pc.CheckSecret?
    ensures Allowed(w, CallOf(pc), ch)
    ensures var (w', r) := Serve(w, a, CallOf(pc), ch); Sound(w', a, Resume(pc, r))
  {
    hide Admitted, ValidIdent, SecretName, URIsClean, RegisteredName;
  }

  /** The edit form leaves name and URIs as they are under the guard. */
  lemma EditNormal(w: World, a: Ident, oc: OIDCClient)
    requires Current(w, a, oc)
    ensures Trim(RegisteredName(oc.id, oc.spec)) == RegisteredName(oc.id, oc.spec)
    ensures Normalise(oc.spec.redirectURIs) == oc.spec.redirectURIs
  {
    RegisteredNameTrimmed(a, oc.spec);
    NormaliseClean(oc.spec.redirectURIs);
    hide RegisteredName, Trim, Normalise, SchemeBlocked, Contains;
  }

  lemma FormReady(w: World, a: Ident, oc: OIDCClient)
    requires Current(w, a, oc)
    ensures var uris := oc.spec.redirectURIs;
            oc.id == a && uris != [] && forall i | 0 <= i < |uris| :: uris[i] != "" && Clean(uris[i])
  {
    assert forall i | 0 <= i < |oc.spec.redirectURIs| :: AdmittedURI(oc.spec.redirectURIs[i]);
    hide SchemeBlocked, Contains, ValidIdent, Clean;
  }

  /** An edit as the pass sends it does what UpdateOutcome says. */
  lemma EditSent(w: World, a: Ident, oc: OIDCClient)
    requires Current(w, a, oc) && oc.status.clientID in w.clients
    ensures var (id, name, uris) := (oc.status.clientID, RegisteredName(oc.id, oc.spec), oc.spec.redirectURIs);
            && Trim(name) == name && Normalise(uris) == uris && uris != []
            && UpdateOutcome(w.clients, Edited(w.clients, id, Trim(name), Join(Normalise(uris))), id, name, uris)
  {
    EditNormal(w, a, oc);
    FormReady(w, a, oc);
    hide RegisteredName, Edited, Trim, Join, Normalise, Current, UpdateOutcome, Clean;
    EditRoundTrip(w.clients, oc.status.clientID, RegisteredName(a, oc.spec), oc.spec.redirectURIs);
  }

  lemma SoundEditRemote(w: World, a: Ident, oc: OIDCClient, d: Discovery, ch: Choice)
    requires Sound(w, a, EditRemote(oc, d))
    ensures Allowed(w, CallOf(EditRemote(oc, d)), ch)
    ensures var (w', r) := Serve(w, a, CallOf(EditRemote(oc, d)), ch); Sound(w', a, Resume(EditRemote(oc, d), r))
  {
    hide Admitted, ValidIdent, URIsClean, SecretName, RegisteredName, Join, Normalise, Trim, FormURIs, EditAccepts,
      Holds;
  }

  lemma SoundVerify(w: World, a: Ident, oc: OIDCClient, d: Discovery, ch: Choice)
    requires Sound(w, a, VerifyEdit(oc, d))
    ensures Allowed(w, CallOf(VerifyEdit(oc, d)), ch)
    ensures var (w', r) := Serve(w, a, CallOf(VerifyEdit(oc, d)), ch); Sound(w', a, Resume(VerifyEdit(oc, d), r))
  {
    hide Normal, SecretName, RegisteredName, Normalise, Trim, Holds;
    EditNormal(w, a, oc);
  }

  /** The finished upsert: what it leaves in the Secret is in sync. */
  lemma UpsertSync(w: World, a: Ident, oc: OIDCClient, cred: Option<Credentials>, s: Secret)
    requires Informed(w, a, oc) && Vouched(w, oc, cred)
    requires SecretKeyOf(oc) in w.secrets && w.secrets[SecretKeyOf(oc)] == s
    requires s.owner == Some(a.uid) && Wanted(s, oc, w.disc, None) == s
    requires cred.Some? ==> Holds(s, cred.value.id)
    ensures Sound(w, a, AfterUpsert(oc, cred))
  {
    hide Admitted, ValidIdent, SecretName, URIsClean, RegisteredName, Wanted, Holds;
    var oc' := MarkReady(if cred.Some? then oc.WithID(cred.value.id) else oc);
    WantedBySpec(s, oc, oc', w.disc, None);
  }

  /** What an upsert wants depends on the object's uid and spec alone. */
  lemma WantedBySpec(s: Secret, oc: OIDCClient, oc': OIDCClient, d: Discovery, cred: Option<Credentials>)
    requires oc.id == oc'.id && oc.spec == oc'.spec
    ensures Wanted(s, oc, d, cred) == Wanted(s, oc', d, cred)
  {
  }

  /** The credentials an upsert wants are the new ones, or those it found. */
  lemma WantedHolds(s: Secret, oc: OIDCClient, d: Discovery, cred: Option<Credentials>, id: string)
    ensures cred.Some? && cred.value.secret != "" ==> Holds(Wanted(s, oc, d, cred), cred.value.id)
    ensures cred.None? && Holds(s, id) ==> Holds(Wanted(s, oc, d, cred), id)
  {
    MetadataContents(WithCredentials(s.data, cred), d, oc.spec.redirectURIs);
    KeysDistinct();
    hide WithMetadata, Applied, CurrentMetadata;
  }

  /** A skipped write was not needed. */
  lemma NothingToWrite(w: World, a: Ident, oc: OIDCClient, cred: Option<Credentials>)
    requires Informed(w, a, oc) && Vouched(w, oc, cred) && SecretKeyOf(oc) in w.secrets
    requires var s := w.secrets[SecretKeyOf(oc)]; s.owner == Some(a.uid) && Wanted(s, oc, w.disc, cred) == s
    ensures Sound(w, a, AfterUpsert(oc, cred))
  {
    var s := w.secrets[SecretKeyOf(oc)];
    WantedIdempotent(s, oc, w.disc, cred);
    WantedHolds(s, oc, w.disc, cred, "");
    hide Normal, SecretName, RegisteredName, Wanted, Holds, Sound;
    UpsertSync(w, a, oc, cred, s);
  }

  lemma SoundUpsertRead(w: World, a: Ident, oc: OIDCClient, d: Discovery, cred: Option<Credentials>, ch: Choice)
    requires Sound(w, a, UpsertRead(oc, d, cred)) && ch.view.Fresh?
    ensures Allowed(w, CallOf(UpsertRead(oc, d, cred)), ch)
    ensures var (w', r) := Serve(w, a, CallOf(UpsertRead(oc, d, cred)), ch);
              Sound(w', a, Resume(UpsertRead(oc, d, cred), r))
  {
    hide Normal, SecretName, RegisteredName, Wanted, Holds, AfterUpsert, Converged;
    var key := SecretKeyOf(oc);
    if key in w.secrets && w.secrets[key].owner == Some(a.uid) &&
      Wanted(w.secrets[key], oc, d, cred) == w.secrets[key] {
      NothingToWrite(w, a, oc, cred);
    }
  }

  lemma WantedKeepsVersion(s: Secret, oc: OIDCClient, d: Discovery, cred: Option<Credentials>)
    ensures var want := Wanted(s, oc, d, cred); want.rv == s.rv && want.uid == s.uid && want.owner == Some(oc.id.uid)
  {
  }

  lemma SoundUpsertWrite(w: World, a: Ident, oc: OIDCClient, cred: Option<Credentials>, want: Secret, create: bool,
      ch: Choice)
    requires Informed(w, a, oc) && Vouched(w, oc, cred)
    requires (create <==> SecretKeyOf(oc) !in w.secrets) && want == Wanted(Base(w, oc), oc, w.disc, cred)
    ensures Allowed(w, CallOf(UpsertWrite(oc, cred, want, create)), ch)
    ensures var (w', r) := Serve(w, a, CallOf(UpsertWrite(oc, cred, want, create)), ch);
            Sound(w', a, Resume(UpsertWrite(oc, cred, want, create), r))
  {
    hide RegisteredName, Trim, Join, Normalise, Wanted, Holds, SecretName, SecretKeyOf, Normal, Allowed, Serve,
      Converged;
    var pc, key, base := UpsertWrite(oc, cred, want, create), SecretKeyOf(oc), Base(w, oc);
    WantedKeepsVersion(base, oc, w.disc, cred);
    WantedIdempotent(base, oc, w.disc, cred);
    WantedHolds(base, oc, w.disc, cred, oc.status.clientID);
    assert CallOf(pc) == if create then CreateSecret(key, want) else UpdateSecret(key, want);
    ServeWrite(w, a, key, want, create, ch);
    var (w', r) := Serve(w, a, CallOf(pc), ch);
    assert Resume(pc, r) == AfterUpsert(oc, cred);
    hide CallOf, Resume, AfterUpsert, Sound;
    WrittenSync(w, w', a, oc, cred, want);
  }

  lemma WrittenSync(w: World, w': World, a: Ident, oc: OIDCClient, cred: Option<Credentials>, want: Secret)
    requires Informed(w, a, oc) && Vouched(w, oc, cred)
    requires w'.crs == w.crs && w'.gone == w.gone && w'.clients == w.clients && w'.disc == w.disc
    requires SecretKeyOf(oc) in w'.secrets
    requires var s := w'.secrets[SecretKeyOf(oc)]; s == want.(uid := s.uid, rv := s.rv)
    requires want.owner == Some(a.uid) && Wanted(want, oc, w.disc, None) == want
    requires cred.Some? && cred.value.secret != "" ==> Holds(want, cred.value.id)
    requires cred.None? ==> Holds(want, oc.status.clientID)
    ensures Sound(w', a, AfterUpsert(oc, cred))
  {
    var s := w'.secrets[SecretKeyOf(oc)];
    WantedRestamped(want, s, oc, w.disc);
    HoldsRestamped(want, s, oc.status.clientID);
    if cred.Some? { HoldsRestamped(want, s, cred.value.id); }
    hide Wanted, Holds, Admitted, ValidIdent, URIsClean, RegisteredName, SecretKeyOf, Sound, AfterUpsert;
    VouchedKept(w, w', oc, cred);
    UpsertSync(w', a, oc, cred, s);
  }

  lemma VouchedKept(w: World, w': World, oc: OIDCClient, cred: Option<Credentials>)
    requires Vouched(w, oc, cred) && w'.clients == w.clients && SecretKeyOf(oc) in w'.secrets
    requires cred.None? ==> Holds(w'.secrets[SecretKeyOf(oc)], oc.status.clientID)
    ensures Vouched(w', oc, cred)
  {
    hide Holds, RegisteredName, SecretKeyOf;
  }

  lemma HoldsRestamped(s: Secret, s': Secret, id: string)
    requires s'.data == s.data
    ensures Holds(s, id) == Holds(s', id)
  {
  }

  /** The server's own stamps do not matter to what an upsert wants. */
  lemma WantedRestamped(s: Secret, s': Secret, oc: OIDCClient, d: Discovery)
    requires s' == s.(uid := s'.uid, rv := s'.rv) && Wanted(s, oc, d, None) == s
    ensures Wanted(s', oc, d, None) == s'
  {
  }

  lemma SoundStatus(w: World, a: Ident, oc: OIDCClient, o: Outcome, ch: Choice)
    requires Sound(w, a, PutStatus(oc, o))
    ensures Allowed(w, CallOf(PutStatus(oc, o)), ch)
    ensures var (w', r) := Serve(w, a, CallOf(PutStatus(oc, o)), ch); Sound(w', a, Resume(PutStatus(oc, o), r))
  {
    hide Admitted, ValidIdent, URIsClean, SecretName, RegisteredName, Holds, Wanted, Converged;
    var (w', r) := Serve(w, a, CallOf(PutStatus(oc, o)), ch);
    if o == Resync && r.Object? {
      var key := SecretKeyOf(oc);
      WantedBySpec(w.secrets[key], oc, w'.crs[a], w.disc, None);
    }
  }

  lemma SoundFinalizer(w: World, a: Ident, oc: OIDCClient, ch: Choice)
    requires Sound(w, a, AddFinalizer(oc))
    ensures Allowed(w, CallOf(AddFinalizer(oc)), ch)
    ensures var (w', r) := Serve(w, a, CallOf(AddFinalizer(oc)), ch); Sound(w', a, Resume(AddFinalizer(oc), r))
  {
    hide Admitted, ValidIdent, URIsClean, SecretName;
  }

  lemma SoundDeletion(w: World, a: Ident, pc: PC, ch: Choice)
    requires Calling(pc) && (pc.Unregister? || pc.ListForCleanup? || pc.Cleanup? || pc.DropFinalizer?)
    requires Allowed(w, CallOf(pc), ch)
    ensures var (w', r) := Serve(w, a, CallOf(pc), ch); Sound(w', a, Resume(pc, r))
  {
    hide Settled, Matches;
  }

  lemma SoundWritePoint(w: World, a: Ident, oc: OIDCClient, cred: Option<Credentials>, want: Secret, create: bool)
    requires Sound(w, a, UpsertWrite(oc, cred, want, create))
    ensures Informed(w, a, oc) && Vouched(w, oc, cred)
    ensures (create <==> SecretKeyOf(oc) !in w.secrets) && want == Wanted(Base(w, oc), oc, w.disc, cred)
  {
    hide Informed, Vouched, Wanted, SecretKeyOf;
  }

  /** An undisturbed call takes the pass from one sound point to the next. */
  lemma SoundStep(w: World, a: Ident, pc: PC, ch: Choice)
    requires Sound(w, a, pc) && Calling(pc) && Allowed(w, CallOf(pc), ch) && "" !in w.clients && ch.view.Fresh?
    ensures var (w', r) := Serve(w, a, CallOf(pc), ch); Sound(w', a, Resume(pc, r)) && "" !in w'.clients
  {
    NoBlankClient(w, a, pc, ch);
    hide Sound, Serve, CallOf, Resume, Allowed;
    match pc
    case AddFinalizer(oc) => SoundFinalizer(w, a, oc, ch);
    case Discover(_) => SoundEarly(w, a, pc, ch);
    case VetTarget(_, _) => SoundEarly(w, a, pc, ch);
    case ReadOld(_, _) => SoundEarly(w, a, pc, ch);
    case DropOld(_, _, _) => SoundEarly(w, a, pc, ch);
    case VetSecret(_, _) => SoundEarly(w, a, pc, ch);
    case ListForAdoption(_, _, _) => SoundClients(w, a, pc, ch);
    case BurnOrphan(_, _) => SoundClients(w, a, pc, ch);
    case BurnRecorded(_) => SoundClients(w, a, pc, ch);
    case ReadRemote(_, _) => SoundClients(w, a, pc, ch);
    case Register(oc, d) => SoundRegister(w, a, oc, d, ch);
    case UpsertRead(oc, d, cred) => SoundUpsertRead(w, a, oc, d, cred, ch);
    case UpsertWrite(oc, cred, want, create) =>
      SoundWritePoint(w, a, oc, cred, want, create);
      SoundUpsertWrite(w, a, oc, cred, want, create, ch);
    case CheckSecret(_, _, _) => SoundCheck(w, a, pc, ch);
    case EditRemote(oc, d) => SoundEditRemote(w, a, oc, d, ch);
    case VerifyEdit(oc, d) => SoundVerify(w, a, oc, d, ch);
    case PutStatus(oc, o) => SoundStatus(w, a, oc, o, ch);
    case _ => SoundDeletion(w, a, pc, ch);
  }

  lemma NoBlankClient(w: World, a: Ident, pc: PC, ch: Choice)
    requires Calling(pc) && Allowed(w, CallOf(pc), ch) && "" !in w.clients
    ensures "" !in Serve(w, a, CallOf(pc), ch).0.clients
  {
    hide Matches, RegisteredName, Trim, Join, Normalise, EditAccepts, Listing;
  }

  lemma SoundBegin(w: World, a: Ident)
    requires Live(w, a) && ValidIdent(a) && w.crs[a].id == a && Admitted(w.crs[a].spec)
    ensures Sound(w, a, Dispatch(w.crs[a]))
  {
    hide Admitted, ValidIdent, URIsClean;
  }

  // ---------------------------------------------------------------- runs quiet around one object

  /** An action of a's own pass without fault, the cache being coherent. */
  predicate Smooth(act: Action, a: Ident) {
    act.Step? && act.me == a && act.fault == NoFault && act.choice.view.Fresh?
  }

  ghost predicate SameSecret(w: World, w': World, key: SecretKey) {
    (key in w'.secrets <==> key in w.secrets) && (key in w.secrets ==> w'.secrets[key] == w.secrets[key])
  }

  ghost predicate SameClient(w: World, w': World, id: string) {
    (id in w'.clients <==> id in w.clients) && (id in w.clients ==> w'.clients[id] == w.clients[id])
  }

  /** The Secret names the pass of a is concerned with: the wanted one, and the one its status has. */
  ghost predicate ItsKey(w: World, a: Ident, pc: PC, key: SecretKey) {
    || (a in w.crs && key == SecretKeyOf(w.crs[a]))
    || (!pc.Idle? && key == SecretKey(a.ns, pc.oc.status.secretName))
  }

  /** The pass has looked at the client its object names. */
  predicate NamesClient(pc: PC) {
    && !pc.Idle? && !pc.AddFinalizer?
    && !pc.Unregister? && !pc.ListForCleanup? && !pc.Cleanup? && !pc.DropFinalizer?
  }

  /** The client ids: those with the fingerprint, the one recorded, the one the pass works with. */
  ghost predicate ItsClient(w: World, a: Ident, pc: PC, id: string) {
    || id == "" || id in Mine(w.clients, a)
    || (a in w.crs && id == w.crs[a].status.clientID)
    || (NamesClient(pc) && id == pc.oc.status.clientID)
    || ((pc.UpsertRead? || pc.UpsertWrite?) && pc.cred.Some? && id == pc.cred.value.id)
  }

  /** A change that leaves alone what the pass of a is concerned with: its object, the discovery
      document, its Secrets and its registrations. */
  ghost predicate Spared(w: World, w': World, a: Ident, pc: PC) {
    && (Live(w, a) ==> Live(w', a) && w'.crs[a] == w.crs[a])
    && w'.disc == w.disc
    && (forall key | ItsKey(w, a, pc, key) :: SameSecret(w, w', key))
    && Mine(w'.clients, a) == Mine(w.clients, a)
    && (forall id | ItsClient(w, a, pc, id) :: SameClient(w, w', id))
  }

  /** Passes of a without fault, and anything at all by others that spares a. */
  ghost predicate QuietAct(s: State, act: Action, a: Ident)
    requires Enabled(s, act)
  {
    || act == Begin(a) || Smooth(act, a)
    || (!ActsFor(act, a) && a in s.pcs && Spared(s.w, Apply(s, act).w, a, s.pcs[a]))
  }

  ghost predicate Quiet(s: State, acts: seq<Action>, a: Ident)
    decreases |acts|
  {
    acts == [] || (Enabled(s, acts[0]) && QuietAct(s, acts[0], a) && Quiet(Apply(s, acts[0]), acts[1..], a))
  }

  lemma {:induction false} QuietLegal(s: State, acts: seq<Action>, a: Ident)
    requires Quiet(s, acts, a)
    ensures Legal(s, acts)
    decreases |acts|
  {
    if acts != [] {
      hide Apply, Enabled, QuietAct;
      QuietLegal(Apply(s, acts[0]), acts[1..], a);
    }
  }

  lemma {:induction false} QuietConcat(s: State, acts: seq<Action>, more: seq<Action>, a: Ident)
    requires Quiet(s, acts, a) && Legal(s, acts) && Quiet(Exec(s, acts), more, a)
    ensures Quiet(s, acts + more, a)
    decreases |acts|
  {
    hide Apply, Enabled, QuietAct;
    if acts == [] {
      assert acts + more == more;
    } else {
      QuietConcat(Apply(s, acts[0]), acts[1..], more, a);
      assert (acts + more)[1..] == acts[1..] + more;
    }
  }

  /** One whole pass of a in a quiet run, from where it begins. */
  ghost predicate QuietPass(s: State, acts: seq<Action>, a: Ident) {
    && acts != [] && acts[0] == Begin(a)
    && (forall i | 1 <= i < |acts| :: acts[i] != Begin(a))
    && Quiet(s, acts, a) && Legal(s, acts) && a in Exec(s, acts).pcs && Exec(s, acts).pcs[a].Idle?
  }

  /** A whole pass of a that nothing disturbs and nothing accompanies. */
  ghost predicate Undisturbed(s: State, acts: seq<Action>, a: Ident) {
    && acts != [] && acts[0] == Begin(a)
    && (forall i | 1 <= i < |acts| :: Smooth(acts[i], a))
    && Legal(s, acts) && a in Exec(s, acts).pcs && Exec(s, acts).pcs[a].Idle?
  }

  lemma {:induction false} SmoothQuiet(s: State, acts: seq<Action>, a: Ident)
    requires Legal(s, acts) && forall i | 0 <= i < |acts| :: acts[i] == Begin(a) || Smooth(acts[i], a)
    ensures Quiet(s, acts, a)
    decreases |acts|
  {
    if acts != [] {
      hide Apply, Enabled, Spared;
      SmoothQuiet(Apply(s, acts[0]), acts[1..], a);
    }
  }

  lemma UndisturbedQuiet(s: State, acts: seq<Action>, a: Ident)
    requires Undisturbed(s, acts, a)
    ensures QuietPass(s, acts, a) && Begins(acts, a) == 1
  {
    hide Legal, Exec, Quiet;
    SmoothQuiet(s, acts, a);
    forall i | 0 <= i < |acts[1..]| ensures acts[1..][i] != Begin(a) {
      assert acts[1..][i] == acts[i + 1];
    }
    NoBegins(acts[1..], a);
  }

  lemma {:induction false} NoBegins(acts: seq<Action>, a: Ident)
    requires forall i | 0 <= i < |acts| :: acts[i] != Begin(a)
    ensures Begins(acts, a) == 0
  {
    if acts != [] {
      NoBegins(acts[1..], a);
    }
  }

  function Result(s: State, acts: seq<Action>, a: Ident): Outcome
    requires Legal(s, acts) && a in Exec(s, acts).pcs && Exec(s, acts).pcs[a].Idle?
  {
    Exec(s, acts).pcs[a].outcome
  }

  // ---------------------------------------------------------------- what is spared stays sound

  lemma SparedNormal(w: World, w': World, a: Ident, pc: PC)
    requires Spared(w, w', a, pc) && Live(w, a)
    ensures Live(w', a) && w'.crs[a] == w.crs[a] && w'.disc == w.disc
    ensures Normal(w, a) ==> Normal(w', a)
    ensures SameSecret(w, w', SecretKeyOf(w.crs[a])) && SameClient(w, w', "")
    ensures SameClient(w, w', w.crs[a].status.clientID)
    ensures !pc.Idle? ==> SameSecret(w, w', SecretKey(a.ns, pc.oc.status.secretName))
    ensures NamesClient(pc) ==> SameClient(w, w', pc.oc.status.clientID)
    ensures (pc.UpsertRead? || pc.UpsertWrite?) && pc.cred.Some? ==> SameClient(w, w', pc.cred.value.id)
    ensures Mine(w'.clients, a) == Mine(w.clients, a)
  {
    hide SameSecret, SameClient, Admitted, ValidIdent, URIsClean, SecretKeyOf, Mine;
    assert ItsKey(w, a, pc, SecretKeyOf(w.crs[a]));
    assert ItsClient(w, a, pc, "") && ItsClient(w, a, pc, w.crs[a].status.clientID);
    if !pc.Idle? {
      assert ItsKey(w, a, pc, SecretKey(a.ns, pc.oc.status.secretName));
    }
    if NamesClient(pc) {
      assert ItsClient(w, a, pc, pc.oc.status.clientID);
    }
    if (pc.UpsertRead? || pc.UpsertWrite?) && pc.cred.Some? {
      assert ItsClient(w, a, pc, pc.cred.value.id);
    }
  }

  lemma SparedSettled(w: World, w': World, a: Ident, pc: PC)
    requires Spared(w, w', a, pc) && Settled(w, a)
    ensures Settled(w', a) && w'.crs[a] == w.crs[a] && w'.disc == w.disc
    ensures SameSecret(w, w', SecretKeyOf(w.crs[a])) && SameClient(w, w', w.crs[a].status.clientID)
  {
    assert Live(w, a);
    SparedNormal(w, w', a, pc);
    hide Normal, Spared, Wanted, Holds, Converged, RegisteredName, SecretName;
  }

  lemma SparedSound(w: World, w': World, a: Ident, pc: PC)
    requires Spared(w, w', a, pc) && Sound(w, a, pc)
    ensures Sound(w', a, pc)
  {
    if Live(w, a) { SparedNormal(w, w', a, pc); }
    if pc.Idle? {
      if pc.outcome == Resync { SparedSettled(w, w', a, pc); }
    } else if pc.UpsertRead? || pc.UpsertWrite? {
      SparedUpsert(w, w', a, pc.oc, pc.cred);
      hide Normal, Spared, Wanted, Vouched;
    } else if pc.PutStatus? {
      hide Spared;
      if pc.outcome == Resync { SparedSync(w, w', a, pc.oc); }
      hide Current, InSync;
    } else {
      SparedRest(w, w', a, pc);
    }
  }

  lemma SparedRest(w: World, w': World, a: Ident, pc: PC)
    requires Sound(w, a, pc) && !pc.Idle? && !pc.UpsertRead? && !pc.UpsertWrite? && !pc.PutStatus?
    requires Live(w, a) ==>
               && Live(w', a) && w'.crs[a] == w.crs[a] && w'.disc == w.disc && (Normal(w, a) ==> Normal(w', a))
               && SameSecret(w, w', SecretKeyOf(w.crs[a]))
                  && SameSecret(w, w', SecretKey(a.ns, pc.oc.status.secretName))
               && (NamesClient(pc) ==> SameClient(w, w', pc.oc.status.clientID))
    ensures Sound(w', a, pc)
  {
    hide Wanted, Holds, Converged, RegisteredName, SecretName, InSync, Admitted, ValidIdent, URIsClean;
  }

  lemma SparedUpsert(w: World, w': World, a: Ident, oc: OIDCClient, cred: Option<Credentials>)
    requires Informed(w, a, oc) && Vouched(w, oc, cred)
    requires Live(w', a) && w'.crs[a] == w.crs[a] && w'.disc == w.disc && SameSecret(w, w', SecretKeyOf(w.crs[a]))
    requires SameClient(w, w', oc.status.clientID) && (cred.Some? ==> SameClient(w, w', cred.value.id))
    ensures Informed(w', a, oc) && Vouched(w', oc, cred) && Base(w', oc) == Base(w, oc)
    ensures SecretKeyOf(oc) in w'.secrets <==> SecretKeyOf(oc) in w.secrets
  {
    assert SecretKeyOf(oc) == SecretKeyOf(w.crs[a]);
    hide Admitted, ValidIdent, URIsClean, Holds, Converged, RegisteredName, SecretKeyOf;
  }

  lemma SparedSync(w: World, w': World, a: Ident, oc: OIDCClient)
    requires Current(w, a, oc) && InSync(w, oc)
    requires Live(w', a) && w'.crs[a] == w.crs[a] && w'.disc == w.disc && SameSecret(w, w', SecretKeyOf(w.crs[a]))
    requires SameClient(w, w', oc.status.clientID)
    ensures Current(w', a, oc) && InSync(w', oc)
  {
    assert SecretKeyOf(oc) == SecretKeyOf(w.crs[a]);
    hide Admitted, ValidIdent, URIsClean, Holds, Converged, RegisteredName, SecretKeyOf, SecretName, Wanted;
  }

  // ---------------------------------------------------------------- Ready soundness

  lemma SmoothStep(s: State, act: Action, a: Ident)
    requires a in s.pcs && Sound(s.w, a, s.pcs[a]) && "" !in s.w.clients
    requires Enabled(s, act) && Smooth(act, a)
    ensures var s' := Apply(s, act); a in s'.pcs && Sound(s'.w, a, s'.pcs[a]) && "" !in s'.w.clients
  {
    hide Sound, Serve, CallOf, Resume, Allowed;
    SoundStep(s.w, a, s.pcs[a], act.choice);
  }

  lemma SparedBlank(w: World, w': World, a: Ident, pc: PC)
    requires Spared(w, w', a, pc) && "" !in w.clients
    ensures "" !in w'.clients
  {
    assert ItsClient(w, a, pc, "");
    assert SameClient(w, w', "");
  }

  lemma OtherStep(s: State, act: Action, a: Ident)
    requires a in s.pcs && Sound(s.w, a, s.pcs[a]) && "" !in s.w.clients
    requires Enabled(s, act) && !ActsFor(act, a) && Spared(s.w, Apply(s, act).w, a, s.pcs[a])
    ensures var s' := Apply(s, act); a in s'.pcs && Sound(s'.w, a, s'.pcs[a]) && "" !in s'.w.clients
  {
    hide Apply, Enabled, Sound, Spared;
    OthersElsewhere(s, act, a);
    SparedSound(s.w, Apply(s, act).w, a, s.pcs[a]);
    SparedBlank(s.w, Apply(s, act).w, a, s.pcs[a]);
  }

  lemma {:induction false} SoundRest(s: State, acts: seq<Action>, a: Ident)
    requires a in s.pcs && Sound(s.w, a, s.pcs[a]) && "" !in s.w.clients
    requires Quiet(s, acts, a) && Legal(s, acts) && forall i | 0 <= i < |acts| :: acts[i] != Begin(a)
    ensures var s' := Exec(s, acts); a in s'.pcs && Sound(s'.w, a, s'.pcs[a]) && "" !in s'.w.clients
    decreases |acts|
  {
    if acts != [] {
      hide Sound, Apply, Enabled, Smooth, Spared;
      if Smooth(acts[0], a) { SmoothStep(s, acts[0], a); } else { OtherStep(s, acts[0], a); }
      SoundRest(Apply(s, acts[0]), acts[1..], a);
    }
  }

  /** Ready soundness: a pass that reaches markReady leaves the object settled. It starts anywhere,
      the registering pass, which reads nothing back, is included, and so are all runs in which others
      go on with what is theirs. */
  lemma ReadySoundness(s: State, acts: seq<Action>, a: Ident)
    requires QuietPass(s, acts, a) && Result(s, acts, a) == Resync
    requires ValidIdent(a) && s.w.crs[a].id == a && Admitted(s.w.crs[a].spec) && "" !in s.w.clients
    ensures Settled(Exec(s, acts).w, a)
    ensures var w := Exec(s, acts).w;
            && Promised(w, w.crs[a])
            && w.clients[w.crs[a].status.clientID].name == RegisteredName(a, w.crs[a].spec)
            && multiset(w.clients[w.crs[a].status.clientID].uris) == multiset(w.crs[a].spec.redirectURIs)
  {
    SoundBegin(s.w, a);
    var s1 := Apply(s, acts[0]);
    forall i | 0 <= i < |acts[1..]| ensures acts[1..][i] != Begin(a) {
      assert acts[1..][i] == acts[i + 1];
    }
    hide Sound, Dispatch, QuietAct, Settled, Promised, RegisteredName;
    SoundRest(s1, acts[1..], a);
    SoundIdle(Exec(s, acts).w, a);
    SettledPromised(Exec(s, acts).w, a);
  }

  lemma SettledPromised(w: World, a: Ident)
    requires Settled(w, a)
    ensures w.crs[a].id == a && Promised(w, w.crs[a])
    ensures w.clients[w.crs[a].status.clientID].name == RegisteredName(a, w.crs[a].spec)
    ensures multiset(w.clients[w.crs[a].status.clientID].uris) == multiset(w.crs[a].spec.redirectURIs)
  {
    hide InSync, Promised, Admitted, ValidIdent, URIsClean, RegisteredName;
    InSyncContents(w, w.crs[a]);
  }

  lemma SoundIdle(w: World, a: Ident)
    ensures Sound(w, a, Idle(Resync)) ==> Settled(w, a)
  {
  }

  // ---------------------------------------------------------------- Ready lasts

  /** The points of a pass over a settled object: it is settled all the time, and the pass works on
      it as it is. */
  ghost predicate Resting(w: World, a: Ident, pc: PC) {
    && Settled(w, a)
    && match pc
       case Idle(_) => true
       case Discover(c) => c == w.crs[a]
       case ReadRemote(c, d) => c == w.crs[a] && d == w.disc
       case CheckSecret(c, d, remote) =>
         && c == w.crs[a] && d == w.disc
         && c.status.clientID in w.clients && remote == w.clients[c.status.clientID].Blank()
       case UpsertRead(c, d, cred) => c == w.crs[a] && d == w.disc && cred == None
       case PutStatus(c, o) => c == w.crs[a] && o == Resync
       case _ => false
  }

  /** What a call of such a pass changes: nothing but the resourceVersion of the object. */
  ghost predicate Unmoved(w: World, w': World, a: Ident)
    requires a in w.crs
  {
    && w'.clients == w.clients && w'.secrets == w.secrets
    && a in w'.crs && w'.crs[a].status == w.crs[a].status && w'.crs[a].spec == w.crs[a].spec
  }

  lemma RestingStep(w: World, a: Ident, pc: PC, ch: Choice)
    requires Resting(w, a, pc) && !pc.Idle? && !pc.PutStatus? && Calling(pc)
    requires Allowed(w, CallOf(pc), ch) && ch.view.Fresh?
    ensures var (w', r) := Serve(w, a, CallOf(pc), ch);
            w' == w && Resting(w, a, Resume(pc, r)) && !Resume(pc, r).Idle?
  {
    hide Admitted, ValidIdent, URIsClean, RegisteredName, Wanted, Holds, SecretName, Trim, Join, Normalise;
  }

  lemma SettledIsSync(w: World, a: Ident)
    requires Settled(w, a)
    ensures Live(w, a) && w.crs[a].id == a && Sound(w, a, PutStatus(w.crs[a], Resync))
  {
    hide Admitted, ValidIdent, URIsClean, InSync;
  }

  lemma RestingStatus(w: World, a: Ident, oc: OIDCClient, ch: Choice)
    requires Resting(w, a, PutStatus(oc, Resync))
    ensures var (w', r) := Serve(w, a, UpdateStatus(oc), ch);
            r.Object? && Settled(w', a) && Unmoved(w, w', a)
  {
    SettledIsSync(w, a);
    hide Settled, Serve, Resume, CallOf, Allowed, Sound;
    assert oc == w.crs[a];
    assert CallOf(PutStatus(oc, Resync)) == UpdateStatus(oc) by { PutCall(oc); }
    SoundStatus(w, a, oc, Resync, ch);
    StatusServed(w, a, oc, ch);
    SoundIdle(Serve(w, a, UpdateStatus(oc), ch).0, a);
  }

  lemma PutCall(oc: OIDCClient)
    ensures CallOf(PutStatus(oc, Resync)) == UpdateStatus(oc)
    ensures forall r: Reply :: r.Object? ==> Resume(PutStatus(oc, Resync), r) == Idle(Resync)
  {
  }

  lemma StatusServed(w: World, a: Ident, oc: OIDCClient, ch: Choice)
    requires Live(w, a) && oc == w.crs[a] && oc.id == a
    ensures var (w', r) := Serve(w, a, UpdateStatus(oc), ch);
            r.Object? && Unmoved(w, w', a) && Resume(PutStatus(oc, Resync), r) == Idle(Resync)
  {
  }

  lemma RestingBegin(w: World, a: Ident)
    requires Settled(w, a)
    ensures Resting(w, a, Dispatch(w.crs[a])) && !Dispatch(w.crs[a]).Idle?
  {
    hide Admitted, ValidIdent, RegisteredName, Wanted, Holds, SecretName, Converged;
  }

  lemma SparedResting(w: World, w': World, a: Ident, pc: PC)
    requires Spared(w, w', a, pc) && Resting(w, a, pc)
    ensures Resting(w', a, pc)
  {
    hide Settled, Spared, SecretKeyOf, SameSecret;
    SparedSettled(w, w', a, pc);
  }

  /** The outcome is Resync, once a pass has ended. */
  ghost predicate AtRest(s: State, a: Ident, begun: bool) {
    && a in s.pcs && Resting(s.w, a, s.pcs[a])
    && (begun && s.pcs[a].Idle? ==> s.pcs[a] == Idle(Resync))
  }

  lemma RestingOwn(s: State, act: Action, a: Ident)
    requires AtRest(s, a, true) && Enabled(s, act) && Smooth(act, a)
    ensures AtRest(Apply(s, act), a, true) && a in s.w.crs && Unmoved(s.w, Apply(s, act).w, a)
  {
    hide Settled, Serve, CallOf, Resume, Allowed;
    SettledHere(s.w, a);
    var pc := s.pcs[a];
    if pc.PutStatus? {
      PutCall(pc.oc);
      RestingStatus(s.w, a, pc.oc, act.choice);
      var r := Serve(s.w, a, UpdateStatus(pc.oc), act.choice).1;
      assert Resume(PutStatus(pc.oc, Resync), r) == Idle(Resync);
      assert pc == PutStatus(pc.oc, Resync);
      assert Apply(s, act).pcs[a] == Idle(Resync);
    } else {
      RestingStep(s.w, a, pc, act.choice);
    }
  }

  lemma SettledHere(w: World, a: Ident)
    requires Settled(w, a)
    ensures a in w.crs
  {
  }

  lemma RestingOther(s: State, act: Action, a: Ident, begun: bool)
    requires AtRest(s, a, begun) && Enabled(s, act) && !ActsFor(act, a) && Spared(s.w, Apply(s, act).w, a, s.pcs[a])
    ensures var s' := Apply(s, act);
            AtRest(s', a, begun) && a in s.w.crs && a in s'.w.crs && s'.w.crs[a] == s.w.crs[a]
  {
    assert Settled(s.w, a);
    SparedSettled(s.w, Apply(s, act).w, a, s.pcs[a]);
    SparedResting(s.w, Apply(s, act).w, a, s.pcs[a]);
    SettledHere(s.w, a);
    SettledHere(Apply(s, act).w, a);
    hide Settled, Spared, Resting, Apply, Enabled;
    OthersElsewhere(s, act, a);
  }

  lemma RestingAct(s: State, act: Action, a: Ident, begun: bool)
    requires AtRest(s, a, begun) && Enabled(s, act) && QuietAct(s, act, a)
    requires begun || s.pcs[a].Idle?
    ensures var (s', now) := (Apply(s, act), begun || act == Begin(a));
            && AtRest(s', a, now) && (now || s'.pcs[a].Idle?)
            && a in s.w.crs && a in s'.w.crs
            && s'.w.crs[a].status == s.w.crs[a].status && s'.w.crs[a].spec == s.w.crs[a].spec
            && (ActsFor(act, a) ==> s'.w.clients == s.w.clients && s'.w.secrets == s.w.secrets)
  {
    SettledHere(s.w, a);
    if act == Begin(a) {
      RestingBegin(s.w, a);
      hide Settled, Dispatch;
    } else if Smooth(act, a) {
      assert begun;
      RestingOwn(s, act, a);
      hide Settled, Resting, Apply, Enabled, Smooth;
    } else {
      RestingOther(s, act, a, begun);
      hide AtRest, Apply, Enabled, Spared, Smooth;
      OthersElsewhere(s, act, a);
    }
  }

  /** The steps of a's passes change no registration and no Secret. */
  ghost predicate ChangesNothing(s: State, acts: seq<Action>, a: Ident)
    requires Legal(s, acts)
    decreases |acts|
  {
    acts != [] ==>
      var s' := Apply(s, acts[0]);
      && (ActsFor(acts[0], a) ==> s'.w.clients == s.w.clients && s'.w.secrets == s.w.secrets)
      && ChangesNothing(s', acts[1..], a)
  }

  lemma {:induction false} RestingRun(s: State, acts: seq<Action>, a: Ident, begun: bool)
    requires AtRest(s, a, begun) && (begun || s.pcs[a].Idle?) && Quiet(s, acts, a) && Legal(s, acts)
    ensures var (s', now) := (Exec(s, acts), begun || Begins(acts, a) > 0);
            && AtRest(s', a, now) && ChangesNothing(s, acts, a)
            && a in s.w.crs && a in s'.w.crs
            && s'.w.crs[a].status == s.w.crs[a].status && s'.w.crs[a].spec == s.w.crs[a].spec
    decreases |acts|
  {
    if acts == [] {
      SettledHere(s.w, a);
    } else {
      RestingAct(s, acts[0], a, begun);
      hide AtRest, Apply, Enabled, QuietAct;
      RestingRun(Apply(s, acts[0]), acts[1..], a, begun || acts[0] == Begin(a));
    }
  }

  /** Ready is a fixpoint: in every run quiet around a settled object, whatever others do elsewhere
      and however many of its passes it holds, none of its steps changes a registration or a Secret,
      status and spec stay as they are, every pass that has ended came to markReady again, and the
      object stays settled throughout. */
  lemma ReadyFixpoint(s: State, acts: seq<Action>, a: Ident)
    requires Settled(s.w, a) && a in s.pcs && s.pcs[a].Idle? && Quiet(s, acts, a) && Legal(s, acts)
    ensures ChangesNothing(s, acts, a)
    ensures var s' := Exec(s, acts);
            && Settled(s'.w, a) && a in s'.pcs
            && a in s.w.crs && s'.w.crs[a].status == s.w.crs[a].status && s'.w.crs[a].spec == s.w.crs[a].spec
            && (Begins(acts, a) > 0 && s'.pcs[a].Idle? ==> s'.pcs[a].outcome == Resync)
  {
    hide Settled, Quiet, Legal, Exec, ChangesNothing;
    RestingRun(s, acts, a, false);
  }
}
