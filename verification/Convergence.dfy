/** Every pass ends, and a bounded number of undisturbed passes makes an object Ready. */
module Convergence {
  import opened Text
  import opened Types
  import opened Naming
  import opened Tsidp
  import opened Secrets
  import opened Cluster
  import opened Readiness
  import Safety

  // ---------------------------------------------------------------- every pass ends

  /** How far a pass is from its end, whatever it meets on the way. */
  function Rank(pc: PC): nat {
    match pc
    case AddFinalizer(_) => 15
    case Discover(_) => 14
    case VetTarget(_, _) => 13
    case ReadOld(_, _) => 12
    case DropOld(_, _, _) => 11
    case VetSecret(_, _) => 10
    case ListForAdoption(_, _, _) => 9
    case ReadRemote(_, _) => 8
    case Register(_, _) => 7
    case CheckSecret(_, _, _) => 7
    case EditRemote(_, _) => 6
    case VerifyEdit(_, _) => 5
    case UpsertRead(_, _, _) => 4
    case UpsertWrite(_, _, _, _) => 3
    case ListForCleanup(_) => 3
    case BurnOrphan(_, _) => 2
    case BurnRecorded(_) => 2
    case Unregister(_) => 2
    case Cleanup(_, _) => 2
    case PutStatus(_, _) => 1
    case DropFinalizer(_) => 1
    case Idle(_) => 0
  }

  /** What a cleanup loop has still to delete. */
  function Left(pc: PC): nat {
    if pc.Cleanup? then |pc.todo| else 0
  }

  /** Every pass ends: whatever the reply, the pass stands strictly closer to its end, and it has a
      next call until it is there. */
  lemma PassEnds(pc: PC, r: Reply)
    requires Calling(pc)
    ensures var pc' := Resume(pc, r);
            && (Rank(pc') < Rank(pc) || (Rank(pc') == Rank(pc) && Left(pc') < Left(pc)))
            && (pc'.Idle? || Calling(pc'))
  {
    hide URIsClean, Matches, Holds, Converged, Wanted, RegisteredName, SecretName;
  }

  lemma DispatchCalls(oc: OIDCClient)
    ensures Dispatch(oc).Idle? || Calling(Dispatch(oc))
  {
    hide URIsClean;
  }

  // ---------------------------------------------------------------- what helps and what hinders

  /** Nothing keeps the object from becoming Ready: it is not being deleted, its spec passes the
      guard, its policy lets a drift be repaired, and its Secret's name is absent or its own. */
  ghost predicate Healthy(w: World, a: Ident) {
    && Live(w, a) && ValidIdent(a) && w.crs[a].id == a && !w.crs[a].deleting
    && Admitted(w.crs[a].spec) && URIsClean(w.crs[a].spec.redirectURIs)
    && w.crs[a].spec.updatePolicy != Block
    && (w.crs[a].spec.updatePolicy == InPlace ==> EditAccepts(w.crs[a].spec.redirectURIs))
    && (SecretKeyOf(w.crs[a]) in w.secrets ==> w.secrets[SecretKeyOf(w.crs[a])].owner == Some(a.uid))
    && "" !in w.clients
  }

  /** The registrations in the way: the live ones with the fingerprint, and the one recorded. */
  function Claims(clients: map<string, Registration>, a: Ident, id: string): set<string> {
    Mine(clients, a) + (if id == "" then {} else {id})
  }

  function Measure(w: World, a: Ident): nat
    requires a in w.crs
  {
    |Claims(w.clients, a, w.crs[a].status.clientID)|
  }

  /** The points of a pass that gets on: it comes to markReady, or it asks for a requeue soon having
      removed one of at most n claims. It never backs off. */
  ghost predicate Progress(w: World, a: Ident, pc: PC, n: nat) {
    match pc
    case Idle(o) => o == Resync || (o == Soon && a in w.crs && Measure(w, a) < n)
    case AddFinalizer(oc) => |Claims(w.clients, a, oc.status.clientID)| <= n
    case Discover(oc) => |Claims(w.clients, a, oc.status.clientID)| <= n
    case VetTarget(oc, _) => |Claims(w.clients, a, oc.status.clientID)| <= n
    case ReadOld(oc, _) => |Claims(w.clients, a, oc.status.clientID)| <= n
    case DropOld(oc, _, _) => |Claims(w.clients, a, oc.status.clientID)| <= n
    case VetSecret(oc, _) => oc.status.clientID == "" && |Claims(w.clients, a, "")| <= n
    case ListForAdoption(oc, _, _) => oc.status.clientID == "" && |Claims(w.clients, a, "")| <= n
    case BurnOrphan(oc, target) =>
      oc.status.clientID == "" && target in Mine(w.clients, a) && |Claims(w.clients, a, "")| <= n
    case Register(_, _) => true
    case UpsertRead(_, _, _) => true
    case UpsertWrite(_, _, _, _) => true
    case ReadRemote(oc, _) => |Claims(w.clients, a, oc.status.clientID)| <= n
    case CheckSecret(oc, _, _) => |Claims(w.clients, a, oc.status.clientID)| <= n
    case BurnRecorded(oc) => oc.status.clientID != "" && |Claims(w.clients, a, oc.status.clientID)| <= n
    case EditRemote(oc, _) => EditAccepts(oc.spec.redirectURIs)
    case VerifyEdit(oc, _) =>
      && oc.status.clientID in w.clients
      && Converged(w.clients[oc.status.clientID], Trim(RegisteredName(oc.id, oc.spec)), Normalise(oc.spec.redirectURIs))
    case PutStatus(oc, o) =>
      && Current(w, a, oc)
      && (o == Resync || (o == Soon && |Claims(w.clients, a, oc.status.clientID)| < n))
    case _ => false
  }

  // ---------------------------------------------------------------- one undisturbed call gets on

  lemma Smaller(x: string, s: set<string>, t: set<string>)
    requires s <= t && x in t && x !in s
    ensures |s| < |t|
  {
    assert t == s + (t - s);
    assert x in t - s;
  }

  lemma ProgressEarly(w: World, a: Ident, pc: PC, ch: Choice, n: nat)
    requires Healthy(w, a) && Sound(w, a, pc) && Progress(w, a, pc, n)
    requires pc.Discover? || pc.VetTarget? || pc.ReadOld? || pc.DropOld? || pc.VetSecret?
    ensures Allowed(w, CallOf(pc), ch)
    ensures var (w', r) := Serve(w, a, CallOf(pc), ch);
            w'.crs == w.crs && w'.clients == w.clients && Progress(w', a, Resume(pc, r), n)
  {
    hide Admitted, ValidIdent, SecretName, URIsClean, EditAccepts, Claims;
  }

  lemma ServeKeepsObject(w: World, a: Ident, pc: PC, ch: Choice, n: nat)
    requires Healthy(w, a) && Sound(w, a, pc) && Progress(w, a, pc, n) && Calling(pc) && Allowed(w, CallOf(pc), ch)
    ensures var w' := Serve(w, a, CallOf(pc), ch).0;
            && Live(w', a) && w'.crs[a].id == a && !w'.crs[a].deleting && w'.crs[a].spec == w.crs[a].spec
  {
    hide Admitted, ValidIdent, SecretKeyOf, URIsClean, EditAccepts, Claims, Converged, Vouched, RegisteredName, Trim,
      Join,
      Normalise, Edited, InSync, Wanted, SecretUsable, Mine, Listing;
  }

  /** Only an upsert stores a Secret. */
  lemma OnlyUpsertStores(w: World, a: Ident, pc: PC, ch: Choice)
    requires Calling(pc) && !pc.UpsertWrite? && Allowed(w, CallOf(pc), ch)
    ensures var w' := Serve(w, a, CallOf(pc), ch).0;
            forall key | key in w'.secrets :: key in w.secrets && w'.secrets[key] == w.secrets[key]
  {
    hide SecretKeyOf, RegisteredName, Trim, Join, Normalise, Edited, Listing;
  }

  lemma OwnedWant(w: World, a: Ident, pc: PC)
    requires Sound(w, a, pc) && pc.UpsertWrite?
    ensures pc.secret.owner == Some(a.uid)
  {
    hide Vouched, Normal, Applied, WithMetadata, SecretKeyOf;
  }

  lemma UpsertStores(w: World, a: Ident, pc: PC, ch: Choice)
    requires pc.UpsertWrite? && Allowed(w, CallOf(pc), ch)
    ensures var w' := Serve(w, a, CallOf(pc), ch).0;
            forall key | key in w'.secrets ::
              (key in w.secrets && w'.secrets[key] == w.secrets[key]) || w'.secrets[key].owner == pc.secret.owner
  {
    hide SecretKeyOf;
  }

  lemma ServeKeepsSecret(w: World, a: Ident, pc: PC, ch: Choice)
    requires Healthy(w, a) && Sound(w, a, pc) && Calling(pc) && Allowed(w, CallOf(pc), ch)
    ensures var (w', key) := (Serve(w, a, CallOf(pc), ch).0, SecretKeyOf(w.crs[a]));
            key in w'.secrets ==> w'.secrets[key].owner == Some(a.uid)
  {
    hide Admitted, ValidIdent, URIsClean, EditAccepts, Vouched, RegisteredName, SecretKeyOf, Applied, Trim, Join,
      Normalise, Converged;
    if pc.UpsertWrite? {
      OwnedWant(w, a, pc);
      UpsertStores(w, a, pc, ch);
      hide Serve, CallOf, Sound, Allowed;
    } else {
      hide Sound, CallOf, Serve, Allowed;
      OnlyUpsertStores(w, a, pc, ch);
    }
  }

  /** No call of an undisturbed pass makes the object less healthy. */
  lemma HealthyServe(w: World, a: Ident, pc: PC, ch: Choice, n: nat)
    requires Healthy(w, a) && Sound(w, a, pc) && Progress(w, a, pc, n) && Calling(pc) && Allowed(w, CallOf(pc), ch)
    ensures Healthy(Serve(w, a, CallOf(pc), ch).0, a)
  {
    NoBlankClient(w, a, pc, ch);
    ServeKeepsObject(w, a, pc, ch, n);
    ServeKeepsSecret(w, a, pc, ch);
    hide Serve, CallOf, Sound, Progress, Admitted, ValidIdent, URIsClean, EditAccepts, Allowed;
  }

  lemma FirstMatch(clients: map<string, Registration>, a: Ident, entries: seq<Entry>)
    requires Listing(entries, clients) && Matches(entries, a) != []
    ensures var id := Matches(entries, a)[0];
            id in Mine(clients, a) && Claims(clients, a, id) == Claims(clients, a, "")
  {
    MatchesMine(clients, entries, a);
    hide Matches, Mine, Listing;
    assert Matches(entries, a)[0] in Matches(entries, a);
  }

  /** Adoption only records a claim that is there, and the pass registers where there is none. */
  lemma ProgressListing(w: World, a: Ident, oc: OIDCClient, d: Discovery, held: Option<Secret>, entries: seq<Entry>,
      n: nat)
    requires Current(w, a, oc) && oc.id == a && oc.status.clientID == "" && |Claims(w.clients, a, "")| <= n
    requires Listing(entries, w.clients)
    ensures Progress(w, a, AfterAdoptionList(oc, d, held, entries), n)
  {
    hide Matches, Mine, Holds, SecretName, RegisteredName, Current, Listing, Claims;
    if Matches(entries, a) != [] { FirstMatch(w.clients, a, entries); }
  }

  /** Burning a claim removes it. */
  lemma BurntClaim(clients: map<string, Registration>, a: Ident, id: string, recorded: string)
    requires id in Claims(clients, a, recorded) && (recorded == "" || recorded == id)
    ensures |Claims(clients - {id}, a, "")| < |Claims(clients, a, recorded)|
  {
    hide Carries;
    Smaller(id, Claims(clients - {id}, a, ""), Claims(clients, a, recorded));
  }

  /** Being current is a matter of object and resourceVersion alone. */
  lemma StillCurrent(w: World, w': World, a: Ident, oc: OIDCClient, oc': OIDCClient)
    requires Current(w, a, oc) && w'.crs == w.crs && w'.gone == w.gone
    requires oc'.id == oc.id && oc'.spec == oc.spec && oc'.rv == oc.rv
    ensures Current(w', a, oc')
  {
  }

  lemma ProgressOrphan(w: World, a: Ident, oc: OIDCClient, target: string, ch: Choice, n: nat)
    requires Current(w, a, oc) && Progress(w, a, BurnOrphan(oc, target), n)
    ensures Allowed(w, CallOf(BurnOrphan(oc, target)), ch)
    ensures var (w', r) := Serve(w, a, CallOf(BurnOrphan(oc, target)), ch);
              Progress(w', a, Resume(BurnOrphan(oc, target), r), n)
  {
    assert CallOf(BurnOrphan(oc, target)) == DeleteClient(target);
    ServeDelete(w, a, target, ch);
    BurntClaim(w.clients, a, target, "");
    StillCurrent(w, w.(clients := w.clients - {target}), a, oc, oc);
    hide Current, Claims, Mine, Serve, Allowed, CallOf;
  }

  lemma RecordedClaim(clients: map<string, Registration>, a: Ident, id: string)
    requires id != ""
    ensures id in Claims(clients, a, id)
  {
    hide Mine;
  }

  lemma ProgressBurn(w: World, a: Ident, oc: OIDCClient, ch: Choice, n: nat)
    requires Current(w, a, oc) && Progress(w, a, BurnRecorded(oc), n)
    ensures Allowed(w, CallOf(BurnRecorded(oc)), ch)
    ensures var (w', r) := Serve(w, a, CallOf(BurnRecorded(oc)), ch); Progress(w', a, Resume(BurnRecorded(oc), r), n)
  {
    hide RegisteredName, SecretKeyOf, Trim, Join, Normalise, Carries, Current, Claims, Mine, Serve, Allowed;
    var id := oc.status.clientID;
    assert CallOf(BurnRecorded(oc)) == DeleteClient(id);
    ServeDelete(w, a, id, ch);
    assert id in Claims(w.clients, a, id) by { RecordedClaim(w.clients, a, id); }
    BurntClaim(w.clients, a, id, id);
    StillCurrent(w, w.(clients := w.clients - {id}), a, oc, oc.WithID(""));
    hide CallOf;
  }

  lemma ServeGet(w: World, a: Ident, id: string, ch: Choice)
    ensures Allowed(w, GetClient(id), ch)
    ensures Serve(w, a, GetClient(id), ch) == (w, if id in w.clients then Client(w.clients[id].Blank()) else Missing)
  {
  }

  /** Forgetting a client that is not there removes its claim. */
  lemma LostClaim(clients: map<string, Registration>, a: Ident, id: string)
    requires id !in clients && id != ""
    ensures |Claims(clients, a, "")| < |Claims(clients, a, id)|
  {
    hide Carries;
    Smaller(id, Claims(clients, a, ""), Claims(clients, a, id));
  }

  lemma ProgressRemote(w: World, a: Ident, oc: OIDCClient, d: Discovery, ch: Choice, n: nat)
    requires Current(w, a, oc) && oc.status.clientID != "" && Progress(w, a, ReadRemote(oc, d), n)
    ensures Allowed(w, CallOf(ReadRemote(oc, d)), ch)
    ensures var (w', r) := Serve(w, a, CallOf(ReadRemote(oc, d)), ch); Progress(w', a, Resume(ReadRemote(oc, d), r), n)
  {
    hide RegisteredName, SecretKeyOf, Trim, Join, Normalise, Claims, Current, Serve, Allowed;
    var id := oc.status.clientID;
    assert CallOf(ReadRemote(oc, d)) == GetClient(id);
    ServeGet(w, a, id, ch);
    if id !in w.clients { LostClaim(w.clients, a, id); }
    StillCurrent(w, w, a, oc, oc.WithID(""));
    hide CallOf;
  }

  /** Credentials that do not fit and drift are both repaired. */
  lemma ProgressCheck(w: World, a: Ident, pc: PC, ch: Choice, n: nat)
    requires Healthy(w, a) && Sound(w, a, pc) && Progress(w, a, pc, n) && pc.CheckSecret?
    ensures Allowed(w, CallOf(pc), ch)
    ensures var (w', r) := Serve(w, a, CallOf(pc), ch); Progress(w', a, Resume(pc, r), n)
  {
    hide Admitted, ValidIdent, URIsClean, EditAccepts, SecretName, RegisteredName, Claims, Holds, Converged;
  }

  lemma ProgressRegister(w: World, a: Ident, oc: OIDCClient, d: Discovery, ch: Choice, n: nat)
    requires Healthy(w, a) && Sound(w, a, Register(oc, d)) && Allowed(w, CallOf(Register(oc, d)), ch)
    ensures var (w', r) := Serve(w, a, CallOf(Register(oc, d)), ch); Progress(w', a, Resume(Register(oc, d), r), n)
  {
    hide ValidIdent, URIsClean, SecretName, RegisteredName, AdmittedURI;
  }

  /** An edit with accepted URIs converges: this is where the form's round trip is used. */
  lemma EditConverges(w: World, a: Ident, oc: OIDCClient)
    requires Current(w, a, oc) && oc.status.clientID in w.clients && EditAccepts(oc.spec.redirectURIs)
    ensures var (id, name, uris) := (oc.status.clientID, Trim(RegisteredName(oc.id, oc.spec)),
              Normalise(oc.spec.redirectURIs));
            var clients := Edited(w.clients, id, name, Join(uris));
            id in clients && Converged(clients[id], name, uris)
  {
    EditSent(w, a, oc);
    AllPassExact(oc.spec.redirectURIs);
    hide RegisteredName, Edited, Trim, Join, Normalise, EditAccepts, AllPass, Current;
  }

  lemma ServeEdit(w: World, a: Ident, id: string, name: string, field: string, ch: Choice)
    requires id in w.clients
    ensures Allowed(w, EditClient(id, name, field), ch)
    ensures Serve(w, a, EditClient(id, name, field), ch) == (w.(clients := Edited(w.clients, id, name, field)), Done)
  {
    hide Edited;
  }

  lemma ProgressEdit(w: World, a: Ident, oc: OIDCClient, d: Discovery, ch: Choice, n: nat)
    requires Current(w, a, oc) && oc.status.clientID in w.clients && EditAccepts(oc.spec.redirectURIs)
    ensures Allowed(w, CallOf(EditRemote(oc, d)), ch)
    ensures var (w', r) := Serve(w, a, CallOf(EditRemote(oc, d)), ch); Progress(w', a, Resume(EditRemote(oc, d), r), n)
  {
    hide Current, EditAccepts, RegisteredName, Edited, Trim, Join, Normalise, Converged, Serve, Allowed, SecretKeyOf;
    var name, field := Trim(RegisteredName(oc.id, oc.spec)), Join(Normalise(oc.spec.redirectURIs));
    EditConverges(w, a, oc);
    assert CallOf(EditRemote(oc, d)) == EditClient(oc.status.clientID, name, field);
    ServeEdit(w, a, oc.status.clientID, name, field, ch);
    hide CallOf;
  }

  lemma ProgressVerify(w: World, a: Ident, oc: OIDCClient, d: Discovery, ch: Choice, n: nat)
    requires Healthy(w, a) && Sound(w, a, VerifyEdit(oc, d)) && Progress(w, a, VerifyEdit(oc, d), n)
    ensures Allowed(w, CallOf(VerifyEdit(oc, d)), ch)
    ensures var (w', r) := Serve(w, a, CallOf(VerifyEdit(oc, d)), ch); Progress(w', a, Resume(VerifyEdit(oc, d), r), n)
  {
    hide ValidIdent, URIsClean, EditAccepts, SecretName, RegisteredName, Holds, Trim, Normalise;
  }

  /** An upsert of an owned or absent Secret goes through. */
  lemma ServeCached(w: World, a: Ident, key: SecretKey, ch: Choice)
    requires ch.view.Fresh?
    ensures Allowed(w, GetCachedSecret(key), ch) && Serve(w, a, GetCachedSecret(key), ch) == (w, ReadSecret(w, key))
  {
  }

  lemma ProgressRead(w: World, a: Ident, oc: OIDCClient, d: Discovery, cred: Option<Credentials>, ch: Choice, n: nat)
    requires Current(w, a, oc) && ch.view.Fresh?
    requires SecretKeyOf(oc) in w.secrets ==> w.secrets[SecretKeyOf(oc)].owner == Some(a.uid)
    ensures Allowed(w, CallOf(UpsertRead(oc, d, cred)), ch)
    ensures var (w', r) := Serve(w, a, CallOf(UpsertRead(oc, d, cred)), ch);
            Progress(w', a, Resume(UpsertRead(oc, d, cred), r), n)
  {
    hide Serve, Allowed, SecretKeyOf, SecretName, Wanted, RegisteredName, Trim, Join, Normalise;
    StillCurrent(w, w, a, oc, MarkReady(if cred.Some? then oc.WithID(cred.value.id) else oc));
    assert oc.id == a;
    assert CallOf(UpsertRead(oc, d, cred)) == GetCachedSecret(SecretKeyOf(oc));
    ServeCached(w, a, SecretKeyOf(oc), ch);
    hide CallOf, Current;
  }

  lemma ProgressWrite(w: World, a: Ident, oc: OIDCClient, cred: Option<Credentials>, s: Secret, create: bool,
      ch: Choice, n: nat)
    requires Current(w, a, oc)
    requires create <==> SecretKeyOf(oc) !in w.secrets
    requires s == Wanted(Base(w, oc), oc, w.disc, cred)
    ensures Allowed(w, CallOf(UpsertWrite(oc, cred, s, create)), ch)
    ensures var (w', r) := Serve(w, a, CallOf(UpsertWrite(oc, cred, s, create)), ch);
            Progress(w', a, Resume(UpsertWrite(oc, cred, s, create), r), n)
  {
    hide Serve, Allowed, SecretKeyOf, SecretName, Wanted, RegisteredName, Trim, Join, Normalise;
    var pc := UpsertWrite(oc, cred, s, create);
    WantedKeepsVersion(Base(w, oc), oc, w.disc, cred);
    assert CallOf(pc) == if create then CreateSecret(SecretKeyOf(oc), s) else UpdateSecret(SecretKeyOf(oc), s);
    ServeWrite(w, a, SecretKeyOf(oc), s, create, ch);
    hide CallOf, Current;
    StillCurrent(w, Serve(w, a, CallOf(pc), ch).0, a, oc,
      MarkReady(if cred.Some? then oc.WithID(cred.value.id) else oc));
  }

  lemma ProgressStatus(w: World, a: Ident, oc: OIDCClient, o: Outcome, ch: Choice, n: nat)
    requires Healthy(w, a) && Progress(w, a, PutStatus(oc, o), n)
    ensures Allowed(w, CallOf(PutStatus(oc, o)), ch)
    ensures var (w', r) := Serve(w, a, CallOf(PutStatus(oc, o)), ch); Progress(w', a, Resume(PutStatus(oc, o), r), n)
  {
    hide ValidIdent, URIsClean, EditAccepts, SecretName, Admitted, Claims;
  }

  lemma ProgressFinalizer(w: World, a: Ident, oc: OIDCClient, ch: Choice, n: nat)
    requires Healthy(w, a) && Sound(w, a, AddFinalizer(oc)) && Progress(w, a, AddFinalizer(oc), n)
    ensures Allowed(w, CallOf(AddFinalizer(oc)), ch)
    ensures var (w', r) := Serve(w, a, CallOf(AddFinalizer(oc)), ch); Progress(w', a, Resume(AddFinalizer(oc), r), n)
  {
    hide ValidIdent, EditAccepts, SecretName, Admitted, Claims;
  }

  // What Sound and Healthy say at the points that need it.

  lemma SoundCurrent(w: World, a: Ident, pc: PC)
    requires Sound(w, a, pc)
    requires pc.ListForAdoption? || pc.BurnOrphan? || pc.BurnRecorded? || pc.UpsertRead? || pc.UpsertWrite?
              || pc.EditRemote? || pc.ReadRemote?
    ensures Current(w, a, pc.oc)
    ensures pc.ReadRemote? ==> pc.oc.status.clientID != ""
    ensures pc.EditRemote? ==> pc.oc.status.clientID in w.clients
    ensures pc.UpsertWrite? ==> (pc.create <==> SecretKeyOf(pc.oc) !in w.secrets)
    ensures pc.UpsertWrite? ==> pc.secret == Wanted(Base(w, pc.oc), pc.oc, w.disc, pc.cred)
  {
    hide Normal, Vouched, Holds, SecretName, Wanted;
  }

  lemma OwnKey(w: World, a: Ident, oc: OIDCClient)
    requires Healthy(w, a) && Current(w, a, oc)
    ensures SecretKeyOf(oc) in w.secrets ==> w.secrets[SecretKeyOf(oc)].owner == Some(a.uid)
  {
    hide Admitted, ValidIdent, URIsClean, EditAccepts, SecretName;
  }

  lemma IdentOf(w: World, a: Ident, oc: OIDCClient)
    requires Current(w, a, oc)
    ensures oc.id == a
  {
    hide Normal;
  }

  lemma ListingPoint(w: World, a: Ident, oc: OIDCClient, d: Discovery, held: Option<Secret>, ch: Choice, n: nat)
    requires Current(w, a, oc) && Progress(w, a, ListForAdoption(oc, d, held), n)
    requires Allowed(w, CallOf(ListForAdoption(oc, d, held)), ch)
    ensures var (w', r) := Serve(w, a, CallOf(ListForAdoption(oc, d, held)), ch);
            Progress(w', a, Resume(ListForAdoption(oc, d, held), r), n)
  {
    IdentOf(w, a, oc);
    hide Current, Listing, Claims, AfterAdoptionList, RegisteredName, Trim, Join, Normalise, SecretKeyOf;
    ProgressListing(w, a, oc, d, held, ch.listing, n);
  }

  /** An undisturbed call of a pass over a healthy object gets on. */
  lemma ProgressStep(w: World, a: Ident, pc: PC, ch: Choice, n: nat)
    requires Healthy(w, a) && Sound(w, a, pc) && Progress(w, a, pc, n)
    requires Calling(pc) && Allowed(w, CallOf(pc), ch) && ch.view.Fresh?
    ensures var (w', r) := Serve(w, a, CallOf(pc), ch); Progress(w', a, Resume(pc, r), n)
  {
    if pc.ListForAdoption? || pc.BurnOrphan? || pc.BurnRecorded? || pc.UpsertRead? || pc.UpsertWrite?
      || pc.EditRemote? || pc.ReadRemote? {
      SoundCurrent(w, a, pc);
      OwnKey(w, a, pc.oc);
    }
    if pc.EditRemote? || pc.Unregister? || pc.ListForCleanup? || pc.Cleanup? || pc.DropFinalizer? {
      ProgressHere(w, a, pc, n);
    }
    hide Sound, Progress, Healthy, Serve, CallOf, Resume, Allowed, SecretKeyOf, Wanted, Current;
    match pc
    case AddFinalizer(oc) => ProgressFinalizer(w, a, oc, ch, n);
    case ListForAdoption(oc, d, held) => ListingPoint(w, a, oc, d, held, ch, n);
    case BurnOrphan(oc, target) => ProgressOrphan(w, a, oc, target, ch, n);
    case BurnRecorded(oc) => ProgressBurn(w, a, oc, ch, n);
    case ReadRemote(oc, d) => ProgressRemote(w, a, oc, d, ch, n);
    case Register(oc, d) => ProgressRegister(w, a, oc, d, ch, n);
    case UpsertRead(oc, d, cred) => ProgressRead(w, a, oc, d, cred, ch, n);
    case UpsertWrite(oc, cred, s, create) => ProgressWrite(w, a, oc, cred, s, create, ch, n);
    case CheckSecret(_, _, _) => ProgressCheck(w, a, pc, ch, n);
    case EditRemote(oc, d) => ProgressEdit(w, a, oc, d, ch, n);
    case VerifyEdit(oc, d) => ProgressVerify(w, a, oc, d, ch, n);
    case PutStatus(oc, o) => ProgressStatus(w, a, oc, o, ch, n);
    case Discover(_) => ProgressEarly(w, a, pc, ch, n);
    case VetTarget(_, _) => ProgressEarly(w, a, pc, ch, n);
    case ReadOld(_, _) => ProgressEarly(w, a, pc, ch, n);
    case DropOld(_, _, _) => ProgressEarly(w, a, pc, ch, n);
    case VetSecret(_, _) => ProgressEarly(w, a, pc, ch, n);
    case _ =>
  }

  lemma ProgressHere(w: World, a: Ident, pc: PC, n: nat)
    requires Progress(w, a, pc, n)
    ensures pc.EditRemote? ==> EditAccepts(pc.oc.spec.redirectURIs)
    ensures !pc.Unregister? && !pc.ListForCleanup? && !pc.Cleanup? && !pc.DropFinalizer?
  {
    hide EditAccepts;
  }

  lemma ProgressBegin(w: World, a: Ident)
    requires Healthy(w, a)
    ensures Progress(w, a, Dispatch(w.crs[a]), Measure(w, a))
  {
    hide Admitted, ValidIdent, URIsClean, EditAccepts, SecretKeyOf;
  }

  // ---------------------------------------------------------------- quiet passes get on

  /** Where a quiet pass over a healthy object stands. */
  ghost predicate OnCourse(s: State, a: Ident, n: nat) {
    && a in s.w.crs && a in s.pcs
    && Healthy(s.w, a) && Sound(s.w, a, s.pcs[a]) && Progress(s.w, a, s.pcs[a], n)
    && (s.pcs[a].Idle? || Calling(s.pcs[a]))
  }

  lemma OnCourseOwn(s: State, act: Action, a: Ident, n: nat)
    requires OnCourse(s, a, n) && Enabled(s, act) && Smooth(act, a)
    ensures OnCourse(Apply(s, act), a, n)
  {
    var pc := s.pcs[a];
    HealthyServe(s.w, a, pc, act.choice, n);
    NoBlank(s.w, a);
    hide Sound, Progress, Healthy, Serve, CallOf, Resume, Allowed;
    SoundStep(s.w, a, pc, act.choice);
    ProgressStep(s.w, a, pc, act.choice, n);
    PassEnds(pc, Serve(s.w, a, CallOf(pc), act.choice).1);
    Present(Apply(s, act).w, a);
  }

  lemma NoBlank(w: World, a: Ident)
    requires Healthy(w, a)
    ensures "" !in w.clients
  {
  }

  lemma Present(w: World, a: Ident)
    requires Healthy(w, a)
    ensures a in w.crs && Live(w, a)
  {
  }

  lemma SparedHealthy(w: World, w': World, a: Ident, pc: PC)
    requires Spared(w, w', a, pc) && Healthy(w, a)
    ensures Healthy(w', a) && Measure(w', a) == Measure(w, a)
  {
    SparedNormal(w, w', a, pc);
    hide Spared, Mine, Admitted, ValidIdent, URIsClean, EditAccepts, SecretKeyOf;
    assert SameClient(w, w', "");
  }

  lemma SparedClaims(w: World, w': World, a: Ident, pc: PC)
    requires Spared(w, w', a, pc) && Live(w, a)
    ensures Live(w', a) && w'.crs[a] == w.crs[a] && (Normal(w, a) ==> Normal(w', a))
    ensures Mine(w'.clients, a) == Mine(w.clients, a)
    ensures forall id :: Claims(w'.clients, a, id) == Claims(w.clients, a, id)
    ensures pc.VerifyEdit? && pc.oc.status.clientID in w.clients ==>
              pc.oc.status.clientID in w'.clients
              && w'.clients[pc.oc.status.clientID] == w.clients[pc.oc.status.clientID]
  {
    hide Spared, Mine, Normal, SameSecret, SecretKeyOf;
    SparedNormal(w, w', a, pc);
  }

  lemma SparedEnds(w: World, w': World, a: Ident, pc: PC, n: nat)
    requires Spared(w, w', a, pc) && Live(w, a) && Progress(w, a, pc, n)
    requires pc.Idle? || pc.VerifyEdit? || pc.PutStatus?
    ensures Progress(w', a, pc, n)
  {
    SparedClaims(w, w', a, pc);
    if pc.Idle? {
      assert Measure(w', a) == Measure(w, a);
      hide Spared, Mine, Normal, Claims, Current, Live, Measure;
    } else if pc.PutStatus? {
      assert Current(w', a, pc.oc);
      hide Spared, Mine, Normal, Claims, Current, Live;
    } else {
      hide Spared, Mine, Normal, Claims, Current, Live, RegisteredName, Trim, Normalise, Converged;
    }
  }

  lemma SparedProgress(w: World, w': World, a: Ident, pc: PC, n: nat)
    requires Spared(w, w', a, pc) && Live(w, a) && Progress(w, a, pc, n)
    ensures Progress(w', a, pc, n)
  {
    if pc.Idle? || pc.VerifyEdit? || pc.PutStatus? {
      hide Progress, Spared, Live;
      SparedEnds(w, w', a, pc, n);
    } else {
      SparedClaims(w, w', a, pc);
      hide Spared, Mine, Current, EditAccepts, RegisteredName, Trim, Normalise, Converged, Claims, Measure;
    }
  }

  lemma OnCourseOther(s: State, act: Action, a: Ident, n: nat)
    requires OnCourse(s, a, n) && Enabled(s, act) && !ActsFor(act, a) && Spared(s.w, Apply(s, act).w, a, s.pcs[a])
    ensures OnCourse(Apply(s, act), a, n)
  {
    var w' := Apply(s, act).w;
    Present(s.w, a);
    hide Apply, Enabled, Sound, Spared, Progress, Healthy, Calling;
    OthersElsewhere(s, act, a);
    SparedHealthy(s.w, w', a, s.pcs[a]);
    SparedSound(s.w, w', a, s.pcs[a]);
    SparedProgress(s.w, w', a, s.pcs[a], n);
    Present(w', a);
  }

  lemma {:induction false} OnCourseRest(s: State, acts: seq<Action>, a: Ident, n: nat)
    requires OnCourse(s, a, n)
    requires Quiet(s, acts, a) && Legal(s, acts) && forall i | 0 <= i < |acts| :: acts[i] != Begin(a)
    ensures OnCourse(Exec(s, acts), a, n)
    decreases |acts|
  {
    if acts != [] {
      hide OnCourse, Apply, Enabled, Smooth, Spared;
      if Smooth(acts[0], a) { OnCourseOwn(s, acts[0], a, n); } else { OnCourseOther(s, acts[0], a, n); }
      OnCourseRest(Apply(s, acts[0]), acts[1..], a, n);
    }
  }

  lemma OnCourseBegin(s: State, a: Ident)
    requires Healthy(s.w, a) && Enabled(s, Begin(a))
    ensures OnCourse(Apply(s, Begin(a)), a, Measure(s.w, a))
  {
    ProgressBegin(s.w, a);
    SoundBegin(s.w, a);
    DispatchCalls(s.w.crs[a]);
    hide Sound, Progress, Dispatch, Healthy, Measure;
  }

  /** One quiet pass over a healthy object settles it, or asks for a requeue soon having removed a
      claim; the object stays healthy. */
  lemma OnePass(s: State, acts: seq<Action>, a: Ident)
    requires Healthy(s.w, a) && QuietPass(s, acts, a)
    ensures var s' := Exec(s, acts);
            && Healthy(s'.w, a)
            && ((Result(s, acts, a) == Resync && Settled(s'.w, a))
                || (Result(s, acts, a) == Soon && Measure(s'.w, a) < Measure(s.w, a)))
  {
    OnCourseBegin(s, a);
    var s1 := Apply(s, acts[0]);
    forall i | 0 <= i < |acts[1..]| ensures acts[1..][i] != Begin(a) {
      assert acts[1..][i] == acts[i + 1];
    }
    hide Sound, Dispatch, QuietAct, Progress, Healthy, Measure, Apply;
    OnCourseRest(s1, acts[1..], a, Measure(s.w, a));
    IdleProgress(Exec(s, acts).w, a, Exec(s, acts).pcs[a].outcome, Measure(s.w, a));
  }

  lemma IdleProgress(w: World, a: Ident, o: Outcome, n: nat)
    requires Healthy(w, a) && Sound(w, a, Idle(o)) && Progress(w, a, Idle(o), n)
    ensures (o == Resync && Settled(w, a)) || (o == Soon && Measure(w, a) < n)
  {
    hide Settled, Measure;
  }

  // ---------------------------------------------------------------- they exist

  lemma ListingGrows(clients: map<string, Registration>, id: string, entries: seq<Entry>)
    requires id in clients && Listing(entries, clients - {id})
    ensures Listing([Entry(id, clients[id].Blank())] + entries, clients)
  {
    var all := [Entry(id, clients[id].Blank())] + entries;
    assert all[0].id == id;
    forall k | k in clients ensures exists i :: 0 <= i < |all| && all[i].id == k {
      if k != id {
        assert k in clients - {id};
        var i :| 0 <= i < |entries| && entries[i].id == k;
        assert all[i + 1].id == k;
      }
    }
  }

  /** The registry can be listed, and there is an id never issued. */
  lemma {:induction false} ListingExists(clients: map<string, Registration>) returns (entries: seq<Entry>)
    ensures Listing(entries, clients)
    decreases clients.Keys
  {
    entries := [];
    if clients.Keys != {} {
      var id :| id in clients;
      assert (clients - {id}).Keys == clients.Keys - {id};
      var rest := ListingExists(clients - {id});
      ListingGrows(clients, id, rest);
      entries := [Entry(id, clients[id].Blank())] + rest;
    }
  }

  lemma {:induction false} FreshText(keys: set<string>) returns (k: string)
    ensures k != "" && forall x: string | x in keys :: |x| < |k|
  {
    if keys == {} {
      k := "x";
    } else {
      var x :| x in keys;
      k := FreshText(keys - {x});
      if |x| >= |k| { k := x + "x"; }
      forall y: string | y in keys ensures |y| < |k| {
        assert y == x || y in keys - {x};
      }
    }
  }

  lemma ChoiceExists(w: World, call: Call) returns (ch: Choice)
    ensures Allowed(w, call, ch) && ch.view.Fresh?
  {
    var entries := ListingExists(w.clients);
    var id := FreshText(w.issued.Keys);
    ch := Choice(entries, Credentials(id, "x"), Fresh);
  }

  lemma RestExists(s: State, a: Ident) returns (acts: seq<Action>)
    requires a in s.pcs && (s.pcs[a].Idle? || Calling(s.pcs[a]))
    ensures Legal(s, acts) && a in Exec(s, acts).pcs && Exec(s, acts).pcs[a].Idle?
    ensures forall i | 0 <= i < |acts| :: Smooth(acts[i], a)
    decreases if a in s.pcs then Rank(s.pcs[a]) else 0, if a in s.pcs then Left(s.pcs[a]) else 0
  {
    if s.pcs[a].Idle? {
      acts := [];
    } else {
      var pc := s.pcs[a];
      var ch := ChoiceExists(s.w, CallOf(pc));
      PassEnds(pc, Serve(s.w, a, CallOf(pc), ch).1);
      var act := Step(a, NoFault, ch);
      hide Resume, Serve, CallOf, Allowed, Rank, Left;
      var rest := RestExists(Apply(s, act), a);
      acts := [act] + rest;
      assert acts[1..] == rest;
    }
  }

  /** From every state in which a's pass may begin there is an undisturbed pass. */
  lemma PassExists(s: State, a: Ident) returns (acts: seq<Action>)
    requires Enabled(s, Begin(a))
    ensures Undisturbed(s, acts, a)
  {
    DispatchCalls(s.w.crs[a]);
    var rest := RestExists(Apply(s, Begin(a)), a);
    acts := [Begin(a)] + rest;
    assert acts[1..] == rest;
    hide Dispatch, Apply, Smooth;
  }

  // ---------------------------------------------------------------- bounded convergence

  /** At most m passes have still to begin until the object is settled for good. */
  ghost predicate Due(s: State, a: Ident, m: nat) {
    && a in s.pcs
    && (|| Resting(s.w, a, s.pcs[a])
        || (s.pcs[a].Idle? && Healthy(s.w, a) && Measure(s.w, a) < m)
        || (!s.pcs[a].Idle? && OnCourse(s, a, m)))
  }

  lemma MoreRoom(w: World, a: Ident, pc: PC, n: nat, m: nat)
    requires Progress(w, a, pc, n) && n <= m
    ensures Progress(w, a, pc, m)
  {
    hide Claims, Current, EditAccepts, Mine, RegisteredName, Trim, Normalise;
  }

  lemma DueBegin(s: State, a: Ident, m: nat)
    requires Due(s, a, m) && Enabled(s, Begin(a))
    ensures Due(Apply(s, Begin(a)), a, if m > 0 then m - 1 else 0)
  {
    var s' := Apply(s, Begin(a));
    if Resting(s.w, a, s.pcs[a]) {
      RestingBegin(s.w, a);
      hide Resting, OnCourse, Dispatch, Healthy;
    } else {
      OnCourseBegin(s, a);
      var n := Measure(s.w, a);
      MoreRoom(s'.w, a, s'.pcs[a], n, m - 1);
      hide Resting, Healthy, Sound, Progress, Dispatch, Measure;
      OnCourseIdle(s', a, m - 1);
    }
  }

  /** Where a pass on course has ended, the object is settled or a claim is gone. */
  lemma OnCourseIdle(s: State, a: Ident, m: nat)
    requires OnCourse(s, a, m)
    ensures Due(s, a, m)
  {
    if s.pcs[a].Idle? {
      IdleProgress(s.w, a, s.pcs[a].outcome, m);
      hide Settled, Healthy, Sound, Progress, Measure;
    }
  }

  lemma DueOwn(s: State, act: Action, a: Ident, m: nat)
    requires Due(s, a, m) && Enabled(s, act) && Smooth(act, a)
    ensures Due(Apply(s, act), a, m)
  {
    assert !s.pcs[a].Idle?;
    if Resting(s.w, a, s.pcs[a]) {
      hide Resting, Apply, Enabled, OnCourse, Healthy;
      RestingOwn(s, act, a);
    } else {
      hide Resting, Apply, Enabled, OnCourse, Healthy;
      OnCourseOwn(s, act, a, m);
      OnCourseIdle(Apply(s, act), a, m);
    }
  }

  lemma DueOther(s: State, act: Action, a: Ident, m: nat)
    requires Due(s, a, m) && Enabled(s, act) && !ActsFor(act, a) && Spared(s.w, Apply(s, act).w, a, s.pcs[a])
    ensures Due(Apply(s, act), a, m)
  {
    hide Apply, Enabled, Spared, Resting, OnCourse, Healthy, Measure;
    OthersElsewhere(s, act, a);
    var w' := Apply(s, act).w;
    if Resting(s.w, a, s.pcs[a]) {
      SparedResting(s.w, w', a, s.pcs[a]);
    } else if s.pcs[a].Idle? {
      SparedHealthy(s.w, w', a, s.pcs[a]);
    } else {
      OnCourseOther(s, act, a, m);
    }
  }

  function Fewer(m: nat, act: Action, a: Ident): nat {
    if act == Begin(a) && m > 0 then m - 1 else m
  }

  lemma DueAct(s: State, act: Action, a: Ident, m: nat)
    requires Due(s, a, m) && Enabled(s, act) && QuietAct(s, act, a)
    ensures Due(Apply(s, act), a, Fewer(m, act, a))
  {
    hide Due, Apply, Enabled, Smooth, Spared;
    if act == Begin(a) {
      DueBegin(s, a, m);
    } else if Smooth(act, a) {
      DueOwn(s, act, a, m);
    } else {
      DueOther(s, act, a, m);
    }
  }

  lemma {:induction false} DueRun(s: State, acts: seq<Action>, a: Ident, m: nat)
    requires Due(s, a, m) && Quiet(s, acts, a) && Legal(s, acts)
    ensures Due(Exec(s, acts), a, if m > Begins(acts, a) then m - Begins(acts, a) else 0)
    decreases |acts|
  {
    if acts != [] {
      hide Due, Apply, Enabled, QuietAct;
      DueAct(s, acts[0], a, m);
      DueRun(Apply(s, acts[0]), acts[1..], a, Fewer(m, acts[0], a));
    }
  }

  /** Bounded convergence: from any state, reachable or not, in every run quiet around a healthy
      object, one pass more than there are claims makes it settled and keeps it so, whatever others
      do elsewhere meanwhile and whatever order the listings come in. */
  lemma BoundedConvergence(s: State, acts: seq<Action>, a: Ident)
    requires Healthy(s.w, a) && a in s.pcs && s.pcs[a].Idle?
    requires Quiet(s, acts, a) && Legal(s, acts) && Begins(acts, a) > Measure(s.w, a)
    requires a in Exec(s, acts).pcs && Exec(s, acts).pcs[a].Idle?
    ensures Settled(Exec(s, acts).w, a)
  {
    Present(s.w, a);
    hide Healthy, Measure, Quiet, Legal, Exec, Resting, OnCourse;
    DueRun(s, acts, a, Measure(s.w, a) + 1);
    RestingSettled(Exec(s, acts).w, a, Exec(s, acts).pcs[a]);
  }

  lemma RestingSettled(w: World, a: Ident, pc: PC)
    ensures Resting(w, a, pc) ==> Settled(w, a)
  {
  }

  /** Quiet runs with any number of passes over a healthy object are possible. */
  lemma {:induction false} PassesExist(s: State, a: Ident, k: nat) returns (acts: seq<Action>)
    requires Healthy(s.w, a) && a in s.pcs && s.pcs[a].Idle?
    ensures Quiet(s, acts, a) && Legal(s, acts) && Begins(acts, a) == k
    ensures a in Exec(s, acts).pcs && Exec(s, acts).pcs[a].Idle?
    decreases k
  {
    if k == 0 { return []; }
    Present(s.w, a);
    var first := PassExists(s, a);
    UndisturbedQuiet(s, first, a);
    OnePass(s, first, a);
    PassLeaves(s, first, a);
    hide *;
    var rest := PassesExist(Exec(s, first), a, k - 1);
    acts := first + rest;
    QuietConcat(s, first, rest, a);
    ExecConcat(s, first, rest);
    BeginsConcat(first, rest, a);
  }

  lemma PassLeaves(s: State, acts: seq<Action>, a: Ident)
    requires QuietPass(s, acts, a)
    ensures Quiet(s, acts, a) && Legal(s, acts) && a in Exec(s, acts).pcs && Exec(s, acts).pcs[a].Idle?
  {
    hide Legal, Exec, Quiet;
  }

  /** In a state that a run can reach there is at most one claim. */
  lemma ReachableMeasure(s: State, a: Ident)
    requires Safety.Inv(s) && a in s.w.crs
    ensures Measure(s.w, a) <= 1
  {
    assert Safety.ObjectOk(s.w, a);
    Safety.OneAtMost(s.w, a);
    hide Mine, Safety.ObjectOk, Safety.PassOk, Safety.WorldOk;
    var id := s.w.crs[a].status.clientID;
    if id != "" {
      assert Claims(s.w.clients, a, id) == {id};
    } else {
      assert Claims(s.w.clients, a, id) == Mine(s.w.clients, a);
    }
  }

  /** Admission implies editability: an ASCII spec the CRD admits is never rejected by /edit. */
  lemma AsciiEditable(spec: Spec)
    requires Admitted(spec) && forall i | 0 <= i < |spec.redirectURIs| :: IsAscii(spec.redirectURIs[i])
    ensures EditAccepts(spec.redirectURIs)
  {
    forall i | 0 <= i < |spec.redirectURIs| ensures !EditRejects(spec.redirectURIs[i]) {
      AsciiAdmissionExact(spec.redirectURIs[i]);
    }
  }

  /** Two passes suffice from every state that any run, with any faults and disturbances, has
      reached: an object with an admitted ASCII spec that passes the guard, policy Recreate or
      InPlace, and a Secret name that is absent or its own is settled after them. */
  lemma TwoPassesSuffice(s0: State, before: seq<Action>, acts: seq<Action>, a: Ident)
    requires Safety.Initial(s0) && Legal(s0, before)
    requires var s := Exec(s0, before);
             && a in s0.w.crs && Live(s.w, a) && !s.w.crs[a].deleting
             && URIsClean(s.w.crs[a].spec.redirectURIs)
             && (forall i | 0 <= i < |s.w.crs[a].spec.redirectURIs| :: IsAscii(s.w.crs[a].spec.redirectURIs[i]))
             && s.w.crs[a].spec.updatePolicy != Block
             && (SecretKeyOf(s.w.crs[a]) in s.w.secrets ==> s.w.secrets[SecretKeyOf(s.w.crs[a])].owner == Some(a.uid))
             && a in s.pcs && s.pcs[a].Idle? && Quiet(s, acts, a) && Legal(s, acts) && Begins(acts, a) >= 2
             && a in Exec(s, acts).pcs && Exec(s, acts).pcs[a].Idle?
    ensures Settled(Exec(Exec(s0, before), acts).w, a)
  {
    var s := Exec(s0, before);
    hide Safety.Initial, Exec, Legal, Quiet, IsAscii, URIsClean, SecretKeyOf, EditAccepts;
    Safety.InitialOk(s0);
    Safety.RunOk(s0, before);
    ReachableMeasure(s, a);
    ReachableHealthy(s, a);
    hide Healthy, Measure, Settled;
    BoundedConvergence(s, acts, a);
  }

  lemma ReachableHealthy(s: State, a: Ident)
    requires Safety.Inv(s) && Live(s.w, a) && !s.w.crs[a].deleting
    requires URIsClean(s.w.crs[a].spec.redirectURIs)
    requires forall i | 0 <= i < |s.w.crs[a].spec.redirectURIs| :: IsAscii(s.w.crs[a].spec.redirectURIs[i])
    requires s.w.crs[a].spec.updatePolicy != Block
    requires SecretKeyOf(s.w.crs[a]) in s.w.secrets ==> s.w.secrets[SecretKeyOf(s.w.crs[a])].owner == Some(a.uid)
    ensures Healthy(s.w, a)
  {
    hide Safety.ObjectOk, Safety.PassOk, URIsClean, SecretKeyOf, EditAccepts, IsAscii;
    assert Safety.WorldOk(s.w);
    AsciiEditable(s.w.crs[a].spec);
  }
}
