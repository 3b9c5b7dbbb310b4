/** What every run keeps: at most one live registration per object, and no leak on deletion. */
module Safety {
  import opened Text
  import opened Types
  import opened Naming
  import opened Tsidp
  import opened Secrets
  import opened Cluster

  // ---------------------------------------------------------------- the invariant

  /** The objects of the run: valid names, uids unique, fingerprints unique. */
  ghost predicate Distinct(objects: set<Ident>) {
    && (forall a | a in objects :: ValidIdent(a))
    && (forall a, b | a in objects && b in objects && a != b :: !SameMark(a, b) && a.uid != b.uid)
  }

  ghost predicate Owned(w: World, id: string, a: Ident) {
    id in w.issued && w.issued[id].owner == Some(a)
  }

  /** Every live id was issued, and a name carries the fingerprint of its owner's object only. */
  ghost predicate RegistryOk(w: World) {
    && "" !in w.issued
    && w.clients.Keys <= w.issued.Keys
    && forall id, a | id in w.clients && a in w.crs :: id in Mine(w.clients, a) ==> Owned(w, id, a)
  }

  ghost predicate WorldOk(w: World) {
    && Distinct(w.crs.Keys)
    && RegistryOk(w)
    && forall a | a in w.crs :: w.crs[a].id == a && Admitted(w.crs[a].spec) && w.crs[a].rv < w.tick
  }

  ghost predicate OnlyMine(w: World, a: Ident, id: string) {
    forall x | x in Mine(w.clients, a) :: x == id
  }

  /** If the object names a client, that client was issued for it and is its only live one. */
  ghost predicate Recorded(w: World, a: Ident, oc: OIDCClient) {
    oc.status.clientID != "" ==> Owned(w, oc.status.clientID, a) && OnlyMine(w, a, oc.status.clientID)
  }

  /** The pass works with a client that is the object's only live one, and the persisted status
      names no other. */
  ghost predicate Working(w: World, a: Ident, oc: OIDCClient)
    requires a in w.crs
  {
    && oc.status.clientID != "" && Recorded(w, a, oc)
    && (w.crs[a].status.clientID == "" || w.crs[a].status.clientID == oc.status.clientID)
  }

  ghost predicate MustDeregister(oc: OIDCClient) {
    oc.spec.deletionPolicy == Deregister && !oc.force
  }

  ghost predicate ObjectOk(w: World, a: Ident)
    requires a in w.crs
  {
    && (forall x, y | x in Mine(w.clients, a) && y in Mine(w.clients, a) :: x == y)
    && Recorded(w, a, w.crs[a])
    && (Mine(w.clients, a) != {} ==> w.crs[a].finalizer || a in w.gone)
    && (a in w.gone && MustDeregister(w.crs[a]) ==> Mine(w.clients, a) == {})
  }

  /** A pass works on a copy of the object: of its present state if the resourceVersion is. */
  ghost predicate CopyOk(w: World, a: Ident, oc: OIDCClient)
    requires a in w.crs
  {
    var now := w.crs[a];
    && oc.id == a && Admitted(oc.spec) && oc.rv <= now.rv
    && (oc.rv == now.rv ==> oc.spec == now.spec && oc.force == now.force && oc.deleting == now.deleting)
  }

  /** What holds of the registry at each point of a pass. */
  ghost predicate Stage(w: World, a: Ident, pc: PC)
    requires a in w.crs
  {
    var blank := w.crs[a].status.clientID == "";
    match pc
    case Idle(_) => true
    case AddFinalizer(_) => true
    case Discover(oc) => Recorded(w, a, oc) && oc.status.clientID == w.crs[a].status.clientID
    case VetTarget(oc, _) => Recorded(w, a, oc) && oc.status.clientID == w.crs[a].status.clientID
    case ReadOld(oc, _) => Recorded(w, a, oc) && oc.status.clientID == w.crs[a].status.clientID
    case DropOld(oc, _, _) => Recorded(w, a, oc) && oc.status.clientID == w.crs[a].status.clientID
    case VetSecret(oc, _) => oc.status.clientID == "" && blank
    case ListForAdoption(oc, _, _) => oc.status.clientID == "" && blank
    case BurnOrphan(oc, target) => oc.status.clientID == "" && Owned(w, target, a)
    case Register(oc, _) => oc.status.clientID == "" && blank && Mine(w.clients, a) == {}
    case UpsertRead(oc, _, cred) => StageUpsert(w, a, oc, cred)
    case UpsertWrite(oc, cred, _, _) => StageUpsert(w, a, oc, cred)
    case ReadRemote(oc, _) => Working(w, a, oc)
    case CheckSecret(oc, _, _) => Working(w, a, oc)
    case BurnRecorded(oc) => Working(w, a, oc)
    case EditRemote(oc, _) => Working(w, a, oc)
    case VerifyEdit(oc, _) => Working(w, a, oc)
    case PutStatus(oc, _) => Recorded(w, a, oc)
    case Unregister(oc) => oc.deleting && oc.status.clientID != "" && Recorded(w, a, oc)
    case ListForCleanup(oc) => oc.deleting
    case Cleanup(oc, todo) =>
      && oc.deleting && todo != []
      && (forall id | id in todo :: Owned(w, id, a))
      && (forall id | id in Mine(w.clients, a) :: id in todo)
    case DropFinalizer(oc) => oc.deleting && (MustDeregister(oc) ==> Mine(w.clients, a) == {})
  }

  ghost predicate StageUpsert(w: World, a: Ident, oc: OIDCClient, cred: Option<Credentials>) {
    match cred
    case None => oc.status.clientID != "" && Recorded(w, a, oc)
    case Some(c) => oc.status.clientID == "" && c.id != "" && Owned(w, c.id, a) && OnlyMine(w, a, c.id)
  }

  ghost predicate PassOk(w: World, a: Ident, pc: PC)
    requires a in w.crs
  {
    !pc.Idle? ==>
      && CopyOk(w, a, pc.oc)
      && Stage(w, a, pc)
      && (!pc.AddFinalizer? ==> w.crs[a].finalizer && a !in w.gone)
  }

  ghost predicate Inv(s: State) {
    && WorldOk(s.w)
    && s.pcs.Keys == s.w.crs.Keys
    && forall a | a in s.w.crs :: ObjectOk(s.w, a) && PassOk(s.w, a, s.pcs[a])
  }

  // ---------------------------------------------------------------- what the others may do

  /** How a step that is not of a's own pass may change what concerns a. */
  ghost predicate Rely(w: World, w': World, a: Ident)
    requires a in w.crs
  {
    && w'.crs.Keys == w.crs.Keys
    && Mine(w'.clients, a) <= Mine(w.clients, a)
    && (forall id | id in w.issued :: id in w'.issued && w'.issued[id] == w.issued[id])
    && w'.crs[a].status == w.crs[a].status
    && w'.crs[a].finalizer == w.crs[a].finalizer
    && w.crs[a].rv <= w'.crs[a].rv
    && (w'.crs[a].rv == w.crs[a].rv ==> w'.crs[a] == w.crs[a])
    && (a in w.gone ==> a in w'.gone && w'.crs[a] == w.crs[a])
    && (a !in w.gone && w.crs[a].finalizer ==> a !in w'.gone)
  }

  lemma RelyObject(w: World, w': World, a: Ident)
    requires a in w.crs && ObjectOk(w, a) && Rely(w, w', a)
    ensures ObjectOk(w', a)
  {
  }

  lemma RelyPass(w: World, w': World, a: Ident, pc: PC)
    requires a in w.crs && PassOk(w, a, pc) && Rely(w, w', a)
    ensures PassOk(w', a, pc)
  {
  }

  // ---------------------------------------------------------------- three kinds of change

  /** A step that writes no object and no registration: it may delete registrations. */
  ghost predicate Shrinks(w: World, w': World) {
    && w'.crs == w.crs && w'.gone == w.gone && w'.issued == w.issued && w.tick <= w'.tick
    && w'.clients.Keys <= w.clients.Keys
    && forall id | id in w'.clients :: w'.clients[id] == w.clients[id]
  }

  lemma ShrinksOk(w: World, w': World)
    requires WorldOk(w) && Shrinks(w, w')
    ensures WorldOk(w')
    ensures forall a | a in w.crs :: Rely(w, w', a)
  {
    forall a | a in w.crs ensures Mine(w'.clients, a) <= Mine(w.clients, a) {
    }
  }

  /** A step that writes one object, under a new resourceVersion, and perhaps removes it. */
  ghost predicate Rewrites(w: World, w': World, oc: OIDCClient) {
    && Live(w, oc.id) && Admitted(oc.spec)
    && w'.crs == w.crs[oc.id := oc.(rv := w.tick)]
    && (w'.gone == w.gone || w'.gone == w.gone + {oc.id})
    && w'.clients == w.clients && w'.issued == w.issued && w'.tick == w.tick + 1
  }

  lemma SameRegistry(w: World, w': World)
    requires w'.clients == w.clients && w'.issued == w.issued && w'.crs.Keys == w.crs.Keys && RegistryOk(w)
    ensures RegistryOk(w')
  {
  }

  lemma RewritesOk(w: World, w': World, oc: OIDCClient)
    requires WorldOk(w) && Rewrites(w, w', oc)
    ensures WorldOk(w')
    ensures forall a | a in w.crs && a != oc.id :: Rely(w, w', a)
  {
    hide Admitted, Distinct, RegistryOk;
    assert w'.crs.Keys == w.crs.Keys;
    SameRegistry(w, w');
    hide Mine;
    forall a | a in w.crs && a != oc.id ensures Rely(w, w', a) {
      assert w'.crs[a] == w.crs[a];
    }
  }

  /** A step that stores one registration; its name may newly carry at most one fingerprint. */
  ghost predicate Stores(w: World, w': World, id: string, marked: set<Ident>) {
    && w'.crs == w.crs && w'.gone == w.gone && w.tick <= w'.tick
    && id != "" && id in w'.clients && w'.clients == w.clients[id := w'.clients[id]]
    && id in w'.issued && w'.issued == w.issued[id := w'.issued[id]]
    && (id in w.issued ==> w'.issued[id] == w.issued[id])
    && (forall a | a in marked :: w'.issued[id].owner == Some(a))
    && forall a | a in w.crs && a !in marked && Carries(w'.clients[id].name, a) :: id in Mine(w.clients, a)
  }

  lemma StoresOk(w: World, w': World, id: string, marked: set<Ident>)
    requires WorldOk(w) && Stores(w, w', id, marked)
    ensures WorldOk(w')
    ensures forall a | a in w.crs && a !in marked :: Rely(w, w', a)
    ensures forall a, x | a in w.crs && x in Mine(w'.clients, a) :: x in Mine(w.clients, a) || x == id
  {
    hide Carries, Distinct, Admitted;
    forall a, x | a in w.crs && x in Mine(w'.clients, a)
      ensures x in Mine(w.clients, a) || (x == id && a in marked)
    {
    }
  }

  lemma DisturbObject(s: State, act: Action)
    requires WorldOk(s.w) && Enabled(s, act) && (act.EditSpec? || act.SetForce? || act.MarkDeleted?)
    ensures WorldOk(Disturb(s.w, act)) && Disturb(s.w, act).crs.Keys == s.w.crs.Keys
    ensures forall a | a in s.w.crs :: Rely(s.w, Disturb(s.w, act), a)
  {
    hide SameMark, Distinct, ValidIdent, RegistryOk, Carries, Contains;
    var w, w', a := s.w, Disturb(s.w, act), act.a;
    var oc := match act
      case EditSpec(_, spec) => w.crs[a].(id := a, spec := spec)
      case SetForce(_, force) => w.crs[a].(id := a, force := force)
      case MarkDeleted(_) => w.crs[a].(id := a, deleting := true);
    RewritesOk(w, w', oc);
  }

  lemma DisturbClients(s: State, act: Action)
    requires WorldOk(s.w) && Enabled(s, act) && (act.RegisterForeign? || act.AdminEdit?)
    ensures WorldOk(Disturb(s.w, act)) && Disturb(s.w, act).crs.Keys == s.w.crs.Keys
    ensures forall a | a in s.w.crs :: Rely(s.w, Disturb(s.w, act), a)
  {
    hide SameMark, Distinct, ValidIdent, Carries, Contains, Admitted;
    var w, w' := s.w, Disturb(s.w, act);
    if act.RegisterForeign? {
      forall a | a in w.crs ensures !Carries(act.reg.name, a) {
        UnmarkedCarriesNone(act.reg.name, a);
      }
      StoresOk(w, w', act.id, {});
    } else {
      forall a | a in w.crs && Carries(act.name, a) ensures act.id in Mine(w.clients, a) {
        if !Contains(act.name, MARK) { UnmarkedCarriesNone(act.name, a); }
      }
      assert w.issued == w.issued[act.id := w.issued[act.id]];
      StoresOk(w, w', act.id, {});
    }
  }

  /** The environment keeps the world invariant and stays within everyone's rely. */
  lemma DisturbOk(s: State, act: Action)
    requires WorldOk(s.w) && Enabled(s, act) && !act.Begin? && !act.Step?
    ensures WorldOk(Disturb(s.w, act)) && Disturb(s.w, act).crs.Keys == s.w.crs.Keys
    ensures forall a | a in s.w.crs :: Rely(s.w, Disturb(s.w, act), a)
  {
    if act.EditSpec? || act.SetForce? || act.MarkDeleted? {
      DisturbObject(s, act);
    } else if act.RegisterForeign? || act.AdminEdit? {
      DisturbClients(s, act);
    } else {
      hide WorldOk, Rely;
      ShrinksOk(s.w, Disturb(s.w, act));
    }
  }

  // ---------------------------------------------------------------- one call of a pass

  /** A call that can neither add to the registry nor write the object. */
  predicate Harmless(call: Call) {
    !call.UpdateObject? && !call.UpdateStatus? && !call.RegisterClient? && !call.EditClient?
  }

  lemma HarmlessOk(w: World, me: Ident, call: Call, ch: Choice)
    requires Allowed(w, call, ch) && Harmless(call)
    ensures Shrinks(w, Serve(w, me, call, ch).0)
  {
  }

  /** The name an object registers under carries no other object's fingerprint. */
  lemma NameExclusive(w: World, me: Ident, spec: Spec)
    requires WorldOk(w) && me in w.crs && Admitted(spec)
    ensures forall a | a in w.crs && a != me :: !Carries(RegisteredName(me, spec), a)
  {
    forall a | a in w.crs && a != me ensures !Carries(RegisteredName(me, spec), a) {
      FingerprintExact(me, spec, a);
    }
  }

  lemma RegisterStoresNamed(w: World, me: Ident, name: string, uris: seq<string>, ch: Choice)
    requires WorldOk(w) && me in w.crs && Allowed(w, RegisterClient(name, uris), ch) && uris != []
    requires forall a | a in w.crs && a != me :: !Carries(name, a)
    ensures var w' := Serve(w, me, RegisterClient(name, uris), ch).0;
            Stores(w, w', ch.cred.id, {me}) && Owned(w', ch.cred.id, me)
  {
    hide Carries, Distinct, Admitted, RegistryOk, Listing;
  }

  /** A registration adds its id to the owner's live ones and to nobody else's. */
  lemma RegisterStores(w: World, me: Ident, spec: Spec, ch: Choice)
    requires WorldOk(w) && me in w.crs && Admitted(spec)
    requires Allowed(w, RegisterClient(RegisteredName(me, spec), spec.redirectURIs), ch)
    ensures var w' := Serve(w, me, RegisterClient(RegisteredName(me, spec), spec.redirectURIs), ch).0;
            Stores(w, w', ch.cred.id, {me}) && Owned(w', ch.cred.id, me)
  {
    assert spec.redirectURIs != [];
    NameExclusive(w, me, spec);
    hide *;
    RegisterStoresNamed(w, me, RegisteredName(me, spec), spec.redirectURIs, ch);
  }

  /** An edit by its owner adds at most the edited id to the owner's live ones. */
  lemma EditStores(w: World, me: Ident, spec: Spec, id: string, field: string)
    requires WorldOk(w) && me in w.crs && Admitted(spec) && Owned(w, id, me) && id in w.clients
    ensures var w' := w.(clients := Edited(w.clients, id, Trim(RegisteredName(me, spec)), field));
            Stores(w, w', id, {me})
  {
    RegisteredNameTrimmed(me, spec);
    NameExclusive(w, me, spec);
    assert w.issued == w.issued[id := w.issued[id]];
    assert w.clients == w.clients[id := w.clients[id]];
  }

  // ---------------------------------------------------------------- what a pass makes of a reply

  /** A reply that tells the truth about the stores as they are after the call. */
  ghost predicate Truthful(w: World, call: Call, r: Reply) {
    && (call.DeleteClient? && (r.Done? || r.Missing?) ==> call.id !in w.clients)
    && (r.Clients? ==> Listing(r.entries, w.clients))
  }

  /** The steps of Reconcile and reconcileNormal before any client is named. */
  lemma ResumeEarly(w: World, me: Ident, pc: PC, r: Reply)
    requires me in w.crs && PassOk(w, me, pc) && Calling(pc) && Truthful(w, CallOf(pc), r)
    requires pc.Discover? || pc.VetTarget? || pc.ReadOld? || pc.DropOld? || pc.VetSecret?
    ensures PassOk(w, me, Resume(pc, r))
  {
    hide Admitted, Owned, Mine, OnlyMine;
  }

  lemma ResumeAdoption(w: World, me: Ident, pc: PC, r: Reply)
    requires me in w.crs && PassOk(w, me, pc) && Calling(pc) && Truthful(w, CallOf(pc), r)
    requires pc.ListForAdoption? || pc.BurnOrphan?
    requires ObjectOk(w, me) && RegistryOk(w)
    ensures PassOk(w, me, Resume(pc, r))
  {
    if pc.ListForAdoption? && r.Clients? {
      MatchesMine(w.clients, r.entries, me);
      var m := Matches(r.entries, me);
      if m != [] {
        assert m[0] in m;
        assert m[0] in Mine(w.clients, me);
      }
    }
  }

  lemma ResumeUpsert(w: World, me: Ident, pc: PC, r: Reply)
    requires me in w.crs && PassOk(w, me, pc)
    requires pc.UpsertRead? || pc.UpsertWrite?
    ensures PassOk(w, me, Resume(pc, r))
  {
    hide Wanted, Admitted, Mine, Owned, OnlyMine;
  }

  lemma ResumeRemote(w: World, me: Ident, pc: PC, r: Reply)
    requires me in w.crs && PassOk(w, me, pc) && Calling(pc) && Truthful(w, CallOf(pc), r)
    requires pc.ReadRemote? || pc.CheckSecret? || pc.BurnRecorded? || pc.VerifyEdit? || pc.EditRemote?
    ensures PassOk(w, me, Resume(pc, r))
  {
    hide Admitted, Owned, Converged, RegisteredName, Holds;
  }

  lemma ResumeDelete(w: World, me: Ident, pc: PC, r: Reply)
    requires me in w.crs && PassOk(w, me, pc) && Calling(pc) && Truthful(w, CallOf(pc), r)
    requires pc.Unregister? || pc.ListForCleanup? || pc.Cleanup?
    requires RegistryOk(w)
    ensures PassOk(w, me, Resume(pc, r))
  {
    if pc.ListForCleanup? && r.Clients? {
      MatchesMine(w.clients, r.entries, me);
    }
  }

  /** Whatever the reply, as long as it is truthful, the pass lands on its feet. */
  lemma ResumeOk(w: World, me: Ident, pc: PC, r: Reply)
    requires me in w.crs && PassOk(w, me, pc) && Calling(pc) && Truthful(w, CallOf(pc), r)
    requires ObjectOk(w, me) && RegistryOk(w)
    requires Harmless(CallOf(pc)) || r.Failed?
    ensures PassOk(w, me, Resume(pc, r))
  {
    if pc.Discover? || pc.VetTarget? || pc.ReadOld? || pc.DropOld? || pc.VetSecret? {
      ResumeEarly(w, me, pc, r);
    } else if pc.ListForAdoption? || pc.BurnOrphan? {
      ResumeAdoption(w, me, pc, r);
    } else if pc.UpsertRead? || pc.UpsertWrite? {
      ResumeUpsert(w, me, pc, r);
    } else if pc.ReadRemote? || pc.CheckSecret? || pc.BurnRecorded? || pc.VerifyEdit? || pc.EditRemote? {
      ResumeRemote(w, me, pc, r);
    } else if pc.Unregister? || pc.ListForCleanup? || pc.Cleanup? {
      ResumeDelete(w, me, pc, r);
    }
  }

  // ---------------------------------------------------------------- one step of a pass

  /** What a step of me's own pass must establish: the world and every other object are safe, so is
      me's object, and the pass can go on whether it hears the reply or not. */
  ghost predicate StepSafe(w: World, w': World, me: Ident, pc: PC, r: Reply)
    requires me in w.crs && Calling(pc)
  {
    && WorldOk(w') && w'.crs.Keys == w.crs.Keys
    && (forall a | a in w.crs && a != me :: Rely(w, w', a))
    && ObjectOk(w', me)
    && PassOk(w', me, Resume(pc, r)) && PassOk(w', me, Resume(pc, Failed))
  }

  lemma HarmlessStep(w: World, me: Ident, pc: PC, ch: Choice)
    requires WorldOk(w) && me in w.crs && ObjectOk(w, me) && PassOk(w, me, pc) && Calling(pc)
    requires Allowed(w, CallOf(pc), ch) && Harmless(CallOf(pc))
    ensures var (w', r) := Serve(w, me, CallOf(pc), ch); StepSafe(w, w', me, pc, r)
  {
    hide Resume, CallOf, Admitted, SameMark, ObjectOk, PassOk, Distinct, Mine;
    var (w', r) := Serve(w, me, CallOf(pc), ch);
    HarmlessOk(w, me, CallOf(pc), ch);
    ShrinksOk(w, w');
    RelyObject(w, w', me);
    RelyPass(w, w', me, pc);
    ResumeOk(w', me, pc, r);
    ResumeOk(w', me, pc, Failed);
  }

  lemma RegisterStep(w: World, me: Ident, oc: OIDCClient, d: Discovery, ch: Choice)
    requires WorldOk(w) && me in w.crs && ObjectOk(w, me) && PassOk(w, me, Register(oc, d))
    requires Allowed(w, CallOf(Register(oc, d)), ch)
    ensures var (w', r) := Serve(w, me, CallOf(Register(oc, d)), ch); StepSafe(w, w', me, Register(oc, d), r)
  {
    hide Admitted, SameMark, Distinct, Mine, Carries, RegisteredName, ObjectOk, PassOk, CopyOk, RegistryOk;
    var (w', r) := Serve(w, me, CallOf(Register(oc, d)), ch);
    RegisterFacts(w, me, oc, d);
    RegisterStores(w, me, oc.spec, ch);
    StoresOk(w, w', ch.cred.id, {me});
    RegisterDone(w, w', me, oc, d, ch.cred);
  }

  lemma RegisterFacts(w: World, me: Ident, oc: OIDCClient, d: Discovery)
    requires me in w.crs && PassOk(w, me, Register(oc, d))
    ensures oc.id == me && Admitted(oc.spec) && oc.spec.redirectURIs != []
  {
  }

  /** The new registration is the object's only one, and its live finalizer is there already. */
  lemma RegisterDone(w: World, w': World, me: Ident, oc: OIDCClient, d: Discovery, cred: Credentials)
    requires me in w.crs && ObjectOk(w, me) && PassOk(w, me, Register(oc, d))
    requires Stores(w, w', cred.id, {me}) && Owned(w', cred.id, me)
    requires forall x | x in Mine(w'.clients, me) :: x in Mine(w.clients, me) || x == cred.id
    ensures ObjectOk(w', me)
    ensures PassOk(w', me, UpsertRead(oc, d, Some(cred))) && PassOk(w', me, Unready(oc, RegistrationFailed))
  {
    hide Admitted, Mine, Carries;
  }

  lemma EditStep(w: World, me: Ident, oc: OIDCClient, d: Discovery, ch: Choice)
    requires WorldOk(w) && me in w.crs && ObjectOk(w, me) && PassOk(w, me, EditRemote(oc, d))
    requires Allowed(w, CallOf(EditRemote(oc, d)), ch)
    ensures var (w', r) := Serve(w, me, CallOf(EditRemote(oc, d)), ch); StepSafe(w, w', me, EditRemote(oc, d), r)
  {
    hide Edited, RegisteredName, ObjectOk, PassOk, WorldOk, Resume, Serve, CallOf, Stores, Mine, Admitted, Allowed;
    var (w', r) := Serve(w, me, CallOf(EditRemote(oc, d)), ch);
    EditResume(oc, d, r);
    EditResume(oc, d, Failed);
    EditFacts(w, me, oc, d);
    EditServe(w, me, oc, d, ch);
    var id := oc.status.clientID;
    if id in w.clients {
      EditStores(w, me, oc.spec, id, Join(Normalise(oc.spec.redirectURIs)));
      StoresOk(w, w', id, {me});
      EditDone(w, w', me, oc, d);
    } else {
      ShrinksOk(w, w);
    }
  }

  lemma EditServe(w: World, me: Ident, oc: OIDCClient, d: Discovery, ch: Choice)
    requires Allowed(w, CallOf(EditRemote(oc, d)), ch)
    ensures var id := oc.status.clientID;
            Serve(w, me, CallOf(EditRemote(oc, d)), ch).0 ==
              if id in w.clients then
                w.(clients := Edited(w.clients, id, Trim(RegisteredName(oc.id, oc.spec)),
                    Join(Normalise(oc.spec.redirectURIs))))
              else w
  {
    hide Edited, RegisteredName, Join, Normalise, Trim;
  }

  lemma EditResume(oc: OIDCClient, d: Discovery, r: Reply)
    ensures Resume(EditRemote(oc, d), r) == if r.Done? then VerifyEdit(oc, d) else Unready(oc, InPlaceUpdateFailed)
  {
  }

  lemma EditFacts(w: World, me: Ident, oc: OIDCClient, d: Discovery)
    requires me in w.crs && PassOk(w, me, EditRemote(oc, d))
    ensures oc.id == me && Admitted(oc.spec) && Owned(w, oc.status.clientID, me)
    ensures PassOk(w, me, VerifyEdit(oc, d)) && PassOk(w, me, Unready(oc, InPlaceUpdateFailed))
  {
  }

  lemma EditDone(w: World, w': World, me: Ident, oc: OIDCClient, d: Discovery)
    requires me in w.crs && ObjectOk(w, me) && PassOk(w, me, EditRemote(oc, d))
    requires Stores(w, w', oc.status.clientID, {me})
    requires forall x | x in Mine(w'.clients, me) :: x in Mine(w.clients, me) || x == oc.status.clientID
    ensures ObjectOk(w', me)
    ensures PassOk(w', me, VerifyEdit(oc, d)) && PassOk(w', me, Unready(oc, InPlaceUpdateFailed))
  {
    hide Admitted, Mine, Carries;
  }

  lemma StatusStep(w: World, me: Ident, oc: OIDCClient, o: Outcome, ch: Choice)
    requires WorldOk(w) && me in w.crs && ObjectOk(w, me) && PassOk(w, me, PutStatus(oc, o))
    requires Allowed(w, CallOf(PutStatus(oc, o)), ch)
    ensures var (w', r) := Serve(w, me, CallOf(PutStatus(oc, o)), ch); StepSafe(w, w', me, PutStatus(oc, o), r)
  {
    hide Admitted, SameMark, Distinct, Mine, Carries, RegistryOk;
    var (w', r) := Serve(w, me, CallOf(PutStatus(oc, o)), ch);
    if w' != w {
      RewritesOk(w, w', w.crs[me].(status := oc.status));
    }
  }

  lemma StartNormalOk(w: World, me: Ident)
    requires WorldOk(w) && me in w.crs && ObjectOk(w, me) && me !in w.gone && w.crs[me].finalizer
    ensures PassOk(w, me, StartNormal(w.crs[me]))
  {
    hide Admitted, SameMark, Distinct, Mine, Carries, RegistryOk, URIsClean;
  }

  lemma AddFinalizerStep(w: World, me: Ident, oc: OIDCClient, ch: Choice)
    requires WorldOk(w) && me in w.crs && ObjectOk(w, me) && PassOk(w, me, AddFinalizer(oc))
    requires Allowed(w, CallOf(AddFinalizer(oc)), ch)
    ensures var (w', r) := Serve(w, me, CallOf(AddFinalizer(oc)), ch); StepSafe(w, w', me, AddFinalizer(oc), r)
  {
    hide Admitted, SameMark, Distinct, Mine, RegistryOk, StartNormal, Resume;
    var (w', r) := Serve(w, me, CallOf(AddFinalizer(oc)), ch);
    AddFinalizerResume(oc, r);
    AddFinalizerResume(oc, Failed);
    if w' != w {
      RewritesOk(w, w', w.crs[me].(spec := oc.spec, finalizer := true));
      assert ObjectOk(w', me);
      StartNormalOk(w', me);
    }
  }

  lemma AddFinalizerResume(oc: OIDCClient, r: Reply)
    ensures Resume(AddFinalizer(oc), r) == if r.Object? then StartNormal(r.oc) else Idle(Erred)
  {
    hide StartNormal;
  }

  lemma DropFinalizerStep(w: World, me: Ident, oc: OIDCClient, ch: Choice)
    requires WorldOk(w) && me in w.crs && ObjectOk(w, me) && PassOk(w, me, DropFinalizer(oc))
    requires Allowed(w, CallOf(DropFinalizer(oc)), ch)
    ensures var (w', r) := Serve(w, me, CallOf(DropFinalizer(oc)), ch); StepSafe(w, w', me, DropFinalizer(oc), r)
  {
    hide Admitted, SameMark, Distinct, Mine, Carries, RegistryOk;
    var (w', r) := Serve(w, me, CallOf(DropFinalizer(oc)), ch);
    if w' != w {
      RewritesOk(w, w', w.crs[me].(spec := oc.spec, finalizer := false));
    }
  }

  lemma MostCallsHarmless(pc: PC)
    requires Calling(pc)
    requires !pc.AddFinalizer? && !pc.DropFinalizer? && !pc.PutStatus? && !pc.Register? && !pc.EditRemote?
    ensures Harmless(CallOf(pc))
  {
  }

  lemma RefusedOk(w: World, me: Ident, pc: PC)
    requires WorldOk(w) && me in w.crs && ObjectOk(w, me) && PassOk(w, me, pc) && Calling(pc)
    ensures PassOk(w, me, Resume(pc, Failed))
  {
    hide CallOf, Resume, ObjectOk, PassOk;
    ResumeOk(w, me, pc, Failed);
  }

  lemma StepOk(w: World, me: Ident, pc: PC, ch: Choice)
    requires WorldOk(w) && me in w.crs && ObjectOk(w, me) && PassOk(w, me, pc) && Calling(pc)
    requires Allowed(w, CallOf(pc), ch)
    ensures var (w', r) := Serve(w, me, CallOf(pc), ch); StepSafe(w, w', me, pc, r)
    ensures PassOk(w, me, Resume(pc, Failed))
  {
    hide Resume, Serve, StepSafe, ObjectOk, PassOk, WorldOk, CallOf, Allowed, Harmless;
    RefusedOk(w, me, pc);
    match pc
    case AddFinalizer(oc) => AddFinalizerStep(w, me, oc, ch);
    case DropFinalizer(oc) => DropFinalizerStep(w, me, oc, ch);
    case PutStatus(oc, o) => StatusStep(w, me, oc, o, ch);
    case Register(oc, d) => RegisterStep(w, me, oc, d, ch);
    case EditRemote(oc, d) => EditStep(w, me, oc, d, ch);
    case _ =>
      MostCallsHarmless(pc);
      HarmlessStep(w, me, pc, ch);
  }

  // ---------------------------------------------------------------- every action, every run

  lemma DispatchOk(w: World, me: Ident)
    requires WorldOk(w) && me in w.crs && ObjectOk(w, me) && me !in w.gone
    ensures PassOk(w, me, Dispatch(w.crs[me]))
  {
    hide Admitted, SameMark, Distinct, Mine, Carries, RegistryOk, StartNormal;
    if w.crs[me].finalizer { StartNormalOk(w, me); }
  }

  lemma OthersOk(s: State, w': World, me: Ident)
    requires Inv(s) && w'.crs.Keys == s.w.crs.Keys
    requires forall a | a in s.w.crs && a != me :: Rely(s.w, w', a)
    ensures forall a | a in s.w.crs && a != me :: ObjectOk(w', a) && PassOk(w', a, s.pcs[a])
  {
    hide Rely, ObjectOk, PassOk, WorldOk;
    forall a | a in s.w.crs && a != me ensures ObjectOk(w', a) && PassOk(w', a, s.pcs[a]) {
      RelyObject(s.w, w', a);
      RelyPass(s.w, w', a, s.pcs[a]);
    }
  }

  /** The two worlds a step can lead to, without and with the effect of its call, are safe. */
  lemma AdvanceOk(s: State, me: Ident, fault: Fault, ch: Choice)
    requires Inv(s) && Enabled(s, Step(me, fault, ch))
    ensures var (w', pc') := Advance(s.w, s.pcs[me], me, fault, ch);
            && WorldOk(w') && w'.crs.Keys == s.w.crs.Keys
            && ObjectOk(w', me) && PassOk(w', me, pc')
            && forall a | a in s.w.crs && a != me :: ObjectOk(w', a) && PassOk(w', a, s.pcs[a])
  {
    hide Serve, CallOf, Resume, ObjectOk, PassOk, WorldOk, Rely, Allowed;
    var w, pc := s.w, s.pcs[me];
    var (w', r) := Serve(w, me, CallOf(pc), ch);
    StepOk(w, me, pc, ch);
    OthersOk(s, w', me);
    IdleOk(w, me, Crashed);
    IdleOk(w', me, Crashed);
  }

  lemma IdleOk(w: World, a: Ident, o: Outcome)
    requires a in w.crs
    ensures PassOk(w, a, Idle(o))
  {
  }

  lemma ApplyOk(s: State, act: Action)
    requires Inv(s) && Enabled(s, act)
    ensures Inv(Apply(s, act)) && Apply(s, act).w.crs.Keys == s.w.crs.Keys
  {
    hide ObjectOk, PassOk, WorldOk, Dispatch, Advance, Disturb, Rely, Live, Allowed;
    match act
    case Begin(me) =>
      BeginOk(s, me);
    case Step(me, fault, ch) =>
      AdvanceOk(s, me, fault, ch);
    case _ =>
      DisturbOk(s, act);
      EnvironmentOk(s, Disturb(s.w, act));
  }

  lemma BeginOk(s: State, me: Ident)
    requires Inv(s) && Enabled(s, Begin(me))
    ensures PassOk(s.w, me, Dispatch(s.w.crs[me]))
  {
    DispatchOk(s.w, me);
  }

  lemma EnvironmentOk(s: State, w': World)
    requires Inv(s) && WorldOk(w') && w'.crs.Keys == s.w.crs.Keys
    requires forall a | a in s.w.crs :: Rely(s.w, w', a)
    ensures Inv(s.(w := w'))
  {
    hide Rely, ObjectOk, PassOk, WorldOk;
    forall a | a in s.w.crs ensures ObjectOk(w', a) && PassOk(w', a, s.pcs[a]) {
      RelyObject(s.w, w', a);
      RelyPass(s.w, w', a, s.pcs[a]);
    }
  }

  /** The invariant holds throughout every run: any number of objects, every interleaving of their
      passes, every fault and every disturbance. */
  lemma {:induction false} RunOk(s: State, acts: seq<Action>)
    requires Inv(s) && Legal(s, acts)
    ensures Inv(Exec(s, acts)) && Exec(s, acts).w.crs.Keys == s.w.crs.Keys
    decreases |acts|
  {
    if acts != [] {
      ApplyOk(s, acts[0]);
      hide Inv, Apply, Enabled;
      RunOk(Apply(s, acts[0]), acts[1..]);
    }
  }

  /** Where a run starts: objects the operator has not touched, and a registry of clients that
      carry no marker. */
  ghost predicate Initial(s: State) {
    && Distinct(s.w.crs.Keys)
    && (forall a | a in s.w.crs ::
          && s.w.crs[a].id == a && Admitted(s.w.crs[a].spec) && s.w.crs[a].rv < s.w.tick
          && s.w.crs[a].status == Status("", "", "", Unset) && !s.w.crs[a].finalizer)
    && s.pcs.Keys == s.w.crs.Keys && (forall a | a in s.pcs :: s.pcs[a].Idle?)
    && "" !in s.w.issued && s.w.clients.Keys <= s.w.issued.Keys
    && (forall id | id in s.w.issued :: s.w.issued[id].owner == None)
    && forall id | id in s.w.clients :: !Contains(s.w.clients[id].name, MARK)
  }

  lemma InitialOk(s: State)
    requires Initial(s)
    ensures Inv(s)
  {
    forall a, id | a in s.w.crs && id in s.w.clients ensures id !in Mine(s.w.clients, a) {
      UnmarkedCarriesNone(s.w.clients[id].name, a);
    }
  }

  lemma OneAtMost(w: World, a: Ident)
    requires a in w.crs && ObjectOk(w, a)
    ensures |Mine(w.clients, a)| <= 1
    ensures w.crs[a].status.clientID != "" ==> Mine(w.clients, a) <= {w.crs[a].status.clientID}
  {
    hide Mine;
    var m := Mine(w.clients, a);
    if m != {} {
      var x :| x in m;
      assert m == {x};
    }
  }

  /** One live registration each: at every moment of every run an object has at most one live
      registration carrying its fingerprint, and if its persisted status names a client, every
      such registration is that one. */
  lemma AtMostOneRegistration(s: State, acts: seq<Action>, a: Ident)
    requires Initial(s) && Legal(s, acts) && a in s.w.crs
    ensures var w := Exec(s, acts).w;
            && a in w.crs
            && |Mine(w.clients, a)| <= 1
            && (w.crs[a].status.clientID != "" ==> Mine(w.clients, a) <= {w.crs[a].status.clientID})
  {
    hide Initial, Exec, Legal, Mine, ObjectOk, PassOk, WorldOk;
    InitialOk(s);
    RunOk(s, acts);
    OneAtMost(Exec(s, acts).w, a);
  }

  /** No leak on deletion: a live registration implies that its object still has the finalizer or
      is gone; and an object that is gone under Deregister and without the force annotation has no
      live registration, recorded or not. */
  lemma NoLeak(s: State, acts: seq<Action>, a: Ident)
    requires Initial(s) && Legal(s, acts) && a in s.w.crs
    ensures var w := Exec(s, acts).w;
            && a in w.crs
            && (Mine(w.clients, a) != {} ==> w.crs[a].finalizer || a in w.gone)
            && (a in w.gone && w.crs[a].spec.deletionPolicy == Deregister && !w.crs[a].force ==>
                  Mine(w.clients, a) == {})
  {
    hide Initial, Exec, Legal, Mine, PassOk, WorldOk;
    InitialOk(s);
    RunOk(s, acts);
    assert ObjectOk(Exec(s, acts).w, a);
  }
}
