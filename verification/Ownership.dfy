/** What a pass may touch: its own registrations and its own Secrets, whatever others do between
    its reads and its writes. */
module Ownership {
  import opened Text
  import opened Types
  import opened Naming
  import opened Tsidp
  import opened Secrets
  import opened Cluster
  import opened Safety

  // ---------------------------------------------------------------- versions of Secrets

  /** s is a version the API server stored under the key, now or earlier. */
  ghost predicate Stored(w: World, key: SecretKey, s: Secret) {
    s.rv in w.versions && w.versions[s.rv] == Version(key, s)
  }

  /** A resourceVersion names one version for good, and the present Secrets are versions. */
  ghost predicate VersionsOk(w: World) {
    && (forall key | key in w.secrets :: Stored(w, key, w.secrets[key]))
    && (forall r | r in w.versions :: r < w.tick && w.versions[r].secret.rv == r)
  }

  ghost predicate Remembers(w: World, w': World) {
    forall r | r in w.versions :: r in w'.versions && w'.versions[r] == w.versions[r]
  }

  /** The credentials in want: the new ones, or those of the Secret it was made from. */
  ghost predicate Inherits(base: Secret, want: Secret, cred: Option<Credentials>) {
    && Lookup(want.data, CLIENT_ID) == (if cred.Some? then Some(cred.value.id) else Lookup(base.data, CLIENT_ID))
    && Lookup(want.data, CLIENT_SECRET) == (if cred.Some? then Some(cred.value.secret)
       else Lookup(base.data, CLIENT_SECRET))
  }

  lemma WantedInherits(s: Secret, oc: OIDCClient, d: Discovery, cred: Option<Credentials>)
    ensures var want := Wanted(s, oc, d, cred);
            Inherits(s, want, cred) && want.owner == Some(oc.id.uid) && want.rv == s.rv && want.uid == s.uid
  {
    MetadataContents(WithCredentials(s.data, cred), d, oc.spec.redirectURIs);
    KeysDistinct();
  }

  /** The pass has read, under its object's old Secret name, a version with the uid that its object
      owned, and holds it still. */
  ghost predicate SawOwned(w: World, key: SecretKey, uid: nat, a: Ident, pc: PC) {
    && pc.DropOld? && key == SecretKey(a.ns, pc.oc.status.secretName)
    && Stored(w, key, pc.stale) && pc.stale.owner == Some(a.uid) && pc.stale.uid == uid
  }

  /** The Secrets a pass holds in memory: versions it read, owned by its object, and what it is
      about to write made from such a version or from nothing. */
  ghost predicate HeldOk(w: World, a: Ident, pc: PC) {
    match pc
    case DropOld(oc, _, stale) =>
      Stored(w, SecretKey(a.ns, oc.status.secretName), stale) && stale.owner == Some(a.uid)
    case ListForAdoption(oc, _, held) =>
      held.Some? ==> Stored(w, SecretKeyOf(oc), held.value) && held.value.owner == Some(a.uid)
    case UpsertWrite(oc, cred, want, create) =>
      && want.owner == Some(a.uid)
      && (create ==> Inherits(NEW, want, cred))
      && (!create ==>
            && want.rv in w.versions
            && w.versions[want.rv].key == SecretKeyOf(oc)
            && w.versions[want.rv].secret.owner == Some(a.uid)
            && Inherits(w.versions[want.rv].secret, want, cred))
    case _ => true
  }

  lemma HeldKept(w: World, w': World, a: Ident, pc: PC)
    requires HeldOk(w, a, pc) && Remembers(w, w')
    ensures HeldOk(w', a, pc)
  {
  }

  lemma DisturbVersions(s: State, act: Action)
    requires VersionsOk(s.w) && Enabled(s, act) && !act.Begin? && !act.Step?
    ensures VersionsOk(Disturb(s.w, act)) && Remembers(s.w, Disturb(s.w, act))
  {
    hide Admitted, Carries, Contains;
  }

  lemma NothingStored(w: World, me: Ident, call: Call, ch: Choice)
    requires Allowed(w, call, ch) && !call.CreateSecret? && !call.UpdateSecret? && !call.DeleteSecret?
    ensures var w' := Serve(w, me, call, ch).0;
            w'.secrets == w.secrets && w'.versions == w.versions && w.tick <= w'.tick
  {
    hide Listing, Edited;
  }

  lemma SecretServed(w: World, me: Ident, call: Call, ch: Choice)
    requires VersionsOk(w) && Allowed(w, call, ch) && (call.CreateSecret? || call.UpdateSecret? || call.DeleteSecret?)
    ensures var (w', r) := Serve(w, me, call, ch); VersionsOk(w') && Remembers(w, w') && !r.TheSecret?
  {
  }

  lemma ReadsStored(w: World, me: Ident, call: Call, ch: Choice)
    requires VersionsOk(w) && Allowed(w, call, ch) && Serve(w, me, call, ch).1.TheSecret?
    ensures (call.GetSecret? || call.GetCachedSecret?) && Stored(w, call.key, Serve(w, me, call, ch).1.secret)
  {
    hide Listing, Edited;
  }

  lemma SameVersions(w: World, w': World)
    requires VersionsOk(w) && w'.secrets == w.secrets && w'.versions == w.versions && w.tick <= w'.tick
    ensures VersionsOk(w') && Remembers(w, w')
    ensures forall key, s :: Stored(w, key, s) ==> Stored(w', key, s)
  {
  }

  lemma ServeVersions(w: World, me: Ident, call: Call, ch: Choice)
    requires VersionsOk(w) && Allowed(w, call, ch)
    ensures var (w', r) := Serve(w, me, call, ch);
            && VersionsOk(w') && Remembers(w, w')
            && (r.TheSecret? ==> (call.GetSecret? || call.GetCachedSecret?) && Stored(w', call.key, r.secret))
  {
    hide Serve, Allowed, VersionsOk, Remembers, Stored;
    if call.CreateSecret? || call.UpdateSecret? || call.DeleteSecret? {
      SecretServed(w, me, call, ch);
    } else {
      NothingStored(w, me, call, ch);
      SameVersions(w, Serve(w, me, call, ch).0);
      if Serve(w, me, call, ch).1.TheSecret? { ReadsStored(w, me, call, ch); }
    }
  }

  lemma HeldAfterUpsertRead(w: World, a: Ident, oc: OIDCClient, d: Discovery, cred: Option<Credentials>,
      read: Option<Secret>)
    requires oc.id == a && (read.Some? ==> Stored(w, SecretKeyOf(oc), read.value))
    ensures HeldOk(w, a, AfterUpsertRead(oc, d, cred, read))
  {
    WantedInherits(NEW, oc, d, cred);
    if read.Some? { WantedInherits(read.value, oc, d, cred); }
    hide Wanted, Inherits, SecretKeyOf;
  }

  lemma HeldEarly(w: World, a: Ident, pc: PC, r: Reply)
    requires Calling(pc) && pc.oc.id == a
    requires pc.AddFinalizer? || pc.Discover? || pc.VetTarget? || pc.ReadOld? || pc.DropOld? || pc.VetSecret?
    requires r.TheSecret? && CallOf(pc).GetSecret? ==> Stored(w, CallOf(pc).key, r.secret)
    ensures HeldOk(w, a, Resume(pc, r))
  {
    hide URIsClean, SecretName;
  }

  lemma HeldLate(w: World, a: Ident, pc: PC, r: Reply)
    requires Calling(pc)
    requires !(pc.AddFinalizer? || pc.Discover? || pc.VetTarget? || pc.ReadOld? || pc.DropOld? || pc.VetSecret?)
    requires !pc.UpsertRead?
    ensures HeldOk(w, a, Resume(pc, r))
  {
    hide Matches, Converged, RegisteredName, Holds, Inherits, Stored;
  }

  /** Whatever the reply, the pass goes on holding such Secrets only. */
  lemma HeldResume(w: World, a: Ident, pc: PC, r: Reply)
    requires Calling(pc) && pc.oc.id == a
    requires r.TheSecret? && (CallOf(pc).GetSecret? || CallOf(pc).GetCachedSecret?) ==>
               Stored(w, CallOf(pc).key, r.secret)
    ensures HeldOk(w, a, Resume(pc, r))
  {
    hide AfterUpsertRead, HeldOk, Stored, SecretKeyOf;
    if pc.UpsertRead? {
      HeldAfterUpsertRead(w, a, pc.oc, pc.disc, pc.cred, None);
      if r.TheSecret? { HeldAfterUpsertRead(w, a, pc.oc, pc.disc, pc.cred, Some(r.secret)); }
      HeldFailed(w, a, pc.oc, pc.cred);
    } else if pc.AddFinalizer? || pc.Discover? || pc.VetTarget? || pc.ReadOld? || pc.DropOld? || pc.VetSecret? {
      HeldEarly(w, a, pc, r);
    } else {
      HeldLate(w, a, pc, r);
    }
  }

  lemma HeldFailed(w: World, a: Ident, oc: OIDCClient, cred: Option<Credentials>)
    ensures HeldOk(w, a, UpsertFailed(oc, cred))
  {
  }

  // ---------------------------------------------------------------- throughout a run

  ghost predicate SecretsOk(s: State) {
    && VersionsOk(s.w)
    && forall a | a in s.pcs :: HeldOk(s.w, a, s.pcs[a])
  }

  ghost predicate Inv2(s: State) {
    Inv(s) && SecretsOk(s)
  }

  lemma Apply2(s: State, act: Action)
    requires Inv2(s) && Enabled(s, act)
    ensures Inv2(Apply(s, act)) && Remembers(s.w, Apply(s, act).w)
  {
    hide Inv, SecretsOk, Apply, Enabled;
    ApplyOk(s, act);
    match act
    case Begin(me) => BeginHolds(s, me);
    case Step(me, fault, ch) => AdvanceHolds(s, me, fault, ch);
    case _ => DisturbHolds(s, act);
  }

  lemma BeginHolds(s: State, me: Ident)
    requires SecretsOk(s) && Enabled(s, Begin(me))
    ensures SecretsOk(Apply(s, Begin(me))) && Remembers(s.w, Apply(s, Begin(me)).w)
  {
    DispatchHolds(s.w, me);
    hide HeldOk, VersionsOk, Dispatch;
  }

  lemma DisturbHolds(s: State, act: Action)
    requires SecretsOk(s) && Enabled(s, act) && !act.Begin? && !act.Step?
    ensures SecretsOk(Apply(s, act)) && Remembers(s.w, Apply(s, act).w)
  {
    hide HeldOk, VersionsOk, Disturb;
    DisturbVersions(s, act);
    forall a | a in s.pcs ensures HeldOk(Apply(s, act).w, a, s.pcs[a]) {
      HeldKept(s.w, Apply(s, act).w, a, s.pcs[a]);
    }
  }

  lemma DispatchHolds(w: World, me: Ident)
    requires me in w.crs
    ensures HeldOk(w, me, Dispatch(w.crs[me]))
  {
  }

  lemma CallerIs(s: State, me: Ident)
    requires Inv(s) && me in s.pcs && Calling(s.pcs[me])
    ensures me in s.w.crs && s.pcs[me].oc.id == me
  {
  }

  lemma HeldFacts(s: State)
    requires Inv2(s)
    ensures VersionsOk(s.w) && forall a | a in s.pcs :: HeldOk(s.w, a, s.pcs[a])
  {
    hide Inv, VersionsOk, HeldOk;
  }

  lemma OwnHolds(w: World, w': World, me: Ident, pc: PC, r: Reply)
    requires Calling(pc) && pc.oc.id == me
    requires r.TheSecret? ==>
               (CallOf(pc).GetSecret? || CallOf(pc).GetCachedSecret?) && Stored(w', CallOf(pc).key, r.secret)
    ensures HeldOk(w', me, Resume(pc, r)) && HeldOk(w', me, Resume(pc, Failed)) && HeldOk(w, me, Resume(pc, Failed))
    ensures HeldOk(w, me, Idle(Crashed)) && HeldOk(w', me, Idle(Crashed))
  {
    hide Resume, CallOf, Stored, HeldOk;
    HeldResume(w', me, pc, r);
    HeldResume(w', me, pc, Failed);
    HeldResume(w, me, pc, Failed);
    IdleHolds(w, me);
    IdleHolds(w', me);
  }

  lemma SecretsAssembled(s: State, s': State, me: Ident)
    requires me in s.pcs && me in s'.pcs && s'.pcs == s.pcs[me := s'.pcs[me]]
    requires VersionsOk(s'.w) && Remembers(s.w, s'.w) && HeldOk(s'.w, me, s'.pcs[me])
    requires forall a | a in s.pcs :: HeldOk(s.w, a, s.pcs[a])
    ensures SecretsOk(s')
  {
    hide HeldOk, VersionsOk, Remembers;
    forall a | a in s.pcs ensures HeldOk(s'.w, a, s.pcs[a]) {
      HeldKept(s.w, s'.w, a, s.pcs[a]);
    }
  }

  lemma AdvanceHolds(s: State, me: Ident, fault: Fault, ch: Choice)
    requires Inv2(s) && Enabled(s, Step(me, fault, ch))
    ensures var s' := Apply(s, Step(me, fault, ch)); SecretsOk(s') && Remembers(s.w, s'.w)
  {
    StepOutcome(s, me, fault, ch);
    CallerIs(s, me);
    HeldFacts(s);
    hide Inv2, SecretsOk, Resume, Serve, CallOf, Allowed, HeldOk, VersionsOk, Apply, Enabled, Calling, Remembers;
    var (w', r) := Serve(s.w, me, CallOf(s.pcs[me]), ch);
    ServeVersions(s.w, me, CallOf(s.pcs[me]), ch);
    RemembersItself(s.w);
    OwnHolds(s.w, w', me, s.pcs[me], r);
    SecretsAssembled(s, Apply(s, Step(me, fault, ch)), me);
  }

  lemma RemembersItself(w: World)
    ensures Remembers(w, w)
  {
  }

  lemma IdleHolds(w: World, a: Ident)
    ensures forall o :: HeldOk(w, a, Idle(o))
  {
  }

  lemma {:induction false} Run2(s: State, acts: seq<Action>)
    requires Inv2(s) && Legal(s, acts)
    ensures Inv2(Exec(s, acts))
    decreases |acts|
  {
    if acts != [] {
      Apply2(s, acts[0]);
      hide Inv2, Apply, Enabled;
      Run2(Apply(s, acts[0]), acts[1..]);
    }
  }

  // ---------------------------------------------------------------- non-interference

  /** The change a pass of me may make: registrations issued for me; Secrets controller-owned by me
      at that very moment, and new ones; a deletion of a Secret with the very uid that this pass read
      as owned by me; no object but its own. */
  ghost predicate Confined(w: World, w': World, me: Ident, pc: PC) {
    && (forall id | id in w.clients && !Owned(w, id, me) :: id in w'.clients && w'.clients[id] == w.clients[id])
    && (forall id | id in w'.clients && id !in w.clients :: Owned(w', id, me))
    && (forall key | key in w'.secrets && (key in w.secrets ==> w'.secrets[key] != w.secrets[key]) ::
          && w'.secrets[key].owner == Some(me.uid)
          && (key in w.secrets ==>
                w.secrets[key].owner == Some(me.uid) && w'.secrets[key].uid == w.secrets[key].uid))
    && (forall key | key in w.secrets && key !in w'.secrets :: SawOwned(w, key, w.secrets[key].uid, me, pc))
    && (forall a | a in w.crs && a != me :: a in w'.crs && w'.crs[a] == w.crs[a])
  }

  lemma TargetsOwned(w: World, me: Ident, pc: PC)
    requires me in w.crs && PassOk(w, me, pc) && Calling(pc)
    ensures CallOf(pc).DeleteClient? || CallOf(pc).EditClient? ==> Owned(w, CallOf(pc).id, me)
    ensures CallOf(pc).UpdateObject? || CallOf(pc).UpdateStatus? ==> CallOf(pc).oc.id == me
  {
    hide Mine, Admitted, OnlyMine, Join, Normalise, RegisteredName;
  }

  lemma WritesOwned(w: World, me: Ident, pc: PC)
    requires HeldOk(w, me, pc) && Calling(pc) && pc.oc.id == me
    ensures var call := CallOf(pc);
            && (call.CreateSecret? ==> call.secret.owner == Some(me.uid))
            && (call.UpdateSecret? ==>
                  && call.secret.owner == Some(me.uid) && call.secret.rv in w.versions
                  && w.versions[call.secret.rv].secret.owner == Some(me.uid))
            && (call.DeleteSecret? ==> SawOwned(w, call.key, call.uid, me, pc))
  {
    hide Join, Normalise, RegisteredName, Trim;
  }

  predicate SecretWrite(call: Call) {
    call.CreateSecret? || call.UpdateSecret? || call.DeleteSecret?
  }

  /** A change at one Secret name alone. */
  ghost predicate AtKey(w: World, w': World, key: SecretKey) {
    && w'.crs == w.crs && w'.clients == w.clients && w'.issued == w.issued
    && w'.secrets - {key} == w.secrets - {key}
  }

  lemma AtKeyConfined(w: World, w': World, me: Ident, pc: PC, key: SecretKey)
    requires AtKey(w, w', key)
    requires key in w'.secrets ==> w'.secrets[key].owner == Some(me.uid)
    requires key in w'.secrets && key in w.secrets ==>
               w.secrets[key].owner == Some(me.uid) && w'.secrets[key].uid == w.secrets[key].uid
    requires key in w.secrets && key !in w'.secrets ==> SawOwned(w, key, w.secrets[key].uid, me, pc)
    ensures Confined(w, w', me, pc)
  {
    hide Owned, SawOwned;
    forall k | k != key ensures k in w'.secrets <==> k in w.secrets {
      assert k in w'.secrets - {key} <==> k in w.secrets - {key};
    }
    forall k | k != key && k in w.secrets ensures w'.secrets[k] == w.secrets[k] {
      assert (w'.secrets - {key})[k] == (w.secrets - {key})[k];
    }
  }

  lemma ServeSecretConfined(w: World, me: Ident, pc: PC, call: Call, ch: Choice)
    requires Allowed(w, call, ch) && VersionsOk(w) && SecretWrite(call)
    requires !call.DeleteSecret? ==> call.secret.owner == Some(me.uid)
    requires call.UpdateSecret? ==>
               call.secret.rv in w.versions && w.versions[call.secret.rv].secret.owner == Some(me.uid)
    requires call.DeleteSecret? ==> SawOwned(w, call.key, call.uid, me, pc)
    ensures Confined(w, Serve(w, me, call, ch).0, me, pc)
  {
    var w' := Serve(w, me, call, ch).0;
    if w' == w {
      ConfinedSame(w, me, pc);
    } else {
      if call.UpdateSecret? { assert Stored(w, call.key, w.secrets[call.key]); }
      hide SawOwned, Confined;
      assert AtKey(w, w', call.key);
      AtKeyConfined(w, w', me, pc, call.key);
    }
  }

  lemma ObjectServed(w: World, me: Ident, call: Call, ch: Choice)
    requires (call.UpdateObject? || call.UpdateStatus?) && call.oc.id == me && Allowed(w, call, ch)
    requires forall a | a in w.crs :: w.crs[a].id == a
    ensures var w' := Serve(w, me, call, ch).0;
            && w'.secrets == w.secrets && w'.clients == w.clients
            && forall a | a in w.crs && a != me :: a in w'.crs && w'.crs[a] == w.crs[a]
  {
  }

  lemma ObjectConfined(w: World, me: Ident, pc: PC, call: Call, ch: Choice)
    requires (call.UpdateObject? || call.UpdateStatus?) && call.oc.id == me && Allowed(w, call, ch)
    requires forall a | a in w.crs :: w.crs[a].id == a
    ensures Confined(w, Serve(w, me, call, ch).0, me, pc)
  {
    ObjectServed(w, me, call, ch);
    hide Serve, Allowed, SawOwned, Owned;
  }

  lemma ClientConfined(w: World, me: Ident, pc: PC, call: Call, ch: Choice)
    requires (call.DeleteClient? || call.EditClient?) && Owned(w, call.id, me) && Allowed(w, call, ch)
    ensures Confined(w, Serve(w, me, call, ch).0, me, pc)
  {
    hide SawOwned, EditAccepts, FormURIs, Trim;
    var w' := Serve(w, me, call, ch).0;
    assert w'.secrets == w.secrets && w'.crs == w.crs;
  }

  lemma RegisterConfined(w: World, me: Ident, pc: PC, call: Call, ch: Choice)
    requires call.RegisterClient? && Allowed(w, call, ch) && w.clients.Keys <= w.issued.Keys
    ensures Confined(w, Serve(w, me, call, ch).0, me, pc)
  {
    hide SawOwned;
    var w' := Serve(w, me, call, ch).0;
    assert w'.secrets == w.secrets && w'.crs == w.crs;
  }

  predicate OnlyReads(call: Call) {
    call.GetSecret? || call.GetCachedSecret? || call.GetDiscovery? || call.ListClients? || call.GetClient?
  }

  lemma ReadsChangeNothing(w: World, me: Ident, call: Call, ch: Choice)
    requires OnlyReads(call) && Allowed(w, call, ch)
    ensures Serve(w, me, call, ch).0 == w
  {
    hide Listing;
  }

  lemma ServeRestConfined(w: World, me: Ident, pc: PC, call: Call, ch: Choice)
    requires Allowed(w, call, ch) && w.clients.Keys <= w.issued.Keys && !SecretWrite(call)
    requires call.DeleteClient? || call.EditClient? ==> Owned(w, call.id, me)
    requires call.UpdateObject? || call.UpdateStatus? ==> call.oc.id == me
    requires forall a | a in w.crs :: w.crs[a].id == a
    ensures Confined(w, Serve(w, me, call, ch).0, me, pc)
  {
    hide Serve, Allowed, Confined, Owned;
    if call.UpdateObject? || call.UpdateStatus? {
      ObjectConfined(w, me, pc, call, ch);
    } else if call.DeleteClient? || call.EditClient? {
      ClientConfined(w, me, pc, call, ch);
    } else if call.RegisterClient? {
      RegisterConfined(w, me, pc, call, ch);
    } else {
      ReadsChangeNothing(w, me, call, ch);
      ConfinedSame(w, me, pc);
    }
  }

  lemma CallConfined(s: State, me: Ident, ch: Choice)
    requires Inv2(s) && me in s.pcs && Calling(s.pcs[me]) && Allowed(s.w, CallOf(s.pcs[me]), ch)
    ensures Confined(s.w, Serve(s.w, me, CallOf(s.pcs[me]), ch).0, me, s.pcs[me])
  {
    CallerIs(s, me);
    var w, pc := s.w, s.pcs[me];
    TargetsOwned(w, me, pc);
    WritesOwned(w, me, pc);
    hide CallOf, Resume, Serve, HeldOk, PassOk, ObjectOk, Mine, Allowed, Confined, VersionsOk, Admitted, SameMark;
    if SecretWrite(CallOf(pc)) {
      ServeSecretConfined(w, me, pc, CallOf(pc), ch);
    } else {
      ServeRestConfined(w, me, pc, CallOf(pc), ch);
    }
  }

  lemma RegistryFits(s: State)
    requires Inv2(s)
    ensures RegistryOk(s.w)
  {
    hide ObjectOk, PassOk, SecretsOk, Distinct, Mine;
  }

  lemma StepConfined(s: State, me: Ident, fault: Fault, ch: Choice)
    requires Inv2(s) && Enabled(s, Step(me, fault, ch))
    ensures var w' := Apply(s, Step(me, fault, ch)).w;
            && Confined(s.w, w', me, s.pcs[me])
            && forall b, id | b in s.w.crs && b != me && id in Mine(s.w.clients, b) ::
                 id in w'.clients && w'.clients[id] == s.w.clients[id]
  {
    StepOutcome(s, me, fault, ch);
    CallConfined(s, me, ch);
    RegistryFits(s);
    hide *;
    ConfinedSame(s.w, me, s.pcs[me]);
    ConfinedMarks(s.w, Apply(s, Step(me, fault, ch)).w, me, s.pcs[me]);
  }

  lemma InitialHolds(s: State)
    requires Initial(s) && VersionsOk(s.w)
    ensures Inv2(s)
  {
    InitialOk(s);
    assert forall a | a in s.pcs :: s.pcs[a].Idle?;
  }

  /** Non-interference: in every run, whatever has happened so far, a step of one object's pass is
      confined to what is its own. In particular the registrations carrying another object's
      fingerprint stay as they are, even while the two objects name the same Secret. */
  lemma NonInterference(s0: State, acts: seq<Action>, me: Ident, fault: Fault, ch: Choice)
    requires Initial(s0) && VersionsOk(s0.w) && Legal(s0, acts) && Enabled(Exec(s0, acts), Step(me, fault, ch))
    ensures var s := Exec(s0, acts);
            var w' := Apply(s, Step(me, fault, ch)).w;
            && Confined(s.w, w', me, s.pcs[me])
            && forall b, id | b in s.w.crs && b != me && id in Mine(s.w.clients, b) ::
                 id in w'.clients && w'.clients[id] == s.w.clients[id]
  {
    hide Exec, Legal, Initial, VersionsOk, Inv2, Enabled, Apply, Confined, Mine;
    InitialHolds(s0);
    Run2(s0, acts);
    StepConfined(Exec(s0, acts), me, fault, ch);
  }

  lemma ConfinedSame(w: World, me: Ident, pc: PC)
    ensures Confined(w, w, me, pc)
  {
  }

  lemma ConfinedMarks(w: World, w': World, me: Ident, pc: PC)
    requires RegistryOk(w) && Confined(w, w', me, pc)
    ensures forall b, id | b in w.crs && b != me && id in Mine(w.clients, b) ::
              id in w'.clients && w'.clients[id] == w.clients[id]
  {
    forall b, id | b in w.crs && b != me && id in Mine(w.clients, b)
      ensures id in w'.clients && w'.clients[id] == w.clients[id]
    {
      assert Owned(w, id, b);
    }
  }
}
