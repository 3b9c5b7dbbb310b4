/** Credential stability: under InPlace or Block nothing the operator does, or fails to do, ever
    changes the credentials of a working object. */
module Stability {
  import opened Text
  import opened Types
  import opened Naming
  import opened Tsidp
  import opened Secrets
  import opened Cluster
  import opened Safety
  import opened Ownership

  /** The client c of object a, its secret k, and the name of the Secret they are kept in. */
  datatype Anchor = Anchor(a: Ident, c: string, k: string, name: string)
  {
    function Key(): SecretKey { SecretKey(a.ns, name) }
  }

  predicate NoOther(id: string, x: Anchor) {
    id == "" || id == x.c
  }

  /** The spec keeps the Secret's name and never recreates. */
  predicate Steady(spec: Spec, x: Anchor) {
    SecretName(x.a, spec) == x.name && spec.updatePolicy != Recreate
  }

  predicate SteadyObject(oc: OIDCClient, x: Anchor) {
    && !oc.deleting && Steady(oc.spec, x)
    && NoOther(oc.status.clientID, x)
    && (oc.status.secretName == "" || oc.status.secretName == x.name)
  }

  /** The Secret holds the pair and is owned by a, and always was. */
  ghost predicate Kept(w: World, x: Anchor) {
    && x.c != "" && x.k != ""
    && x.Key() in w.secrets
    && var s := w.secrets[x.Key()];
       && s.owner == Some(x.a.uid)
       && Lookup(s.data, CLIENT_ID) == Some(x.c) && Lookup(s.data, CLIENT_SECRET) == Some(x.k)
       && forall r | r in w.versions && w.versions[r].key == x.Key() && w.versions[r].secret.uid == s.uid ::
            w.versions[r].secret.owner == Some(x.a.uid)
  }

  /** The registration is live with its secret and carries a's fingerprint. */
  ghost predicate Alive(clients: map<string, Registration>, x: Anchor) {
    x.c in Mine(clients, x.a) && clients[x.c].secret == x.k
  }

  /** Where a pass of a can stand. */
  predicate SteadyPass(pc: PC, x: Anchor) {
    !pc.Idle? ==>
      && SteadyObject(pc.oc, x)
      && match pc
         case AddFinalizer(_) => true
         case Discover(_) => true
         case VetSecret(_, _) => true
         case ListForAdoption(_, _, held) => held.Some? && Holds(held.value, x.c)
         case UpsertRead(_, _, cred) => cred.None?
         case UpsertWrite(_, cred, _, _) => cred.None?
         case ReadRemote(oc, _) => oc.status.clientID == x.c
         case CheckSecret(oc, _, _) => oc.status.clientID == x.c
         case EditRemote(oc, _) => oc.status.clientID == x.c
         case VerifyEdit(oc, _) => oc.status.clientID == x.c
         case PutStatus(_, _) => true
         case _ => false
  }

  ghost predicate Anchored(s: State, x: Anchor) {
    && x.a in s.w.crs && x.a in s.pcs
    && SteadyObject(s.w.crs[x.a], x)
    && Kept(s.w, x) && Alive(s.w.clients, x)
    && SteadyPass(s.pcs[x.a], x)
  }

  /** The environment leaves the Secret alone, does not delete the object, keeps its Secret name
      and its policy, loses no data of the client and leaves its fingerprint in its name. Specs may
      change in every other way. */
  ghost predicate Calm(w: World, act: Action, x: Anchor) {
    match act
    case EditSpec(a, spec) => a == x.a ==> Steady(spec, x)
    case MarkDeleted(a) => a != x.a
    case StoreSecret(key, _) => key != x.Key()
    case RemoveSecret(key) => key != x.Key()
    case AdminEdit(id, name, _) => id == x.c ==> Carries(name, x.a)
    case LoseClients(ids) => x.c !in ids
    case _ => true
  }

  // ---------------------------------------------------------------- the pass

  lemma SteadyBegin(oc: OIDCClient, x: Anchor)
    requires SteadyObject(oc, x)
    ensures SteadyPass(Dispatch(oc), x)
  {
    hide URIsClean;
  }

  /** The replies a calm world gives. */
  ghost predicate CalmReply(pc: PC, r: Reply, x: Anchor) {
    && (pc.VetSecret? ==> r.Failed? || (r.TheSecret? && r.secret.owner == Some(x.a.uid) && Holds(r.secret, x.c)))
    && (pc.CheckSecret? ==> r.Failed? || (r.TheSecret? && Holds(r.secret, x.c)))
    && (pc.ReadRemote? ==> !r.Missing?)
    && (pc.ListForAdoption? ==>
          r.Failed? || (r.Clients? && Matches(r.entries, x.a) != [] && Matches(r.entries, x.a)[0] == x.c))
    && (pc.AddFinalizer? && r.Object? ==> SteadyObject(r.oc, x))
  }

  lemma SteadyResume(pc: PC, r: Reply, x: Anchor)
    requires Calling(pc) && SteadyPass(pc, x) && pc.oc.id == x.a && CalmReply(pc, r, x) && x.c != ""
    requires pc.AddFinalizer? && r.Object? ==> r.oc.id == x.a
    ensures SteadyPass(Resume(pc, r), x)
  {
    hide URIsClean, Matches, Holds, Wanted, Converged, RegisteredName;
  }

  /** The world answers that way: a listing matches the one client only. */
  lemma CalmListing(w: World, oc: OIDCClient, d: Discovery, held: Option<Secret>, ch: Choice, x: Anchor)
    requires x.a in w.crs && ObjectOk(w, x.a) && Alive(w.clients, x)
    requires Allowed(w, ListClients, ch)
    ensures CalmReply(ListForAdoption(oc, d, held), Serve(w, x.a, ListClients, ch).1, x)
  {
    MatchesMine(w.clients, ch.listing, x.a);
    hide Matches, Mine, Recorded;
    var m := Matches(ch.listing, x.a);
    assert x.c in m;
    assert m[0] in m;
  }

  /** The reads find the Secret and the client. */
  lemma CalmReads(w: World, pc: PC, ch: Choice, x: Anchor)
    requires (pc.VetSecret? || pc.CheckSecret? || pc.ReadRemote?) && SteadyPass(pc, x)
    requires x.a in w.crs && pc.oc.id == x.a && Kept(w, x) && Alive(w.clients, x)
    ensures Allowed(w, CallOf(pc), ch) && CalmReply(pc, Serve(w, x.a, CallOf(pc), ch).1, x)
  {
    hide Carries;
  }

  lemma CalmFinalizer(w: World, oc: OIDCClient, ch: Choice, x: Anchor)
    requires x.a in w.crs && w.crs[x.a].id == x.a && CopyOk(w, x.a, oc)
    requires SteadyObject(w.crs[x.a], x) && SteadyPass(AddFinalizer(oc), x)
    ensures var r := Serve(w, x.a, CallOf(AddFinalizer(oc)), ch).1;
            CalmReply(AddFinalizer(oc), r, x) && (r.Object? ==> r.oc.id == x.a)
  {
    hide Admitted;
  }

  lemma CalmOther(pc: PC, r: Reply, x: Anchor)
    requires !pc.VetSecret? && !pc.CheckSecret? && !pc.ReadRemote? && !pc.ListForAdoption? && !pc.AddFinalizer?
    ensures CalmReply(pc, r, x)
  {
  }

  lemma CalmFailed(pc: PC, x: Anchor)
    ensures CalmReply(pc, Failed, x)
  {
  }

  lemma PassFacts(w: World, a: Ident, pc: PC)
    requires a in w.crs && PassOk(w, a, pc) && Calling(pc)
    ensures CopyOk(w, a, pc.oc) && pc.oc.id == a
    ensures pc.EditRemote? ==> Owned(w, pc.oc.status.clientID, a)
  {
  }

  lemma KeptNamed(w: World, x: Anchor)
    requires Kept(w, x)
    ensures x.c != ""
  {
  }

  lemma ObjectNamed(w: World, a: Ident)
    requires WorldOk(w) && a in w.crs
    ensures w.crs[a].id == a
  {
  }

  lemma CalmServe(w: World, pc: PC, ch: Choice, x: Anchor)
    requires WorldOk(w) && x.a in w.crs && ObjectOk(w, x.a) && PassOk(w, x.a, pc)
    requires SteadyObject(w.crs[x.a], x) && Kept(w, x) && Alive(w.clients, x)
    requires Calling(pc) && SteadyPass(pc, x) && Allowed(w, CallOf(pc), ch)
    ensures var r := Serve(w, x.a, CallOf(pc), ch).1;
            CalmReply(pc, r, x) && (pc.AddFinalizer? && r.Object? ==> r.oc.id == x.a)
    ensures pc.oc.id == x.a && x.c != ""
  {
    hide *;
    PassFacts(w, x.a, pc);
    KeptNamed(w, x);
    ObjectNamed(w, x.a);
    match pc
    case ListForAdoption(oc, d, held) => ListCall(oc, d, held); CalmListing(w, oc, d, held, ch, x);
    case AddFinalizer(oc) => CalmFinalizer(w, oc, ch, x);
    case VetSecret(_, _) => CalmReads(w, pc, ch, x);
    case CheckSecret(_, _, _) => CalmReads(w, pc, ch, x);
    case ReadRemote(_, _) => CalmReads(w, pc, ch, x);
    case _ => CalmOther(pc, Serve(w, x.a, CallOf(pc), ch).1, x);
  }

  /** One step of a's own pass: the pass stays where it belongs, heard or not. */
  lemma SteadyStep(w: World, pc: PC, ch: Choice, x: Anchor)
    requires WorldOk(w) && x.a in w.crs && ObjectOk(w, x.a) && PassOk(w, x.a, pc)
    requires SteadyObject(w.crs[x.a], x) && Kept(w, x) && Alive(w.clients, x)
    requires Calling(pc) && SteadyPass(pc, x) && Allowed(w, CallOf(pc), ch)
    ensures var r := Serve(w, x.a, CallOf(pc), ch).1;
            SteadyPass(Resume(pc, r), x) && SteadyPass(Resume(pc, Failed), x)
  {
    hide Resume, Serve, CallOf, SteadyPass, PassOk, ObjectOk, CalmReply, Alive, SteadyObject, WorldOk, Allowed, Kept;
    CalmServe(w, pc, ch, x);
    CalmFailed(pc, x);
    SteadyResume(pc, Serve(w, x.a, CallOf(pc), ch).1, x);
    SteadyResume(pc, Failed, x);
  }

  lemma ListCall(oc: OIDCClient, d: Discovery, held: Option<Secret>)
    ensures CallOf(ListForAdoption(oc, d, held)) == ListClients
  {
  }

  // ---------------------------------------------------------------- the stores

  /** The carried name of an edit by a. */
  lemma OwnNameCarries(a: Ident, spec: Spec)
    requires ValidIdent(a) && Admitted(spec)
    ensures Carries(RegisteredName(a, spec), a) && Trim(RegisteredName(a, spec)) == RegisteredName(a, spec)
  {
    RegisteredNameTrimmed(a, spec);
    FingerprintExact(a, spec, a);
  }

  lemma OwnServe(w: World, pc: PC, ch: Choice, x: Anchor)
    requires WorldOk(w) && VersionsOk(w) && x.a in w.crs && PassOk(w, x.a, pc) && HeldOk(w, x.a, pc)
    requires SteadyObject(w.crs[x.a], x) && Kept(w, x) && Alive(w.clients, x)
    requires Calling(pc) && SteadyPass(pc, x) && Allowed(w, CallOf(pc), ch)
    ensures var w' := Serve(w, x.a, CallOf(pc), ch).0;
            x.a in w'.crs && SteadyObject(w'.crs[x.a], x) && Kept(w', x) && Alive(w'.clients, x)
  {
    PassFacts(w, x.a, pc);
    OwnNameCarries(x.a, pc.oc.spec);
    hide Carries, Admitted, RegistryOk, SameMark, PassOk, Resume, RegisteredName, Trim, Join, Normalise, FormURIs,
      EditAccepts;
    if pc.UpsertWrite? {
      OwnWrite(w, pc, ch, x);
    } else if pc.AddFinalizer? || pc.PutStatus? {
      OwnObject(w, pc, ch, x);
    } else {
      OwnRest(w, pc, ch, x);
    }
  }

  lemma OwnWrite(w: World, pc: PC, ch: Choice, x: Anchor)
    requires VersionsOk(w) && x.a in w.crs && pc.UpsertWrite? && pc.oc.id == x.a && HeldOk(w, x.a, pc)
    requires Kept(w, x) && SteadyPass(pc, x) && Allowed(w, CallOf(pc), ch)
    ensures var w' := Serve(w, x.a, CallOf(pc), ch).0;
            w'.crs == w.crs && w'.clients == w.clients && Kept(w', x)
  {
    assert Stored(w, x.Key(), w.secrets[x.Key()]);
    assert SecretKeyOf(pc.oc) == x.Key();
    hide SecretName, SecretKeyOf;
  }

  lemma OwnObject(w: World, pc: PC, ch: Choice, x: Anchor)
    requires x.a in w.crs && w.crs[x.a].id == x.a && (pc.AddFinalizer? || pc.PutStatus?) && CopyOk(w, x.a, pc.oc)
    requires SteadyObject(w.crs[x.a], x) && Kept(w, x) && SteadyPass(pc, x) && Allowed(w, CallOf(pc), ch)
    ensures var w' := Serve(w, x.a, CallOf(pc), ch).0;
            x.a in w'.crs && SteadyObject(w'.crs[x.a], x) && Kept(w', x) && w'.clients == w.clients
  {
    hide SecretName, Lookup, Admitted;
  }

  lemma OwnRest(w: World, pc: PC, ch: Choice, x: Anchor)
    requires x.a in w.crs && !pc.UpsertWrite? && !pc.AddFinalizer? && !pc.PutStatus? && Calling(pc) && pc.oc.id == x.a
    requires var n := RegisteredName(x.a, pc.oc.spec); Carries(n, x.a) && Trim(n) == n
    requires SteadyObject(w.crs[x.a], x) && Kept(w, x) && Alive(w.clients, x)
    requires SteadyPass(pc, x) && Allowed(w, CallOf(pc), ch)
    ensures var w' := Serve(w, x.a, CallOf(pc), ch).0;
            w'.crs == w.crs && Kept(w', x) && Alive(w'.clients, x)
  {
    hide SecretName, Lookup, Carries, RegisteredName, Trim, Join, Normalise, FormURIs, EditAccepts, Listing;
  }

  /** A step of another object's pass, confined to what is that object's, leaves the anchor be. */
  lemma OtherServe(w: World, w': World, me: Ident, pc: PC, x: Anchor)
    requires WorldOk(w) && VersionsOk(w) && x.a in w.crs && me in w.crs && me != x.a
    requires Confined(w, w', me, pc) && Versioned(w, w', me) && Remembers(w, w')
    requires SteadyObject(w.crs[x.a], x) && Kept(w, x) && Alive(w.clients, x)
    ensures x.a in w'.crs && SteadyObject(w'.crs[x.a], x) && Kept(w', x) && Alive(w'.clients, x)
  {
    hide Carries, Admitted, SameMark, SecretName, ValidIdent;
    assert Owned(w, x.c, x.a) && !Owned(w, x.c, me);
    var key := x.Key();
    var s := w.secrets[key];
    assert !SawOwned(w, key, s.uid, me, pc);
    assert key in w'.secrets;
    assert w'.secrets[key] == s;
    forall r | r in w'.versions && w'.versions[r].key == key && w'.versions[r].secret.uid == s.uid
      ensures w'.versions[r].secret.owner == Some(x.a.uid)
    {
      if r in w.versions {
        assert w'.versions[r] == w.versions[r];
      }
    }
  }

  /** What me's pass adds to the versions: only what is now stored. */
  ghost predicate Versioned(w: World, w': World, me: Ident) {
    forall r | r in w'.versions && r !in w.versions ::
      var v := w'.versions[r];
      v.key in w'.secrets && w'.secrets[v.key] == v.secret
      && (v.key in w.secrets ==> w.secrets[v.key].rv in w.versions)
      && (v.key in w.secrets ==> w'.secrets[v.key] != w.secrets[v.key])
  }

  lemma ServeVersioned(w: World, me: Ident, call: Call, ch: Choice)
    requires VersionsOk(w) && Allowed(w, call, ch)
    ensures Versioned(w, Serve(w, me, call, ch).0, me)
  {
    hide Listing, Edited;
    if call.UpdateSecret? && call.key in w.secrets {
      assert Stored(w, call.key, w.secrets[call.key]);
    }
    if call.CreateSecret? && call.key in w.secrets {
      assert Stored(w, call.key, w.secrets[call.key]);
    }
  }

  lemma CalmDisturb(s: State, act: Action, x: Anchor)
    requires Inv2(s) && Anchored(s, x) && Enabled(s, act) && !act.Begin? && !act.Step? && Calm(s.w, act, x)
    ensures Anchored(Apply(s, act), x)
  {
    assert s.w.crs[x.a].id == x.a;
    assert RegistryOk(s.w);
    hide Inv, SteadyPass, Kept, Alive, SteadyObject, Disturb, VersionsOk, HeldOk, RegistryOk;
    CalmKept(s.w, s, act, x);
    CalmAlive(s, act, x);
    CalmObject(s, act, x);
  }

  lemma CalmKept(w: World, s: State, act: Action, x: Anchor)
    requires s.w == w && Kept(w, x) && Enabled(s, act) && !act.Begin? && !act.Step? && Calm(w, act, x)
    ensures Kept(Disturb(w, act), x)
  {
    hide Carries, Admitted, Contains, Lookup, Steady;
  }

  lemma CalmAlive(s: State, act: Action, x: Anchor)
    requires RegistryOk(s.w) && Alive(s.w.clients, x) && Enabled(s, act) && !act.Begin? && !act.Step?
              && Calm(s.w, act, x)
    ensures Alive(Disturb(s.w, act).clients, x)
  {
    hide Carries, Admitted, Contains, Steady;
    assert x.c in s.w.issued;
  }

  lemma CalmObject(s: State, act: Action, x: Anchor)
    requires x.a in s.w.crs && SteadyObject(s.w.crs[x.a], x) && s.w.crs[x.a].id == x.a
    requires Enabled(s, act) && !act.Begin? && !act.Step? && Calm(s.w, act, x)
    ensures x.a in Disturb(s.w, act).crs && SteadyObject(Disturb(s.w, act).crs[x.a], x)
  {
    hide Carries, Admitted, Contains, SecretName;
  }

  lemma OwnFacts(s: State, a: Ident)
    requires Inv2(s) && a in s.w.crs && a in s.pcs
    ensures WorldOk(s.w) && ObjectOk(s.w, a) && PassOk(s.w, a, s.pcs[a]) && VersionsOk(s.w) && HeldOk(s.w, a, s.pcs[a])
  {
    hide WorldOk, ObjectOk, PassOk, VersionsOk, HeldOk;
  }

  lemma CalmOwnStep(s: State, fault: Fault, ch: Choice, x: Anchor)
    requires Inv2(s) && Anchored(s, x) && Enabled(s, Step(x.a, fault, ch))
    ensures Anchored(Apply(s, Step(x.a, fault, ch)), x)
  {
    var w, pc := s.w, s.pcs[x.a];
    StepOutcome(s, x.a, fault, ch);
    OwnFacts(s, x.a);
    hide Inv2, Serve, CallOf, Resume, Allowed, SteadyObject, Kept, Alive, SteadyPass, PassOk, ObjectOk, WorldOk,
      VersionsOk,
      HeldOk, Apply, Enabled;
    SteadyStep(w, pc, ch, x);
    OwnServe(w, pc, ch, x);
    SteadyIdle(x);
  }

  lemma OtherEffect(s: State, me: Ident, ch: Choice)
    requires Inv2(s) && Enabled(s, Step(me, CrashAfter, ch))
    ensures var w' := Serve(s.w, me, CallOf(s.pcs[me]), ch).0;
            Confined(s.w, w', me, s.pcs[me]) && Versioned(s.w, w', me) && Remembers(s.w, w')
  {
    StepOutcome(s, me, CrashAfter, ch);
    assert VersionsOk(s.w) by { hide Inv, HeldOk, VersionsOk; }
    hide *;
    CallConfined(s, me, ch);
    ServeVersioned(s.w, me, CallOf(s.pcs[me]), ch);
    ServeVersions(s.w, me, CallOf(s.pcs[me]), ch);
  }

  lemma CalmOtherStep(s: State, me: Ident, fault: Fault, ch: Choice, x: Anchor)
    requires Inv2(s) && Anchored(s, x) && Enabled(s, Step(me, fault, ch)) && me != x.a
    ensures Anchored(Apply(s, Step(me, fault, ch)), x)
  {
    hide Serve, CallOf, Resume, Allowed, SteadyObject, Kept, Alive, SteadyPass, PassOk, ObjectOk, WorldOk,
      VersionsOk, HeldOk,
      Confined, Versioned, Remembers;
    OtherEffect(s, me, ch);
    OtherServe(s.w, Serve(s.w, me, CallOf(s.pcs[me]), ch).0, me, s.pcs[me], x);
  }

  lemma CalmStep(s: State, me: Ident, fault: Fault, ch: Choice, x: Anchor)
    requires Inv2(s) && Anchored(s, x) && Enabled(s, Step(me, fault, ch))
    ensures Anchored(Apply(s, Step(me, fault, ch)), x)
  {
    hide Inv2, Anchored, Enabled, Apply;
    if me == x.a {
      CalmOwnStep(s, fault, ch, x);
    } else {
      CalmOtherStep(s, me, fault, ch, x);
    }
  }

  lemma SteadyIdle(x: Anchor)
    ensures SteadyPass(Idle(Crashed), x)
  {
  }

  lemma CalmApply(s: State, act: Action, x: Anchor)
    requires Inv2(s) && Anchored(s, x) && Enabled(s, act) && Calm(s.w, act, x)
    ensures Anchored(Apply(s, act), x)
  {
    match act
    case Begin(me) =>
      if me == x.a { SteadyBegin(s.w.crs[me], x); }
      hide Dispatch, SteadyPass, SteadyObject, Kept, Alive, Inv2;
    case Step(me, fault, ch) =>
      CalmStep(s, me, fault, ch, x);
    case _ =>
      CalmDisturb(s, act, x);
  }

  ghost predicate CalmRun(s: State, acts: seq<Action>, x: Anchor)
    requires Legal(s, acts)
    decreases |acts|
  {
    acts != [] ==> Calm(s.w, acts[0], x) && CalmRun(Apply(s, acts[0]), acts[1..], x)
  }

  lemma {:induction false} CalmExec(s: State, acts: seq<Action>, x: Anchor)
    requires Inv2(s) && Anchored(s, x) && Legal(s, acts) && CalmRun(s, acts, x)
    ensures Anchored(Exec(s, acts), x)
    decreases |acts|
  {
    if acts != [] {
      Apply2(s, acts[0]);
      CalmApply(s, acts[0], x);
      hide Inv2, Anchored, Apply, Enabled, Calm;
      CalmExec(Apply(s, acts[0]), acts[1..], x);
    }
  }

  /** Credential stability: once, at whatever moment of whatever run, the Secret holds the live
      registration's pair, any continuation with policy InPlace or Block, through every spec edit
      that keeps the Secret's name, every fault and every crash, keeps client id and client secret
      in Secret and registry as they are, and the status never names another client. */
  lemma CredentialStability(s0: State, before: seq<Action>, acts: seq<Action>, x: Anchor)
    requires Initial(s0) && VersionsOk(s0.w) && Legal(s0, before)
    requires var s := Exec(s0, before); Anchored(s, x) && Legal(s, acts) && CalmRun(s, acts, x)
    ensures var w := Exec(Exec(s0, before), acts).w;
            && x.Key() in w.secrets
            && Lookup(w.secrets[x.Key()].data, CLIENT_ID) == Some(x.c)
            && Lookup(w.secrets[x.Key()].data, CLIENT_SECRET) == Some(x.k)
            && x.c in w.clients && w.clients[x.c].secret == x.k && Carries(w.clients[x.c].name, x.a)
            && x.a in w.crs && (w.crs[x.a].status.clientID == "" || w.crs[x.a].status.clientID == x.c)
  {
    hide Exec, Legal, CalmRun, Carries, SteadyPass, Inv2, Initial, VersionsOk;
    InitialHolds(s0);
    Run2(s0, before);
    CalmExec(Exec(s0, before), acts, x);
  }
}
