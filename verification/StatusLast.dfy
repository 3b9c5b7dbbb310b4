/** The status is written last: it names a client only once the Secret holds that client's pair. */
module StatusLast {
  import opened Text
  import opened Types
  import opened Naming
  import opened Tsidp
  import opened Secrets
  import opened Cluster
  import opened Safety
  import opened Ownership
  import opened Credentials

  /** A Secret owned by a was stored under the key with the pair of the client. */
  ghost predicate HadPairAt(w: World, a: Ident, key: SecretKey, id: string) {
    exists r :: r in w.versions && w.versions[r].key == key
             && w.versions[r].secret.owner == Some(a.uid) && Holds(w.versions[r].secret, id)
  }

  /** A client that the pass names and the persisted status does not has its pair in the Secret
      under the wanted name. */
  ghost predicate Backed(w: World, a: Ident, pc: PC) {
    !pc.Idle? && pc.oc.status.clientID != "" && (a in w.crs ==> pc.oc.status.clientID != w.crs[a].status.clientID) ==>
      HadPairAt(w, a, SecretKeyOf(pc.oc), pc.oc.status.clientID)
  }

  ghost predicate BackedOk(s: State) {
    forall a | a in s.pcs :: Backed(s.w, a, s.pcs[a])
  }

  lemma StillHadPair(w: World, w': World, a: Ident, key: SecretKey, id: string)
    requires Remembers(w, w') && HadPairAt(w, a, key, id)
    ensures HadPairAt(w', a, key, id)
  {
    var r :| r in w.versions && w.versions[r].key == key
          && w.versions[r].secret.owner == Some(a.uid) && Holds(w.versions[r].secret, id);
    assert r in w'.versions && w'.versions[r] == w.versions[r];
  }

  lemma StillBacked(w: World, w': World, a: Ident, pc: PC)
    requires Backed(w, a, pc) && Remembers(w, w') && a in w.crs && a in w'.crs
    requires w'.crs[a].status == w.crs[a].status || (!pc.Idle? && w'.crs[a].status == pc.oc.status)
    ensures Backed(w', a, pc)
  {
    hide SecretKeyOf, HadPairAt, Remembers;
    if !pc.Idle? && pc.oc.status.clientID != "" && pc.oc.status.clientID != w'.crs[a].status.clientID {
      StillHadPair(w, w', a, SecretKeyOf(pc.oc), pc.oc.status.clientID);
    }
  }

  /** A pass keeps object and spec while it lasts, except when it rereads the object. */
  lemma SameSpec(pc: PC, r: Reply)
    requires Calling(pc) && !pc.AddFinalizer?
    ensures var pc' := Resume(pc, r); !pc'.Idle? ==> pc'.oc.id == pc.oc.id && pc'.oc.spec == pc.oc.spec
  {
    hide Converged, RegisteredName, SecretName, URIsClean, Wanted, Holds, Trim, Normalise, Matches;
  }

  lemma BackedResume(w: World, a: Ident, pc: PC, r: Reply)
    requires Calling(pc) && pc.oc.id == a && Backed(w, a, pc) && HeldOk(w, a, pc)
    requires pc.AddFinalizer? && r.Object? ==> a in w.crs && r.oc.status == w.crs[a].status
    requires pc.UpsertWrite? && r.Done? && pc.cred.Some? ==> HadPairAt(w, a, SecretKeyOf(pc.oc), pc.cred.value.id)
    requires pc.UpsertRead? && pc.cred.Some? && r.TheSecret? && r.secret.owner == Some(a.uid) ==>
               Wanted(r.secret, pc.oc, pc.disc, pc.cred) != r.secret
    ensures Backed(w, a, Resume(pc, r))
  {
    NamedClient(pc, r);
    if !pc.AddFinalizer? { SameSpec(pc, r); }
    if pc.ListForAdoption? && pc.held.Some? {
      assert w.versions[pc.held.value.rv] == Version(SecretKeyOf(pc.oc), pc.held.value);
    }
    if pc.UpsertRead? || pc.UpsertWrite? { UpsertEnds(pc, r); }
    hide Resume, Wanted, Holds, Inherits, AfterUpsert;
    if pc.UpsertRead? || pc.UpsertWrite? {
      if pc.cred.Some? { AfterUpsertNames(pc.oc, pc.cred.value); }
    }
  }

  lemma UpsertEnds(pc: PC, r: Reply)
    requires pc.UpsertRead? || pc.UpsertWrite?
    ensures pc.cred.Some? && Resume(pc, r) == AfterUpsert(pc.oc, pc.cred) ==>
              || (pc.UpsertWrite? && r.Done?)
              || (pc.UpsertRead? && r.TheSecret? && r.secret.owner == Some(pc.oc.id.uid)
                  && Wanted(r.secret, pc.oc, pc.disc, pc.cred) == r.secret)
  {
  }

  lemma AfterUpsertNames(oc: OIDCClient, c: Tsidp.Credentials)
    ensures var pc := AfterUpsert(oc, Some(c));
            pc.PutStatus? && pc.oc.status.clientID == c.id && pc.oc.id == oc.id && pc.oc.spec == oc.spec
  {
  }

  // ---------------------------------------------------------------- throughout a gentle run

  lemma BackedFailed(w: World, a: Ident, pc: PC)
    requires Calling(pc) && pc.oc.id == a && Backed(w, a, pc) && HeldOk(w, a, pc)
    ensures Backed(w, a, Resume(pc, Failed))
  {
    hide Resume, Backed, HeldOk, CallOf;
    BackedResume(w, a, pc, Failed);
  }

  /** What a call of a's own pass leaves true of the point it was made at and of its reply. */
  lemma BackedServe(w: World, a: Ident, pc: PC, ch: Choice)
    requires VersionsOk(w) && a in w.crs && Calling(pc) && PassOk(w, a, pc) && HeldOk(w, a, pc)
    requires CredPass(w, a, pc) && Backed(w, a, pc) && Allowed(w, CallOf(pc), ch)
    ensures var (w', r) := Serve(w, a, CallOf(pc), ch);
            Backed(w', a, pc) && HeldOk(w', a, pc) && Backed(w', a, Resume(pc, r))
  {
    PassIs(w, a, pc);
    hide CallOf, Serve, Resume, Allowed, PassOk, HeldOk, VersionsOk, SecretKeyOf, CredPass, Backed, Remembers;
    var (w', r) := Serve(w, a, CallOf(pc), ch);
    ServeVersions(w, a, CallOf(pc), ch);
    HeldKept(w, w', a, pc);
    ServeObject(w, a, pc, ch);
    StillBacked(w, w', a, pc);
    if pc.UpsertWrite? && r.Done? && pc.cred.Some? { WriteBacks(w, a, pc, ch); }
    if pc.UpsertRead? { ReadNotSkipped(w, a, pc, ch); }
    BackedResume(w', a, pc, r);
  }

  lemma WriteBacks(w: World, a: Ident, pc: PC, ch: Choice)
    requires pc.UpsertWrite? && pc.cred.Some? && HeldOk(w, a, pc) && CredPass(w, a, pc)
    requires Allowed(w, CallOf(pc), ch) && Serve(w, a, CallOf(pc), ch).1.Done?
    ensures HadPairAt(Serve(w, a, CallOf(pc), ch).0, a, SecretKeyOf(pc.oc), pc.cred.value.id)
  {
    hide SecretKeyOf, HadPair, NeverStored;
    var w' := Serve(w, a, CallOf(pc), ch).0;
    var s := w'.versions[w.tick].secret;
    assert s.data == pc.secret.data && s.owner == Some(a.uid);
    assert Holds(s, pc.cred.value.id);
    assert w'.versions[w.tick].key == SecretKeyOf(pc.oc);
  }

  lemma ReadNotSkipped(w: World, a: Ident, pc: PC, ch: Choice)
    requires VersionsOk(w) && pc.UpsertRead? && pc.oc.id == a && CredPass(w, a, pc) && Allowed(w, CallOf(pc), ch)
    ensures var r := Serve(w, a, CallOf(pc), ch).1;
            pc.cred.Some? && r.TheSecret? && r.secret.owner == Some(a.uid) ==>
              Wanted(r.secret, pc.oc, pc.disc, pc.cred) != r.secret
  {
    NotASecretWrite(pc);
    hide CallOf, Serve, Allowed, SecretKeyOf, Wanted, Remembers, HadPair, NeverStored, VersionsOk;
    var (w', r) := Serve(w, a, CallOf(pc), ch);
    ServeVersions(w, a, CallOf(pc), ch);
    CachedReadOnly(w, a, SecretKeyOf(pc.oc), ch);
    if pc.cred.Some? && r.TheSecret? && r.secret.owner == Some(a.uid) {
      NewCredentialsWritten(w, a, pc.oc, pc.disc, pc.cred.value, SecretKeyOf(pc.oc), r.secret);
    }
  }

  lemma CachedReadOnly(w: World, a: Ident, key: SecretKey, ch: Choice)
    requires Allowed(w, GetCachedSecret(key), ch)
    ensures Serve(w, a, GetCachedSecret(key), ch).0 == w
  {
  }

  lemma OwnStepBacked(s: State, me: Ident, fault: Fault, ch: Choice)
    requires Inv2(s) && CredOk(s) && BackedOk(s) && Enabled(s, Step(me, fault, ch))
    ensures var s' := Apply(s, Step(me, fault, ch)); Backed(s'.w, me, s'.pcs[me])
  {
    StepOutcome(s, me, fault, ch);
    OwnCred(s, me);
    assert Backed(s.w, me, s.pcs[me]);
    hide Inv2, CredOk, BackedOk, CallOf, Serve, Resume, Allowed, PassOk, VersionsOk, HeldOk, CredPass, CredObject,
      AllPaired, Backed,
      Apply, Enabled;
    var w, pc := s.w, s.pcs[me];
    BackedServe(w, me, pc, ch);
    BackedFailed(w, me, pc);
    BackedFailed(Serve(w, me, CallOf(pc), ch).0, me, pc);
    IdleBacked(w, me);
    IdleBacked(Serve(w, me, CallOf(pc), ch).0, me);
  }

  lemma IdleBacked(w: World, a: Ident)
    ensures Backed(w, a, Idle(Crashed))
  {
  }

  lemma PassObjects(s: State)
    requires Inv2(s)
    ensures s.pcs.Keys == s.w.crs.Keys
  {
    hide ObjectOk, PassOk, WorldOk, SecretsOk;
  }

  lemma OtherStepBacked(s: State, me: Ident, fault: Fault, ch: Choice, a: Ident)
    requires Inv2(s) && BackedOk(s) && Enabled(s, Step(me, fault, ch)) && a in s.pcs && a != me
    ensures var s' := Apply(s, Step(me, fault, ch)); a in s'.pcs && Backed(s'.w, a, s'.pcs[a])
  {
    StepOutcome(s, me, fault, ch);
    PassObjects(s);
    StepConfinedStatus(s, me, ch, a);
    assert Backed(s.w, a, s.pcs[a]) && VersionsOk(s.w);
    hide Inv2, BackedOk, CallOf, Serve, Resume, Allowed, Calling, VersionsOk, Backed, Remembers, Apply, Enabled;
    var w' := Serve(s.w, me, CallOf(s.pcs[me]), ch).0;
    ServeVersions(s.w, me, CallOf(s.pcs[me]), ch);
    StillBacked(s.w, w', a, s.pcs[a]);
  }

  lemma ApplyBacked(s: State, act: Action)
    requires Inv2(s) && CredOk(s) && BackedOk(s) && Enabled(s, act)
    ensures BackedOk(Apply(s, act))
  {
    var s' := Apply(s, act);
    hide Inv2, CredOk, Apply, Enabled, Backed;
    forall a | a in s'.pcs ensures Backed(s'.w, a, s'.pcs[a]) {
      match act
      case Begin(me) => BeginBacked(s, me, a);
      case Step(me, fault, ch) =>
        SamePasses(s, act, a);
        if a == me { OwnStepBacked(s, me, fault, ch); } else { OtherStepBacked(s, me, fault, ch, a); }
      case _ => DisturbBacked(s, act, a);
    }
  }

  lemma SamePasses(s: State, act: Action, a: Ident)
    requires Enabled(s, act) && act.Step? && a in Apply(s, act).pcs
    ensures a in s.pcs
  {
    hide Advance, Allowed;
  }

  lemma BeginBacked(s: State, me: Ident, a: Ident)
    requires BackedOk(s) && Enabled(s, Begin(me)) && a in Apply(s, Begin(me)).pcs
    ensures Backed(Apply(s, Begin(me)).w, a, Apply(s, Begin(me)).pcs[a])
  {
    hide HadPairAt, URIsClean;
  }

  lemma DisturbBacked(s: State, act: Action, a: Ident)
    requires Inv2(s) && BackedOk(s) && Enabled(s, act) && !act.Begin? && !act.Step? && a in Apply(s, act).pcs
    ensures Backed(Apply(s, act).w, a, Apply(s, act).pcs[a])
  {
    assert WorldOk(s.w) && a in s.w.crs;
    DisturbOk(s, act);
    DisturbVersions(s, act);
    hide Disturb, Inv, WorldOk, VersionsOk, HeldOk, Backed, Remembers;
    StillBacked(s.w, Disturb(s.w, act), a, s.pcs[a]);
  }

  lemma {:induction false} RunBacked(s: State, acts: seq<Action>)
    requires Inv2(s) && CredOk(s) && BackedOk(s) && Legal(s, acts) && GentleRun(s, acts)
    ensures BackedOk(Exec(s, acts))
    decreases |acts|
  {
    if acts != [] {
      Apply2(s, acts[0]);
      ApplyCred(s, acts[0]);
      ApplyBacked(s, acts[0]);
      hide Inv2, CredOk, BackedOk, Apply, Enabled, Gentle;
      RunBacked(Apply(s, acts[0]), acts[1..]);
    }
  }

  lemma InitialBacked(s: State)
    requires Initial(s)
    ensures BackedOk(s)
  {
  }

  /** The Secret before the status: in every gentle run, a step that persists a status with a client
      the object did not name before, be it registered or adopted, belongs to the object's own pass,
      and the Secret under the very name that pass wants had by then been stored, owned by the
      object, with that client's pair. */
  lemma StatusAfterSecret(s0: State, acts: seq<Action>, act: Action, a: Ident)
    requires Initial(s0) && SecretsInitial(s0.w) && Legal(s0, acts) && GentleRun(s0, acts)
    requires Enabled(Exec(s0, acts), act) && a in s0.w.crs
    ensures var s := Exec(s0, acts);
            var w' := Apply(s, act).w;
            && a in s.w.crs && a in w'.crs && a in s.pcs
            && var id := w'.crs[a].status.clientID;
               id != "" && id != s.w.crs[a].status.clientID ==>
                 && act.Step? && act.me == a && s.pcs[a].PutStatus? && s.pcs[a].oc.status.clientID == id
                 && HadPairAt(s.w, a, SecretKeyOf(s.pcs[a].oc), id)
  {
    var s := Exec(s0, acts);
    hide Initial, SecretsInitial, Legal, Exec, GentleRun, Inv2, CredOk, Apply, Enabled, BackedOk;
    CredInitialOk(s0);
    InitialBacked(s0);
    InitialHolds(s0);
    CredRun(s0, acts);
    RunBacked(s0, acts);
    SameObjects(s0, acts, act, a);
    StatusStepBacked(s, act, a);
  }

  lemma SameObjects(s0: State, acts: seq<Action>, act: Action, a: Ident)
    requires Initial(s0) && Legal(s0, acts) && Enabled(Exec(s0, acts), act) && a in s0.w.crs
    ensures a in Exec(s0, acts).w.crs && a in Exec(s0, acts).pcs && a in Apply(Exec(s0, acts), act).w.crs
  {
    hide Legal, Exec, Initial, ObjectOk, PassOk, WorldOk, Apply, Enabled;
    InitialOk(s0);
    RunOk(s0, acts);
    ApplyOk(Exec(s0, acts), act);
  }

  lemma StatusStepBacked(s: State, act: Action, a: Ident)
    requires Inv2(s) && BackedOk(s) && Enabled(s, act) && a in s.w.crs && a in s.pcs && a in Apply(s, act).w.crs
    ensures var id := Apply(s, act).w.crs[a].status.clientID;
            id != "" && id != s.w.crs[a].status.clientID ==>
              && act.Step? && act.me == a && s.pcs[a].PutStatus? && s.pcs[a].oc.status.clientID == id
              && HadPairAt(s.w, a, SecretKeyOf(s.pcs[a].oc), id)
  {
    assert Backed(s.w, a, s.pcs[a]);
    StatusChange(s, act, a);
    hide Inv2, Apply, Enabled, BackedOk, HadPairAt, SecretKeyOf;
  }

  /** Only the status write at the end of the object's own pass changes its status. */
  lemma StatusChange(s: State, act: Action, a: Ident)
    requires Inv2(s) && Enabled(s, act) && a in s.w.crs && a in s.pcs && a in Apply(s, act).w.crs
    ensures var status := Apply(s, act).w.crs[a].status;
            status != s.w.crs[a].status ==>
              act.Step? && act.me == a && s.pcs[a].PutStatus? && status == s.pcs[a].oc.status
  {
    match act
    case Begin(_) =>
    case Step(me, fault, ch) => StepStatus(s, me, fault, ch, a);
    case _ => DisturbStatus(s, act, a);
  }

  lemma StepStatus(s: State, me: Ident, fault: Fault, ch: Choice, a: Ident)
    requires Inv2(s) && Enabled(s, Step(me, fault, ch)) && a in s.w.crs && a in s.pcs
    ensures var s' := Apply(s, Step(me, fault, ch));
            && a in s'.w.crs
            && (s'.w.crs[a].status != s.w.crs[a].status ==>
                  me == a && s.pcs[a].PutStatus? && s'.w.crs[a].status == s.pcs[a].oc.status)
  {
    StepOutcome(s, me, fault, ch);
    CallerIs2(s, me);
    hide *;
    if me == a {
      ServeObject(s.w, a, s.pcs[a], ch);
    } else {
      StepConfinedStatus(s, me, ch, a);
    }
  }

  lemma CallerIs2(s: State, me: Ident)
    requires Inv2(s) && me in s.pcs && Calling(s.pcs[me])
    ensures me in s.w.crs && PassOk(s.w, me, s.pcs[me])
  {
    hide ObjectOk, PassOk, WorldOk, SecretsOk;
  }

  lemma DisturbStatus(s: State, act: Action, a: Ident)
    requires Inv2(s) && Enabled(s, act) && !act.Begin? && !act.Step? && a in s.w.crs
    ensures a in Disturb(s.w, act).crs && Disturb(s.w, act).crs[a].status == s.w.crs[a].status
  {
    DisturbOk(s, act);
    hide Disturb, SecretsOk, ObjectOk, PassOk, WorldOk;
  }
}
