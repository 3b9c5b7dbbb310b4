/** From Ready to stable credentials: what an object has once a pass brought it to Ready, it keeps. */
module Lasting {
  import opened Text
  import opened Types
  import opened Naming
  import opened Tsidp
  import opened Secrets
  import opened Cluster
  import opened Safety
  import opened Ownership
  import opened Credentials
  import opened Stability
  import opened Readiness

  /** A Secret that an object owns was that object's from its first version on. */
  ghost predicate Chained(w: World) {
    && (forall r | r in w.versions :: w.versions[r].secret.uid < w.tick)
    && forall key, a, r | key in w.secrets && a in w.crs && r in w.versions ::
         w.secrets[key].owner == Some(a.uid) && w.versions[r].key == key
         && w.versions[r].secret.uid == w.secrets[key].uid
         ==> w.versions[r].secret.owner == Some(a.uid)
  }

  /** A live client has the secret it was issued with. */
  ghost predicate Honest(w: World) {
    forall id | id in w.clients :: id in w.issued && w.issued[id].secret == w.clients[id].secret
  }

  lemma StoreChained(w: World, w': World, key: SecretKey, s: Secret)
    requires VersionsOk(w) && Chained(w) && w' == PutSecret(w, key, s) && s.uid <= w.tick
    requires s.uid == w.tick || (key in w.secrets && s.uid == w.secrets[key].uid)
    requires forall a | a in w.crs && s.owner == Some(a.uid) ::
               s.uid == w.tick || w.secrets[key].owner == Some(a.uid)
    ensures Chained(w')
  {
  }

  lemma UidBelow(w: World, key: SecretKey)
    requires VersionsOk(w) && Chained(w) && key in w.secrets
    ensures w.secrets[key].uid < w.tick
  {
    assert Stored(w, key, w.secrets[key]);
  }

  lemma ServeChained(w: World, me: Ident, call: Call, ch: Choice)
    requires VersionsOk(w) && Chained(w) && Allowed(w, call, ch)
    requires forall a | a in w.crs :: w.crs[a].id == a
    requires call.UpdateSecret? ==>
               && call.secret.owner == Some(me.uid) && call.secret.rv in w.versions
               && w.versions[call.secret.rv].secret.owner == Some(me.uid)
    ensures Chained(Serve(w, me, call, ch).0)
  {
    hide Listing, Edited, Chained;
    var w' := Serve(w, me, call, ch).0;
    if call.CreateSecret? {
      if call.key !in w.secrets { StoreChained(w, w', call.key, call.secret.(uid := w.tick)); }
    } else if call.UpdateSecret? {
      if call.key in w.secrets && w.secrets[call.key].rv == call.secret.rv {
        assert Stored(w, call.key, w.secrets[call.key]);
        UidBelow(w, call.key);
        StoreChained(w, w', call.key, call.secret.(uid := w.secrets[call.key].uid));
      }
    } else {
      NoSecretStored(w, me, call, ch);
      hide *;
      SameSecretsChained(w, w');
    }
  }

  lemma NoSecretStored(w: World, me: Ident, call: Call, ch: Choice)
    requires Allowed(w, call, ch) && !call.CreateSecret? && !call.UpdateSecret?
    requires forall a | a in w.crs :: w.crs[a].id == a
    ensures var w' := Serve(w, me, call, ch).0;
            && w'.versions == w.versions && w'.crs.Keys == w.crs.Keys && w.tick <= w'.tick
            && forall key | key in w'.secrets :: key in w.secrets && w'.secrets[key] == w.secrets[key]
  {
    hide Listing, Edited;
  }

  lemma SameSecretsChained(w: World, w': World)
    requires Chained(w) && w'.versions == w.versions && w'.crs.Keys == w.crs.Keys && w.tick <= w'.tick
    requires forall key | key in w'.secrets :: key in w.secrets && w'.secrets[key] == w.secrets[key]
    ensures Chained(w')
  {
  }

  lemma ServeHonest(w: World, me: Ident, call: Call, ch: Choice)
    requires Honest(w) && Allowed(w, call, ch)
    ensures Honest(Serve(w, me, call, ch).0)
  {
    hide Listing, EditAccepts, FormURIs, Trim;
  }

  lemma DisturbChained(s: State, act: Action)
    requires VersionsOk(s.w) && Chained(s.w) && Enabled(s, act) && !act.Begin? && !act.Step? && Gentle(s.w, act)
    requires forall a | a in s.w.crs :: s.w.crs[a].id == a
    ensures Chained(Disturb(s.w, act))
  {
    hide Admitted, Contains;
    var w, w' := s.w, Disturb(s.w, act);
    if act.StoreSecret? {
      if act.key in w.secrets { assert Stored(w, act.key, w.secrets[act.key]); }
      var keep := act.key in w.secrets && act.secret.uid == w.secrets[act.key].uid;
      StoreChained(w, w', act.key, if keep then act.secret else act.secret.(uid := w.tick));
    } else {
      SameSecretsChained(w, w');
    }
  }

  lemma DisturbHonest(s: State, act: Action)
    requires Honest(s.w) && Enabled(s, act) && !act.Begin? && !act.Step? && s.w.clients.Keys <= s.w.issued.Keys
    ensures Honest(Disturb(s.w, act))
  {
    hide Admitted, Contains;
  }

  lemma IssuedFirst(s: State)
    requires Inv(s)
    ensures s.w.clients.Keys <= s.w.issued.Keys
    ensures forall a | a in s.w.crs :: s.w.crs[a].id == a
  {
  }

  lemma StepLasting(s: State, me: Ident, fault: Fault, ch: Choice)
    requires Inv2(s) && Chained(s.w) && Honest(s.w) && Enabled(s, Step(me, fault, ch))
    ensures var w' := Apply(s, Step(me, fault, ch)).w; Chained(w') && Honest(w')
  {
    StepOutcome(s, me, fault, ch);
    IssuedFirst(s);
    CallerIs(s, me);
    assert HeldOk(s.w, me, s.pcs[me]) && VersionsOk(s.w);
    hide Inv2, HeldOk, Chained, Honest, VersionsOk, Serve, CallOf, Resume, Allowed, Apply, Enabled;
    WritesOwned(s.w, me, s.pcs[me]);
    ServeChained(s.w, me, CallOf(s.pcs[me]), ch);
    ServeHonest(s.w, me, CallOf(s.pcs[me]), ch);
  }

  lemma ApplyLasting(s: State, act: Action)
    requires Inv2(s) && Chained(s.w) && Honest(s.w) && Enabled(s, act) && Gentle(s.w, act)
    ensures Chained(Apply(s, act).w) && Honest(Apply(s, act).w)
  {
    hide Inv, HeldOk, Chained, Honest, VersionsOk, Gentle, Enabled, Disturb, Advance, Dispatch;
    match act
    case Begin(_) =>
    case Step(me, fault, ch) => StepLasting(s, me, fault, ch);
    case _ =>
      IssuedFirst(s);
      DisturbChained(s, act);
      DisturbHonest(s, act);
  }

  lemma {:induction false} RunLasting(s: State, acts: seq<Action>)
    requires Inv2(s) && Chained(s.w) && Honest(s.w) && Legal(s, acts) && GentleRun(s, acts)
    ensures Chained(Exec(s, acts).w) && Honest(Exec(s, acts).w)
    decreases |acts|
  {
    if acts != [] {
      Apply2(s, acts[0]);
      ApplyLasting(s, acts[0]);
      hide Inv2, Chained, Honest, Apply, Enabled, Gentle;
      RunLasting(Apply(s, acts[0]), acts[1..]);
    }
  }

  /** The hypotheses leave every interleaving of passes with every fault, and the storing of Secrets
      that name no object as their owner. */
  lemma {:induction false} PassesAllowed(s: State, acts: seq<Action>, x: Anchor)
    requires Legal(s, acts) && forall i | 0 <= i < |acts| :: acts[i].Begin? || acts[i].Step?
    ensures GentleRun(s, acts) && CalmRun(s, acts, x)
    ensures forall w: World, key, secret: Secret | secret.owner == None :: Gentle(w, StoreSecret(key, secret))
    decreases |acts|
  {
    if acts != [] {
      hide Apply, Enabled;
      PassesAllowed(Apply(s, acts[0]), acts[1..], x);
    }
  }

  /** What a settled object holds. */
  function AnchorOf(w: World, a: Ident): Anchor
    requires a in w.crs
  {
    var oc := w.crs[a];
    var key := SecretKeyOf(oc);
    var k :=
      if key in w.secrets && CLIENT_SECRET in w.secrets[key].data then w.secrets[key].data[CLIENT_SECRET] else "";
    Anchor(a, oc.status.clientID, k, SecretName(oc.id, oc.spec))
  }

  lemma SettledKept(w: World, a: Ident)
    requires Settled(w, a) && VersionsOk(w) && Chained(w) && AllPaired(w, a) && Honest(w)
    ensures var x := AnchorOf(w, a); Kept(w, x) && Alive(w.clients, x)
  {
    var oc := w.crs[a];
    OwnNameCarries(a, oc.spec);
    hide Admitted, ValidIdent, URIsClean, SecretName, RegisteredName, Carries, Wanted, Trim;
    var key := SecretKeyOf(oc);
    assert Stored(w, key, w.secrets[key]);
    assert Paired(w, w.versions[w.secrets[key].rv].secret, a);
  }

  lemma SettledAnchored(s: State, a: Ident)
    requires Inv2(s) && CredOk(s) && Chained(s.w) && Honest(s.w)
    requires Settled(s.w, a) && a in s.pcs && s.pcs[a].Idle? && s.w.crs[a].spec.updatePolicy != Recreate
    ensures Anchored(s, AnchorOf(s.w, a))
  {
    SettledKept(s.w, a);
    hide Inv, Admitted, ValidIdent, URIsClean, SecretName, RegisteredName, Wanted, Kept, Alive, Holds, Converged;
  }

  /** An object that is settled at any moment of any gentle run keeps its client id and its client
      secret, in tsidp and in the Secret, through every continuation in which its policy is InPlace or
      Block, nobody touches the Secret and tsidp loses nothing of the client. */
  lemma SettledKeepsCredentials(s0: State, before: seq<Action>, acts: seq<Action>, a: Ident)
    requires Initial(s0) && SecretsInitial(s0.w) && Chained(s0.w) && Honest(s0.w)
    requires Legal(s0, before) && GentleRun(s0, before)
    requires var s := Exec(s0, before);
             && Settled(s.w, a) && a in s.pcs && s.pcs[a].Idle? && s.w.crs[a].spec.updatePolicy != Recreate
             && Legal(s, acts) && CalmRun(s, acts, AnchorOf(s.w, a))
    ensures var s := Exec(s0, before);
            var (w, c, key) := (Exec(s, acts).w, s.w.crs[a].status.clientID, SecretKeyOf(s.w.crs[a]));
            && key in s.w.secrets && key in w.secrets && c in s.w.clients && c in w.clients
            && w.clients[c].secret == s.w.clients[c].secret
            && (forall k | k in {CLIENT_ID, CLIENT_SECRET} ::
                  Lookup(w.secrets[key].data, k) == Lookup(s.w.secrets[key].data, k) && k in w.secrets[key].data)
            && Holds(w.secrets[key], c)
  {
    hide Initial, SecretsInitial, Legal, Exec, GentleRun, CalmRun, Inv2, CredOk, Chained, Honest, Settled, Anchored;
    var s := Exec(s0, before);
    SettledIs(s, a);
    CredInitialOk(s0);
    CredRun(s0, before);
    RunLasting(s0, before);
    SettledAnchored(s, a);
    CalmExec(s, acts, AnchorOf(s.w, a));
    AnchorSays(s, Exec(s, acts), AnchorOf(s.w, a), a);
  }

  lemma SettledIs(s: State, a: Ident)
    requires Settled(s.w, a)
    ensures a in s.w.crs && s.w.crs[a].id == a
  {
  }

  lemma AnchorSays(s: State, t: State, x: Anchor, a: Ident)
    requires Anchored(s, x) && Anchored(t, x) && a in s.w.crs && s.w.crs[a].id == a && x == AnchorOf(s.w, a)
    ensures var (w, c, key) := (t.w, s.w.crs[a].status.clientID, SecretKeyOf(s.w.crs[a]));
            && key in s.w.secrets && key in w.secrets && c in s.w.clients && c in w.clients
            && w.clients[c].secret == s.w.clients[c].secret
            && (forall k | k in {CLIENT_ID, CLIENT_SECRET} ::
                  Lookup(w.secrets[key].data, k) == Lookup(s.w.secrets[key].data, k) && k in w.secrets[key].data)
            && Holds(w.secrets[key], c)
  {
    hide SteadyPass, SteadyObject, Carries;
  }

  lemma {:induction false} GentleConcat(s: State, acts: seq<Action>, more: seq<Action>)
    requires Legal(s, acts) && GentleRun(s, acts) && Legal(Exec(s, acts), more) && GentleRun(Exec(s, acts), more)
    requires Legal(s, acts + more)
    ensures GentleRun(s, acts + more)
    decreases |acts|
  {
    hide Apply, Enabled, Gentle;
    if acts == [] {
      assert acts + more == more;
    } else {
      assert (acts + more)[1..] == acts[1..] + more;
      GentleConcat(Apply(s, acts[0]), acts[1..], more);
    }
  }

  /** Ready lasts: after a pass that reaches markReady, at any point of any gentle run and quiet around
      the object, the pair it left stays what it is, in tsidp and in the Secret, through every
      continuation in which the policy is InPlace or Block, nobody touches the Secret and tsidp loses
      nothing of the client. */
  lemma ReadyKeepsCredentials(s0: State, before: seq<Action>, pass: seq<Action>, acts: seq<Action>, a: Ident)
    requires Initial(s0) && SecretsInitial(s0.w) && Chained(s0.w) && Honest(s0.w) && a in s0.w.crs
    requires Legal(s0, before) && GentleRun(s0, before)
    requires var s := Exec(s0, before);
             QuietPass(s, pass, a) && GentleRun(s, pass) && Result(s, pass, a) == Resync
    requires var s := Exec(Exec(s0, before), pass);
             && a in s.w.crs && s.w.crs[a].spec.updatePolicy != Recreate
             && Legal(s, acts) && CalmRun(s, acts, AnchorOf(s.w, a))
    ensures var s := Exec(Exec(s0, before), pass);
            var (w, c, key) := (Exec(s, acts).w, s.w.crs[a].status.clientID, SecretKeyOf(s.w.crs[a]));
            && key in s.w.secrets && key in w.secrets && c in s.w.clients && c in w.clients
            && w.clients[c].secret == s.w.clients[c].secret
            && (forall k | k in {CLIENT_ID, CLIENT_SECRET} ::
                  Lookup(w.secrets[key].data, k) == Lookup(s.w.secrets[key].data, k) && k in w.secrets[key].data)
            && Holds(w.secrets[key], c)
  {
    var s := Exec(s0, before);
    PassSteps(s, pass, a);
    hide Initial, SecretsInitial, Legal, Exec, GentleRun, CalmRun, Chained, Honest, Settled, QuietPass, Holds;
    ExecConcat(s0, before, pass);
    GentleConcat(s0, before, pass);
    InitialOk(s0);
    RunOk(s0, before);
    ReadyFrom(s, a);
    ReadySoundness(s, pass, a);
    SettledKeepsCredentials(s0, before + pass, acts, a);
  }

  lemma PassSteps(s: State, pass: seq<Action>, a: Ident)
    requires QuietPass(s, pass, a)
    ensures Legal(s, pass) && a in Exec(s, pass).pcs && Exec(s, pass).pcs[a].Idle?
  {
    hide Legal, Exec, Quiet;
  }

  lemma ReadyFrom(s: State, a: Ident)
    requires Inv(s) && a in s.w.crs
    ensures ValidIdent(a) && s.w.crs[a].id == a && Admitted(s.w.crs[a].spec) && "" !in s.w.clients
  {
    hide ObjectOk, PassOk;
  }
}
