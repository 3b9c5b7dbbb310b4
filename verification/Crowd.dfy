/** Passes of other objects spare an object by themselves, as long as they do not write under its
    Secret's names: Ready and convergence need no quiet cluster. */
module Crowd {
  import opened Text
  import opened Types
  import opened Naming
  import opened Tsidp
  import opened Secrets
  import opened Cluster
  import opened Safety
  import opened Ownership
  import opened Readiness
  import Convergence

  /** The step leaves the Secrets under a's names alone. */
  ghost predicate Apart(s: State, act: Action, a: Ident)
    requires Enabled(s, act) && a in s.pcs
  {
    forall key | ItsKey(s.w, a, s.pcs[a], key) :: SameSecret(s.w, Apply(s, act).w, key)
  }

  /** The clients a's pass works with were issued for a. */
  lemma ItsClientsOwned(w: World, a: Ident, pc: PC, id: string)
    requires WorldOk(w) && a in w.crs && ObjectOk(w, a) && PassOk(w, a, pc) && ItsClient(w, a, pc, id)
    ensures id == "" || Owned(w, id, a)
  {
    hide Carries, Admitted, SameMark, ValidIdent, OnlyMine;
    if id in Mine(w.clients, a) { MineLive(w.clients, a, id); }
  }

  lemma ServeFrame(w: World, me: Ident, call: Call, ch: Choice)
    requires Allowed(w, call, ch)
    ensures var w' := Serve(w, me, call, ch).0;
            && w'.disc == w.disc
            && forall a | a in w'.gone :: a in w.gone || (call.UpdateObject? && a == call.oc.id)
  {
    hide Listing, Edited;
  }

  lemma ConfinedSpares(w: World, w': World, me: Ident, pcMe: PC, a: Ident, pc: PC)
    requires WorldOk(w) && WorldOk(w') && a in w.crs && me != a && ObjectOk(w, a) && PassOk(w, a, pc)
    requires Confined(w, w', me, pcMe) && Rely(w, w', a)
    requires w'.disc == w.disc && (a in w'.gone ==> a in w.gone)
    requires forall key | ItsKey(w, a, pc, key) :: SameSecret(w, w', key)
    ensures Spared(w, w', a, pc)
  {
    hide Carries, Admitted, SameMark, ValidIdent, ItsKey, SameSecret, PassOk, ObjectOk, ItsClient;
    forall id | Owned(w, id, a) ensures SameClient(w, w', id) {
      assert !Owned(w, id, me);
      assert id in w'.clients && id !in w.clients ==> Owned(w', id, me);
    }
    forall id | id in Mine(w.clients, a) ensures id in Mine(w'.clients, a) {
      assert Owned(w, id, a);
      assert SameClient(w, w', id);
    }
    forall id | ItsClient(w, a, pc, id) ensures SameClient(w, w', id) {
      ItsClientsOwned(w, a, pc, id);
      assert "" !in w.clients && "" !in w'.clients;
    }
  }

  lemma InvWorld(s: State)
    requires Inv(s)
    ensures WorldOk(s.w)
  {
    hide WorldOk, ObjectOk, PassOk;
  }

  lemma CrowdFacts(s: State, me: Ident, a: Ident)
    requires Inv2(s) && me in s.pcs && Calling(s.pcs[me]) && a in s.w.crs && a in s.pcs
    ensures Inv(s) && me in s.w.crs && WorldOk(s.w) && ObjectOk(s.w, me) && PassOk(s.w, me, s.pcs[me])
    ensures ObjectOk(s.w, a) && PassOk(s.w, a, s.pcs[a])
  {
    hide WorldOk, ObjectOk, PassOk, SecretsOk;
  }

  /** The effect of a call of another object's pass, as far as a is concerned. */
  lemma CallSpares(w: World, me: Ident, pc: PC, ch: Choice, a: Ident)
    requires WorldOk(w) && me in w.crs && ObjectOk(w, me) && PassOk(w, me, pc) && Calling(pc)
              && Allowed(w, CallOf(pc), ch)
    requires a in w.crs && a != me
    ensures var w' := Serve(w, me, CallOf(pc), ch).0;
            Rely(w, w', a) && w'.disc == w.disc && (a in w'.gone ==> a in w.gone)
  {
    hide Serve, CallOf, Resume, Allowed, WorldOk, ObjectOk, PassOk, Rely;
    StepOk(w, me, pc, ch);
    TargetsOwned(w, me, pc);
    ServeFrame(w, me, CallOf(pc), ch);
  }

  lemma ConfinedSparesApart(s: State, me: Ident, fault: Fault, ch: Choice, a: Ident)
    requires Enabled(s, Step(me, fault, ch)) && me in s.pcs && a in s.w.crs && a in s.pcs && me != a
    requires WorldOk(s.w) && ObjectOk(s.w, a) && PassOk(s.w, a, s.pcs[a])
    requires var w' := Apply(s, Step(me, fault, ch)).w;
             && WorldOk(w') && Confined(s.w, w', me, s.pcs[me]) && Rely(s.w, w', a)
             && w'.disc == s.w.disc && (a in w'.gone ==> a in s.w.gone)
    requires Apart(s, Step(me, fault, ch), a)
    ensures Spared(s.w, Apply(s, Step(me, fault, ch)).w, a, s.pcs[a])
  {
    hide Enabled, Apply, WorldOk, ObjectOk, PassOk, Confined, Rely, ItsKey, SameSecret, Spared;
    ConfinedSpares(s.w, Apply(s, Step(me, fault, ch)).w, me, s.pcs[me], a, s.pcs[a]);
  }

  /** In a reachable state a step of another object's pass spares a. */
  lemma StepSpares(s: State, me: Ident, fault: Fault, ch: Choice, a: Ident)
    requires Inv2(s) && Enabled(s, Step(me, fault, ch)) && a in s.w.crs && a in s.pcs && me != a
    requires Apart(s, Step(me, fault, ch), a)
    ensures Spared(s.w, Apply(s, Step(me, fault, ch)).w, a, s.pcs[a])
  {
    StepOutcome(s, me, fault, ch);
    CrowdFacts(s, me, a);
    ApplyOk(s, Step(me, fault, ch));
    StepConfined(s, me, fault, ch);
    assert WorldOk(Apply(s, Step(me, fault, ch)).w) by { InvWorld(Apply(s, Step(me, fault, ch))); }
    hide *;
    var w, pc, w' := s.w, s.pcs[me], Apply(s, Step(me, fault, ch)).w;
    CallSpares(w, me, pc, ch, a);
    SameRely(w, a);
    ConfinedSparesApart(s, me, fault, ch, a);
  }

  lemma SameRely(w: World, a: Ident)
    requires a in w.crs
    ensures Rely(w, w, a)
  {
  }

  lemma SameSpares(w: World, a: Ident, pc: PC)
    ensures Spared(w, w, a, pc)
  {
  }

  /** Passes of any objects in any interleaving; those of others with any faults, apart from a's
      Secrets; those of a without. */
  ghost predicate Crowd(s: State, acts: seq<Action>, a: Ident)
    decreases |acts|
  {
    acts != [] ==>
      && Enabled(s, acts[0]) && a in s.pcs
      && (|| acts[0].Begin? || Smooth(acts[0], a)
          || (acts[0].Step? && acts[0].me != a && Apart(s, acts[0], a)))
      && Crowd(Apply(s, acts[0]), acts[1..], a)
  }

  lemma CrowdAct(s: State, act: Action, a: Ident)
    requires Inv2(s) && a in s.w.crs && a in s.pcs && Enabled(s, act)
    requires act.Begin? || Smooth(act, a) || (act.Step? && act.me != a && Apart(s, act, a))
    ensures QuietAct(s, act, a)
  {
    hide Inv2, Spared, Apart;
    if act.Step? && act.me != a {
      StepSpares(s, act.me, act.fault, act.choice, a);
    } else if act.Begin? && act.me != a {
      SameSpares(s.w, a, s.pcs[a]);
    }
  }

  /** A crowd is quiet around a. */
  lemma {:induction false} CrowdQuiet(s: State, acts: seq<Action>, a: Ident)
    requires Inv2(s) && a in s.w.crs && Crowd(s, acts, a)
    ensures Quiet(s, acts, a) && Legal(s, acts)
    decreases |acts|
  {
    if acts != [] {
      CrowdAct(s, acts[0], a);
      Apply2(s, acts[0]);
      SameKeys(s, acts[0]);
      hide Inv2, Apply, Enabled, QuietAct, Apart;
      CrowdQuiet(Apply(s, acts[0]), acts[1..], a);
    }
  }

  lemma SameKeys(s: State, act: Action)
    requires Inv2(s) && Enabled(s, act)
    ensures Apply(s, act).w.crs.Keys == s.w.crs.Keys
  {
    hide Inv, SecretsOk, Apply, Enabled;
    ApplyOk(s, act);
  }

  /** Two passes suffice in a crowd: from every state that any run has reached, while the passes of all
      other objects go on in any interleaving and with any faults, as long as they write under other
      Secret names. */
  lemma CrowdConverges(s0: State, before: seq<Action>, acts: seq<Action>, a: Ident)
    requires Initial(s0) && VersionsOk(s0.w) && Legal(s0, before)
    requires var s := Exec(s0, before);
             && a in s0.w.crs && Live(s.w, a) && !s.w.crs[a].deleting
             && URIsClean(s.w.crs[a].spec.redirectURIs)
             && (forall i | 0 <= i < |s.w.crs[a].spec.redirectURIs| :: IsAscii(s.w.crs[a].spec.redirectURIs[i]))
             && s.w.crs[a].spec.updatePolicy != Block
             && (SecretKeyOf(s.w.crs[a]) in s.w.secrets ==> s.w.secrets[SecretKeyOf(s.w.crs[a])].owner == Some(a.uid))
             && a in s.pcs && s.pcs[a].Idle? && Crowd(s, acts, a) && Legal(s, acts) && Begins(acts, a) >= 2
             && a in Exec(s, acts).pcs && Exec(s, acts).pcs[a].Idle?
    ensures Settled(Exec(Exec(s0, before), acts).w, a)
  {
    hide Initial, Exec, Legal, Quiet, Crowd, IsAscii, URIsClean, SecretKeyOf, Settled, Inv2, VersionsOk, Live;
    InitialHolds(s0);
    Run2(s0, before);
    assert a in Exec(s0, before).w.crs by { InitialOk(s0); RunOk(s0, before); }
    CrowdQuiet(Exec(s0, before), acts, a);
    Convergence.TwoPassesSuffice(s0, before, acts, a);
  }
}
