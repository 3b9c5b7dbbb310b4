/** What a Secret that belongs to someone else, sitting under the wanted name, costs. */
module Squatting {
  import opened Text
  import opened Types
  import opened Naming
  import opened Tsidp
  import opened Secrets
  import opened Cluster
  import opened Readiness
  import Convergence
  import Safety

  /** A foreign Secret has the wanted name. */
  ghost predicate Squatted(w: World, a: Ident) {
    && Live(w, a) && w.crs[a].id == a && !w.crs[a].deleting
    && SecretKeyOf(w.crs[a]) in w.secrets && w.secrets[SecretKeyOf(w.crs[a])].owner != Some(a.uid)
  }

  /** A change of spec.secretName has still to be carried out. */
  predicate Renaming(oc: OIDCClient) {
    oc.status.secretName != "" && oc.status.secretName != SecretName(oc.id, oc.spec)
  }

  /** The pass ends before it looks at a registration: its spec fails the guard, or it vets the name
      first, on first registration and on rename. */
  predicate StopsFirst(oc: OIDCClient) {
    !URIsClean(oc.spec.redirectURIs) || oc.status.clientID == "" || Renaming(oc)
  }

  /** The live registration has drifted from the spec. */
  predicate Drifted(clients: map<string, Registration>, oc: OIDCClient)
    requires oc.status.clientID in clients
  {
    !Converged(clients[oc.status.clientID], RegisteredName(oc.id, oc.spec), oc.spec.redirectURIs)
  }

  /** What a pass does to the live registration of a drifted object. */
  function Repaired(clients: map<string, Registration>, oc: OIDCClient): map<string, Registration> {
    var id := oc.status.clientID;
    match oc.spec.updatePolicy
    case Block => clients
    case Recreate => clients - {id}
    case InPlace => Edited(clients, id, Trim(RegisteredName(oc.id, oc.spec)), Join(Normalise(oc.spec.redirectURIs)))
  }

  /** The registry that a pass over a squatted object leaves, s being the foreign Secret. */
  function Remaining(clients: map<string, Registration>, oc: OIDCClient, s: Secret): map<string, Registration> {
    var id := oc.status.clientID;
    if StopsFirst(oc) || id !in clients then clients
    else if !Holds(s, id) then clients - {id}
    else if !Drifted(clients, oc) then clients
    else Repaired(clients, oc)
  }

  /** The pass works on object and registry as they were. */
  ghost predicate Copy(w0: World, w: World, a: Ident, oc: OIDCClient)
    requires a in w0.crs
  {
    && w.clients == w0.clients
    && oc.id == a && oc.spec == w0.crs[a].spec
    && oc.status.clientID == w0.crs[a].status.clientID && oc.status.secretName == w0.crs[a].status.secretName
  }

  /** The registry is what it will be in the end. */
  ghost predicate Done(w0: World, w: World, a: Ident)
    requires Squatted(w0, a)
  {
    w.clients == Remaining(w0.clients, w0.crs[a], w0.secrets[SecretKeyOf(w0.crs[a])])
  }

  /** The points of an undisturbed pass over a squatted object. */
  ghost predicate Passing(w0: World, w: World, a: Ident, pc: PC)
    requires Squatted(w0, a)
  {
    var oc0, s0 := w0.crs[a], w0.secrets[SecretKeyOf(w0.crs[a])];
    && w.secrets == w0.secrets
    && match pc
       case Idle(_) => Done(w0, w, a)
       case AddFinalizer(oc) => Copy(w0, w, a, oc) && w.crs == w0.crs && w.gone == w0.gone && oc == w.crs[a]
       case Discover(oc) => Copy(w0, w, a, oc) && URIsClean(oc.spec.redirectURIs)
       case VetTarget(oc, _) => Copy(w0, w, a, oc) && Renaming(oc)
       case VetSecret(oc, _) => Copy(w0, w, a, oc) && oc.status.clientID == ""
       case ReadRemote(oc, _) => Copy(w0, w, a, oc) && !StopsFirst(oc)
       case CheckSecret(oc, _, remote) =>
         && Copy(w0, w, a, oc) && !StopsFirst(oc)
         && oc.status.clientID in w.clients && remote == w.clients[oc.status.clientID].Blank()
       case BurnRecorded(oc) => Copy(w0, w, a, oc)
         && Remaining(w0.clients, oc0, s0) == w0.clients - {oc.status.clientID}
       case EditRemote(oc, _) =>
         && Copy(w0, w, a, oc) && oc.status.clientID in w.clients
         && Remaining(w0.clients, oc0, s0) == Repaired(w0.clients, oc) && oc.spec.updatePolicy == InPlace
       case VerifyEdit(oc, _) => Done(w0, w, a) && oc.id == a && oc.spec == oc0.spec
       case UpsertRead(oc, _, cred) => Done(w0, w, a) && oc.id == a && oc.spec == oc0.spec && cred == None
       case PutStatus(_, _) => Done(w0, w, a)
       case _ => false
  }

  /** What remains depends on what the copy and the object share. */
  lemma RemainingBySpec(clients: map<string, Registration>, oc: OIDCClient, oc0: OIDCClient, s: Secret)
    requires oc.id == oc0.id && oc.spec == oc0.spec && oc.status.clientID == oc0.status.clientID
    requires oc.status.secretName == oc0.status.secretName
    ensures Remaining(clients, oc, s) == Remaining(clients, oc0, s)
  {
    hide RegisteredName, SecretName, Trim, Join, Normalise, Holds, URIsClean, Edited;
  }

  lemma PassingEarly(w0: World, w: World, a: Ident, pc: PC, ch: Choice)
    requires Squatted(w0, a) && Passing(w0, w, a, pc) && Calling(pc) && Allowed(w, CallOf(pc), ch)
    requires pc.AddFinalizer? || pc.Discover? || pc.VetTarget? || pc.VetSecret? || pc.PutStatus?
    ensures var (w', r) := Serve(w, a, CallOf(pc), ch); Passing(w0, w', a, Resume(pc, r))
  {
    hide RegisteredName, SecretName, Trim, Join, Normalise, Holds, URIsClean, Drifted, Repaired;
  }

  lemma PassingRemote(w0: World, w: World, a: Ident, pc: PC, ch: Choice)
    requires Squatted(w0, a) && Passing(w0, w, a, pc) && Calling(pc) && Allowed(w, CallOf(pc), ch)
    requires pc.ReadRemote? || pc.BurnRecorded?
    ensures var (w', r) := Serve(w, a, CallOf(pc), ch); Passing(w0, w', a, Resume(pc, r))
  {
    hide RegisteredName, SecretName, Trim, Join, Normalise, Holds, URIsClean, Drifted, Repaired, SecretKeyOf;
    RemainingBySpec(w0.clients, pc.oc, w0.crs[a], w0.secrets[SecretKeyOf(w0.crs[a])]);
    if pc.BurnRecorded? {
      ServeDelete(w, a, pc.oc.status.clientID, ch);
    }
  }

  lemma PassingCheck(w0: World, w: World, a: Ident, pc: PC, ch: Choice)
    requires Squatted(w0, a) && Passing(w0, w, a, pc) && pc.CheckSecret?
    ensures Allowed(w, CallOf(pc), ch)
    ensures var (w', r) := Serve(w, a, CallOf(pc), ch); Passing(w0, w', a, Resume(pc, r))
  {
    hide RegisteredName, SecretName, Trim, Join, Normalise, Holds, URIsClean, Edited;
    RemainingBySpec(w0.clients, pc.oc, w0.crs[a], w0.secrets[SecretKeyOf(w0.crs[a])]);
  }

  lemma PassingLate(w0: World, w: World, a: Ident, pc: PC, ch: Choice)
    requires Squatted(w0, a) && Passing(w0, w, a, pc) && (pc.EditRemote? || pc.VerifyEdit? || pc.UpsertRead?)
    requires Allowed(w, CallOf(pc), ch) && ch.view.Fresh?
    ensures var (w', r) := Serve(w, a, CallOf(pc), ch); Passing(w0, w', a, Resume(pc, r))
  {
    hide RegisteredName, SecretName, Trim, Join, Normalise, Holds, URIsClean, Edited, Remaining, Wanted;
  }

  lemma PassingStep(w0: World, w: World, a: Ident, pc: PC, ch: Choice)
    requires Squatted(w0, a) && Passing(w0, w, a, pc) && Calling(pc) && Allowed(w, CallOf(pc), ch) && ch.view.Fresh?
    ensures var (w', r) := Serve(w, a, CallOf(pc), ch); Passing(w0, w', a, Resume(pc, r))
  {
    PassingPoints(w0, w, a, pc);
    hide Squatted, Passing, Serve, CallOf, Resume, Allowed;
    match pc
    case ReadRemote(_, _) => PassingRemote(w0, w, a, pc, ch);
    case BurnRecorded(_) => PassingRemote(w0, w, a, pc, ch);
    case CheckSecret(_, _, _) => PassingCheck(w0, w, a, pc, ch);
    case EditRemote(_, _) => PassingLate(w0, w, a, pc, ch);
    case VerifyEdit(_, _) => PassingLate(w0, w, a, pc, ch);
    case UpsertRead(_, _, _) => PassingLate(w0, w, a, pc, ch);
    case _ => PassingEarly(w0, w, a, pc, ch);
  }

  lemma PassingPoints(w0: World, w: World, a: Ident, pc: PC)
    requires Squatted(w0, a) && Passing(w0, w, a, pc)
    ensures || pc.Idle? || pc.AddFinalizer? || pc.Discover? || pc.VetTarget? || pc.VetSecret? || pc.ReadRemote?
            || pc.CheckSecret? || pc.BurnRecorded? || pc.EditRemote? || pc.VerifyEdit? || pc.UpsertRead?
               || pc.PutStatus?
  {
  }

  lemma {:induction false} PassingRest(w0: World, s: State, acts: seq<Action>, a: Ident)
    requires Squatted(w0, a) && a in s.pcs && Passing(w0, s.w, a, s.pcs[a])
    requires Legal(s, acts) && forall i | 0 <= i < |acts| :: Smooth(acts[i], a)
    ensures var s' := Exec(s, acts); a in s'.pcs && Passing(w0, s'.w, a, s'.pcs[a])
    decreases |acts|
  {
    if acts != [] {
      PassingSmooth(w0, s, acts[0], a);
      hide Squatted, Passing, Apply, Enabled, Smooth;
      PassingRest(w0, Apply(s, acts[0]), acts[1..], a);
    }
  }

  lemma PassingSmooth(w0: World, s: State, act: Action, a: Ident)
    requires Squatted(w0, a) && a in s.pcs && Passing(w0, s.w, a, s.pcs[a])
    requires Enabled(s, act) && Smooth(act, a)
    ensures var s' := Apply(s, act); a in s'.pcs && Passing(w0, s'.w, a, s'.pcs[a])
  {
    hide Squatted, Passing, Serve, CallOf, Resume, Allowed;
    PassingStep(w0, s.w, a, s.pcs[a], act.choice);
  }

  lemma PassingBegin(w: World, a: Ident)
    requires Squatted(w, a)
    ensures Passing(w, w, a, Dispatch(w.crs[a]))
  {
    hide SecretName, Holds, Drifted, Repaired;
  }

  /** A squatted name, whoever holds it and whatever it holds, never costs anybody a Secret, and what
      it leaves of the registry is known in every case. A live recorded registration survives exactly
      if the pass stops before it (bad spec or rename), or the foreign Secret still holds its pair
      and there is no drift, or none that the policy answers by burning. */
  lemma SquattedName(s: State, acts: seq<Action>, a: Ident)
    requires Squatted(s.w, a) && Undisturbed(s, acts, a)
    ensures var (w, oc) := (Exec(s, acts).w, s.w.crs[a]);
            var (id, foreign) := (oc.status.clientID, s.w.secrets[SecretKeyOf(oc)]);
            && w.secrets == s.w.secrets
            && w.clients == Remaining(s.w.clients, oc, foreign)
            && (id != "" && id in s.w.clients ==>
                  (id in w.clients <==>
                    || !URIsClean(oc.spec.redirectURIs) || Renaming(oc)
                    || (Holds(foreign, id) && (!Drifted(s.w.clients, oc) || oc.spec.updatePolicy != Recreate))))
  {
    PassingBegin(s.w, a);
    var s1 := Apply(s, acts[0]);
    forall i | 0 <= i < |acts[1..]| ensures Smooth(acts[1..][i], a) {
      assert acts[1..][i] == acts[i + 1];
    }
    hide Dispatch, Smooth, SecretName, RegisteredName, Trim, Join, Normalise, URIsClean, Holds;
    PassingRest(s.w, s1, acts[1..], a);
  }

  // ---------------------------------------------------------------- both losses happen

  /** Prefixes longer than the string do not match. */
  lemma {:induction false} TooShort(s: string, list: seq<string>)
    requires forall i | 0 <= i < |list| :: |list[i]| > |s|
    ensures !AnyPrefix(s, list)
  {
    if list != [] { TooShort(s, list[1..]); }
  }

  const EXAMPLE := Spec("", ["a:"], "", None, Recreate, Deregister)

  lemma ExampleURI()
    ensures AdmittedURI("a:") && Clean("a:")
  {
    hide LowerAscii, AnyPrefix;
    TooShort(LowerAscii("a:"), DANGEROUS);
    assert "a:"[1] == ':';
  }

  lemma ExampleAdmitted()
    ensures Admitted(EXAMPLE) && URIsClean(EXAMPLE.redirectURIs)
  {
    ExampleURI();
    hide AdmittedURI, Clean;
    assert !Contains("", MARK);
  }

  /** A cluster with one object that the operator has not touched. */
  lemma Example() returns (s: State, a: Ident)
    ensures Safety.Initial(s) && a in s.w.crs && a in s.pcs && s.pcs[a].Idle?
    ensures Convergence.Healthy(s.w, a) && Convergence.Measure(s.w, a) == 0
  {
    a := Ident("n", "o", "u");
    ExampleAdmitted();
    assert ValidIdent(a);
    hide Admitted, URIsClean, ValidIdent, SecretKeyOf, EditAccepts, Carries, Contains;
    var oc := OIDCClient(a, EXAMPLE, Status("", "", "", Unset), false, false, false, 0);
    s := State(World(map[a := oc], {}, map[], map[], map[], map[], Discovery("", "", "", "", ""), 1),
        map[a := Idle(Finished)]);
    assert Convergence.Claims(s.w.clients, a, "") == {};
  }

  /** A run from an untouched cluster to a settled object. */
  lemma SettledExample() returns (s0: State, before: seq<Action>, a: Ident)
    ensures Safety.Initial(s0) && Legal(s0, before)
    ensures var s := Exec(s0, before); Settled(s.w, a) && a in s.pcs && s.pcs[a].Idle?
  {
    s0, a := Example();
    Convergence.Present(s0.w, a);
    hide Safety.Initial, Convergence.Healthy, Convergence.Measure, Settled, Exec, Legal, Smooth;
    before := Convergence.PassExists(s0, a);
    UndisturbedQuiet(s0, before, a);
    Convergence.OnePass(s0, before, a);
  }

  /** The object's own Secret is replaced in place by a foreign one without its pair: the next
      undisturbed pass burns the live registration. */
  lemma ReplacedInPlace(s: State, a: Ident) returns (swap: Action, pass: seq<Action>)
    requires Settled(s.w, a) && a in s.pcs && s.pcs[a].Idle?
    ensures swap == StoreSecret(SecretKeyOf(s.w.crs[a]), NEW) && Enabled(s, swap)
    ensures var (s1, id) := (Apply(s, swap), s.w.crs[a].status.clientID);
            && Undisturbed(s1, pass, a)
            && id in s.w.clients && id !in Exec(s1, pass).w.clients
  {
    hide RegisteredName, Wanted, Converged, Trim, Join, Normalise, Admitted, ValidIdent;
    var oc := s.w.crs[a];
    swap := StoreSecret(SecretKeyOf(oc), NEW);
    var s1 := Apply(s, swap);
    assert !Holds(s1.w.secrets[SecretKeyOf(oc)], oc.status.clientID);
    SettledSquatted(s, s1, a);
    hide Settled, Squatted, Holds, URIsClean, SecretKeyOf, Drifted, Legal, Exec, Smooth;
    pass := Convergence.PassExists(s1, a);
    SquattedName(s1, pass, a);
  }

  lemma SettledSquatted(s: State, s1: State, a: Ident)
    requires Settled(s.w, a) && a in s.pcs && s.pcs[a].Idle? && s1.pcs == s.pcs
    requires Live(s1.w, a) && s1.w.clients == s.w.clients
    requires var (oc, oc1) := (s.w.crs[a], s1.w.crs[a]);
             && oc1.id == oc.id && oc1.status == oc.status && oc1.deleting == oc.deleting
             && oc1.spec.secretName == oc.spec.secretName && URIsClean(oc1.spec.redirectURIs)
             && SecretKeyOf(oc) in s1.w.secrets && s1.w.secrets[SecretKeyOf(oc)].owner == None
    ensures Squatted(s1.w, a) && SecretKeyOf(s1.w.crs[a]) == SecretKeyOf(s.w.crs[a])
    ensures !StopsFirst(s1.w.crs[a]) && s.w.crs[a].status.clientID in s.w.clients && Enabled(s1, Begin(a))
    ensures s.w.crs[a].status.clientID != "" && !Renaming(s1.w.crs[a])
    ensures Holds(s.w.secrets[SecretKeyOf(s.w.crs[a])], s.w.crs[a].status.clientID)
    ensures Converged(s.w.clients[s.w.crs[a].status.clientID], RegisteredName(a, s.w.crs[a].spec),
              s.w.crs[a].spec.redirectURIs)
  {
    hide Admitted, RegisteredName, Wanted, Holds, ValidIdent;
  }

  /** One more copy of the first redirect URI is a drift. */
  lemma DriftedSpec(w: World, oc: OIDCClient, oc1: OIDCClient)
    requires oc.spec.redirectURIs != [] && oc.status.clientID in w.clients && oc1.status == oc.status
    requires Converged(w.clients[oc.status.clientID], RegisteredName(oc.id, oc.spec), oc.spec.redirectURIs)
    requires oc1.spec.redirectURIs == oc.spec.redirectURIs + [oc.spec.redirectURIs[0]]
    ensures Drifted(w.clients, oc1)
  {
    hide RegisteredName;
    assert |multiset(oc1.spec.redirectURIs)| == |multiset(oc.spec.redirectURIs)| + 1;
  }

  /** The Secret keeps the pair but loses its owner. */
  function Disown(w: World, key: SecretKey): Action
    requires key in w.secrets
  {
    StoreSecret(key, w.secrets[key].(owner := None))
  }

  /** The spec gains a redirect URI, under Recreate. */
  function Redirect(oc: OIDCClient): Action
    requires oc.spec.redirectURIs != []
  {
    var uris := oc.spec.redirectURIs;
    EditSpec(oc.id, oc.spec.(redirectURIs := uris + [uris[0]], updatePolicy := Recreate))
  }

  lemma DriftLegal(s: State, oc: OIDCClient, key: SecretKey)
    requires Live(s.w, oc.id) && Admitted(oc.spec) && oc.spec.redirectURIs != [] && key in s.w.secrets
    ensures Enabled(s, Disown(s.w, key)) && Enabled(Apply(s, Disown(s.w, key)), Redirect(oc))
  {
    hide Admitted;
    AppendedAdmitted(oc.spec);
  }

  lemma AppendedAdmitted(spec: Spec)
    requires Admitted(spec) && spec.redirectURIs != []
    ensures Admitted(spec.(redirectURIs := spec.redirectURIs + [spec.redirectURIs[0]], updatePolicy := Recreate))
  {
  }

  lemma AppendedClean(uris: seq<string>)
    requires URIsClean(uris) && uris != []
    ensures URIsClean(uris + [uris[0]])
  {
  }

  lemma FirstURI(spec: Spec)
    requires Admitted(spec)
    ensures spec.redirectURIs != []
  {
    hide AdmittedURI;
  }

  lemma SettledSecret(w: World, a: Ident)
    requires Settled(w, a)
    ensures Live(w, a) && SecretKeyOf(w.crs[a]) in w.secrets && w.crs[a].id == a
    ensures Admitted(w.crs[a].spec) && URIsClean(w.crs[a].spec.redirectURIs)
  {
    hide Admitted, Wanted, Holds, Converged, SecretKeyOf, URIsClean;
  }

  lemma DriftEffect(s: State, oc: OIDCClient, key: SecretKey)
    requires Live(s.w, oc.id) && s.w.crs[oc.id] == oc && oc.spec.redirectURIs != [] && key in s.w.secrets
    requires Enabled(s, Disown(s.w, key)) && Enabled(Apply(s, Disown(s.w, key)), Redirect(oc))
    ensures var s1 := Apply(Apply(s, Disown(s.w, key)), Redirect(oc));
            && s1.pcs == s.pcs && Live(s1.w, oc.id) && s1.w.clients == s.w.clients
            && s1.w.crs[oc.id] == oc.(spec := Redirect(oc).spec, rv := s1.w.crs[oc.id].rv)
            && key in s1.w.secrets && s1.w.secrets[key].owner == None && s1.w.secrets[key].data == s.w.secrets[key].data
  {
    hide Admitted;
  }

  lemma ExecTwo(s: State, x: Action, y: Action)
    requires Enabled(s, x) && Enabled(Apply(s, x), y)
    ensures Legal(s, [x, y]) && Exec(s, [x, y]) == Apply(Apply(s, x), y)
  {
    hide Enabled, Apply;
    ExecOne(Apply(s, x), y);
    assert [x, y][1..] == [y];
  }

  /** The Secret keeps the pair but loses its owner, and the spec changes under Recreate: the next
      undisturbed pass burns the live registration before it looks at the Secret's owner. */
  lemma DriftBehindSquatter(s: State, a: Ident) returns (acts: seq<Action>, pass: seq<Action>)
    requires Settled(s.w, a) && a in s.pcs && s.pcs[a].Idle?
    ensures |acts| == 2 && acts[0].StoreSecret? && acts[1].EditSpec? && Legal(s, acts)
    ensures var (s1, id) := (Exec(s, acts), s.w.crs[a].status.clientID);
            && a in s1.w.crs && SecretKeyOf(s1.w.crs[a]) in s1.w.secrets
            && Holds(s1.w.secrets[SecretKeyOf(s1.w.crs[a])], id)
            && Undisturbed(s1, pass, a)
            && id in s1.w.clients && id !in Exec(s1, pass).w.clients
  {
    SettledNames(s, a);
    SettledSecret(s.w, a);
    var oc, key := s.w.crs[a], SecretKeyOf(s.w.crs[a]);
    FirstURI(oc.spec);
    AppendedClean(oc.spec.redirectURIs);
    DriftLegal(s, oc, key);
    DriftEffect(s, oc, key);
    var swap, edit := Disown(s.w, key), Redirect(oc);
    ExecTwo(s, swap, edit);
    acts := [swap, edit];
    var s1 := Apply(Apply(s, swap), edit);
    SettledSquatted(s, s1, a);
    DriftedSpec(s.w, s.w.crs[a], s1.w.crs[a]);
    hide Settled, Squatted, URIsClean, SecretKeyOf, Drifted, Legal, Exec, Smooth, Admitted, Converged,
      RegisteredName, Enabled, Apply, Renaming;
    pass := Convergence.PassExists(s1, a);
    SquattedName(s1, pass, a);
  }

  /** Both losses, in runs from an untouched cluster. */
  lemma SquattersBurn() returns (s0: State, before: seq<Action>, swap: seq<Action>, pass: seq<Action>,
                                 drift: seq<Action>, pass': seq<Action>, a: Ident)
    ensures Safety.Initial(s0) && Legal(s0, before) && Legal(Exec(s0, before), swap) && Legal(Exec(s0, before), drift)
    ensures var s := Exec(s0, before);
            a in s.w.crs && s.w.crs[a].status.clientID in s.w.clients
    ensures var (s, s1) := (Exec(s0, before), Exec(Exec(s0, before), swap));
            |swap| == 1 && swap[0].StoreSecret? && Undisturbed(s1, pass, a)
            && s.w.crs[a].status.clientID !in Exec(s1, pass).w.clients
    ensures var (s, s1) := (Exec(s0, before), Exec(Exec(s0, before), drift));
            |drift| == 2 && drift[0].StoreSecret? && drift[1].EditSpec? && Undisturbed(s1, pass', a)
            && s.w.crs[a].status.clientID !in Exec(s1, pass').w.clients
  {
    s0, before, a := SettledExample();
    var s := Exec(s0, before);
    SettledNames(s, a);
    hide Safety.Initial, Settled, Exec, Legal, Smooth, Undisturbed, Enabled, Apply;
    var act;
    act, pass := ReplacedInPlace(s, a);
    swap := [act];
    ExecOne(s, act);
    drift, pass' := DriftBehindSquatter(s, a);
  }

  lemma SettledNames(s: State, a: Ident)
    requires Settled(s.w, a)
    ensures Live(s.w, a) && s.w.crs[a].status.clientID in s.w.clients
  {
    hide Admitted, Wanted, Holds, Converged, SecretKeyOf;
  }
}
