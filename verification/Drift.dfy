/** How a pass answers a registration that differs from the spec. */
module Drift {
  import opened Text
  import opened Types
  import opened Naming
  import opened Tsidp
  import opened Secrets
  import opened Cluster
  import opened Readiness
  import Convergence

  /** The object's recorded client is live, and its own Secret, under the name the status has or is
      still to get, holds the client's pair. */
  ghost predicate OnRecord(w: World, a: Ident) {
    && Live(w, a) && ValidIdent(a) && w.crs[a].id == a && !w.crs[a].deleting
    && Admitted(w.crs[a].spec) && URIsClean(w.crs[a].spec.redirectURIs)
    && var (oc, id, key) := (w.crs[a], w.crs[a].status.clientID, SecretKeyOf(w.crs[a]));
       && id != "" && id in w.clients
       && (oc.status.secretName == "" || oc.status.secretName == SecretName(a, oc.spec))
       && key in w.secrets && w.secrets[key].owner == Some(a.uid) && Holds(w.secrets[key], id)
  }

  /** The live registration has another name or another multiset of URIs than the spec wants. */
  ghost predicate Differs(clients: map<string, Registration>, oc: OIDCClient)
    requires oc.status.clientID in clients
  {
    var r := clients[oc.status.clientID];
    r.name != RegisteredName(oc.id, oc.spec) || multiset(r.uris) != multiset(oc.spec.redirectURIs)
  }

  /** The registration as the spec wants it, with the secret it has. */
  ghost function Updated(clients: map<string, Registration>, oc: OIDCClient): map<string, Registration>
    requires oc.status.clientID in clients
  {
    var id := oc.status.clientID;
    clients[id := Registration(RegisteredName(oc.id, oc.spec), oc.spec.redirectURIs, clients[id].secret)]
  }

  /** The answer: without drift nothing changes in tsidp; Recreate deletes the registration and forgets
      it; Block changes nothing and says so; InPlace updates it where tsidp accepts every URI, and where
      it does not changes nothing and says so. */
  ghost predicate Answered(w0: World, w: World, oc0: OIDCClient, status: Status, o: Outcome)
    requires oc0.status.clientID in w0.clients
  {
    var id := oc0.status.clientID;
    if !Differs(w0.clients, oc0) then
      w.clients == w0.clients && o == Resync && status.ready == True && status.clientID == id
    else match oc0.spec.updatePolicy
      case Recreate => w.clients == w0.clients - {id} && o == Soon && status.clientID == "" && w.secrets == w0.secrets
      case Block =>
        && w.clients == w0.clients && w.secrets == w0.secrets
        && o == BackOff && status.ready == False(DriftBlocked) && status.clientID == id
      case InPlace =>
        if AllPass(oc0.spec.redirectURIs) then
          w.clients == Updated(w0.clients, oc0) && o == Resync && status.ready == True && status.clientID == id
        else
          && w.clients == w0.clients && w.secrets == w0.secrets
          && o == BackOff && status.ready == False(InPlaceUpdateFailed) && status.clientID == id
  }

  /** The registry that an upsert finds. */
  ghost predicate BeforeUpsert(w0: World, w: World, oc0: OIDCClient)
    requires oc0.status.clientID in w0.clients
  {
    if !Differs(w0.clients, oc0) then w.clients == w0.clients
    else oc0.spec.updatePolicy == InPlace && AllPass(oc0.spec.redirectURIs) && w.clients == Updated(w0.clients, oc0)
  }

  /** The pass works on the object as it was, with the Secrets as they were. */
  ghost predicate Onwards(w0: World, w: World, a: Ident, oc: OIDCClient)
    requires a in w0.crs
  {
    && Current(w, a, oc) && w.secrets == w0.secrets
    && oc.spec == w0.crs[a].spec && oc.status.clientID == w0.crs[a].status.clientID
    && oc.status.secretName == w0.crs[a].status.secretName
  }

  /** The points of such a pass. */
  ghost predicate Answering(w0: World, w: World, a: Ident, pc: PC)
    requires OnRecord(w0, a)
  {
    var oc0 := w0.crs[a];
    match pc
    case Idle(o) => a in w.crs && Answered(w0, w, oc0, w.crs[a].status, o)
    case AddFinalizer(oc) => w == w0 && oc == oc0
    case Discover(oc) => Onwards(w0, w, a, oc) && w.clients == w0.clients
    case ReadRemote(oc, _) => Onwards(w0, w, a, oc) && w.clients == w0.clients
    case CheckSecret(oc, _, remote) =>
      Onwards(w0, w, a, oc) && w.clients == w0.clients && remote == w0.clients[oc0.status.clientID].Blank()
    case BurnRecorded(oc) =>
      Onwards(w0, w, a, oc) && w.clients == w0.clients && Differs(w0.clients, oc0) && oc0.spec.updatePolicy == Recreate
    case EditRemote(oc, _) =>
      Onwards(w0, w, a, oc) && w.clients == w0.clients && Differs(w0.clients, oc0) && oc0.spec.updatePolicy == InPlace
    case VerifyEdit(oc, _) =>
      && Onwards(w0, w, a, oc) && Differs(w0.clients, oc0) && oc0.spec.updatePolicy == InPlace
      && w.clients == (if AllPass(oc0.spec.redirectURIs) then Updated(w0.clients, oc0) else w0.clients)
    case UpsertRead(oc, _, cred) => Onwards(w0, w, a, oc) && cred == None && BeforeUpsert(w0, w, oc0)
    case UpsertWrite(oc, cred, want, create) =>
      && Onwards(w0, w, a, oc) && cred == None && BeforeUpsert(w0, w, oc0)
      && !create && SecretKeyOf(oc) in w.secrets
      && want.rv == w.secrets[SecretKeyOf(oc)].rv && want.uid == w.secrets[SecretKeyOf(oc)].uid
    case PutStatus(oc, o) => Current(w, a, oc) && Answered(w0, w, oc0, oc.status, o)
    case _ => false
  }

  // ---------------------------------------------------------------- one call

  lemma AnswerEarly(w0: World, w: World, a: Ident, pc: PC, ch: Choice)
    requires OnRecord(w0, a) && Answering(w0, w, a, pc) && (pc.AddFinalizer? || pc.Discover?)
    ensures Allowed(w, CallOf(pc), ch)
    ensures var (w', r) := Serve(w, a, CallOf(pc), ch); Answering(w0, w', a, Resume(pc, r))
  {
    hide RegisteredName, SecretName, Admitted, ValidIdent, Holds, Differs, Trim, Join, Normalise;
  }

  lemma AnswerReads(w0: World, w: World, a: Ident, pc: PC, ch: Choice)
    requires OnRecord(w0, a) && Answering(w0, w, a, pc) && pc.ReadRemote?
    ensures Allowed(w, CallOf(pc), ch)
    ensures var (w', r) := Serve(w, a, CallOf(pc), ch); Answering(w0, w', a, Resume(pc, r))
  {
    hide RegisteredName, SecretName, Current, Admitted, ValidIdent, URIsClean, Holds, Differs, Trim, Join, Normalise;
  }

  lemma AnswerCheck(w0: World, w: World, a: Ident, pc: PC, ch: Choice)
    requires OnRecord(w0, a) && Answering(w0, w, a, pc) && pc.CheckSecret?
    ensures Allowed(w, CallOf(pc), ch)
    ensures var (w', r) := Serve(w, a, CallOf(pc), ch); Answering(w0, w', a, Resume(pc, r))
  {
    SameIdent(w, a, pc.oc);
    Convergence.StillCurrent(w, w, a, pc.oc, pc.oc.(status := pc.oc.status.(ready := False(DriftBlocked))));
    hide RegisteredName, SecretName, Current, Admitted, ValidIdent, URIsClean, Holds, Trim, Join, Normalise, AllPass;
  }

  lemma SameIdent(w: World, a: Ident, oc: OIDCClient)
    requires Current(w, a, oc)
    ensures oc.id == a
  {
    hide Normal;
  }

  lemma AnswerBurn(w0: World, w: World, a: Ident, pc: PC, ch: Choice)
    requires OnRecord(w0, a) && Answering(w0, w, a, pc) && pc.BurnRecorded?
    ensures Allowed(w, CallOf(pc), ch)
    ensures var (w', r) := Serve(w, a, CallOf(pc), ch); Answering(w0, w', a, Resume(pc, r))
  {
    hide RegisteredName, SecretName, Current, Admitted, ValidIdent, URIsClean, Holds, Trim, Join, Normalise, AllPass,
      Differs,
      Serve, Allowed, SecretKeyOf;
    var id := pc.oc.status.clientID;
    assert CallOf(pc) == DeleteClient(id);
    ServeDelete(w, a, id, ch);
    Convergence.StillCurrent(w, w.(clients := w.clients - {id}), a, pc.oc, pc.oc.WithID(""));
    hide CallOf;
  }

  /** The edit does what it is answered for. */
  lemma EditDoes(w: World, a: Ident, oc: OIDCClient)
    requires Current(w, a, oc) && oc.status.clientID in w.clients
    ensures var name, field := Trim(RegisteredName(oc.id, oc.spec)), Join(Normalise(oc.spec.redirectURIs));
            Edited(w.clients, oc.status.clientID, name, field) ==
              if AllPass(oc.spec.redirectURIs) then Updated(w.clients, oc) else w.clients
  {
    EditSent(w, a, oc);
    hide RegisteredName, Edited, Trim, Join, Normalise, AllPass, Current;
  }

  lemma UpdatedBySpec(clients: map<string, Registration>, oc: OIDCClient, oc0: OIDCClient)
    requires oc.id == oc0.id && oc.spec == oc0.spec && oc.status.clientID == oc0.status.clientID
    requires oc.status.clientID in clients
    ensures Updated(clients, oc) == Updated(clients, oc0) && Differs(clients, oc) == Differs(clients, oc0)
  {
    hide RegisteredName;
  }

  lemma EditCall(oc: OIDCClient, d: Discovery)
    ensures CallOf(EditRemote(oc, d)) ==
              EditClient(oc.status.clientID, Trim(RegisteredName(oc.id, oc.spec)),
                  Join(Normalise(oc.spec.redirectURIs)))
    ensures Resume(EditRemote(oc, d), Done) == VerifyEdit(oc, d)
  {
    hide RegisteredName, Trim, Join, Normalise;
  }

  lemma AnswerEdit(w0: World, w: World, a: Ident, pc: PC, ch: Choice)
    requires OnRecord(w0, a) && Answering(w0, w, a, pc) && pc.EditRemote?
    ensures Allowed(w, CallOf(pc), ch)
    ensures var (w', r) := Serve(w, a, CallOf(pc), ch); Answering(w0, w', a, Resume(pc, r))
  {
    hide RegisteredName, SecretName, Current, Admitted, ValidIdent, URIsClean, Holds, Trim, Join, Normalise, AllPass,
      Differs,
      Serve, Allowed, SecretKeyOf, Edited, Updated;
    var oc, id := pc.oc, pc.oc.status.clientID;
    SameIdent(w, a, oc);
    EditDoes(w, a, oc);
    UpdatedBySpec(w.clients, oc, w0.crs[a]);
    var name, field := Trim(RegisteredName(oc.id, oc.spec)), Join(Normalise(oc.spec.redirectURIs));
    EditCall(oc, pc.disc);
    Convergence.ServeEdit(w, a, id, name, field, ch);
    var w' := w.(clients := Edited(w.clients, id, name, field));
    Convergence.StillCurrent(w, w', a, oc, oc);
    hide CallOf;
  }

  lemma AnswerVerify(w0: World, w: World, a: Ident, pc: PC, ch: Choice)
    requires OnRecord(w0, a) && Answering(w0, w, a, pc) && pc.VerifyEdit?
    ensures Allowed(w, CallOf(pc), ch)
    ensures var (w', r) := Serve(w, a, CallOf(pc), ch); Answering(w0, w', a, Resume(pc, r))
  {
    hide RegisteredName, SecretName, Current, Admitted, ValidIdent, URIsClean, Holds, Trim, Join, Normalise, AllPass,
      Serve, Allowed, SecretKeyOf;
    var oc, id := pc.oc, pc.oc.status.clientID;
    SameIdent(w, a, oc);
    EditNormal(w, a, oc);
    Convergence.StillCurrent(w, w, a, oc, oc.(status := oc.status.(ready := False(InPlaceUpdateFailed))));
    assert CallOf(VerifyEdit(oc, pc.disc)) == GetClient(id);
    Convergence.ServeGet(w, a, id, ch);
    hide CallOf, Normalise, Trim;
    assert id in w.clients;
    assert AllPass(oc.spec.redirectURIs) || Differs(w.clients, oc);
  }

  lemma KeyBySpec(oc: OIDCClient, oc0: OIDCClient)
    requires oc.id == oc0.id && oc.spec == oc0.spec
    ensures SecretKeyOf(oc) == SecretKeyOf(oc0)
  {
  }

  lemma AnswerUpsert(w0: World, w: World, a: Ident, pc: PC, ch: Choice)
    requires OnRecord(w0, a) && Answering(w0, w, a, pc) && pc.UpsertRead? && ch.view.Fresh?
    ensures Allowed(w, CallOf(pc), ch)
    ensures var (w', r) := Serve(w, a, CallOf(pc), ch); Answering(w0, w', a, Resume(pc, r))
  {
    hide RegisteredName, SecretName, Current, Admitted, ValidIdent, URIsClean, Holds, Trim, Join, Normalise, AllPass,
      Differs,
      Serve, Allowed, Wanted, SecretKeyOf, Updated;
    var oc, key := pc.oc, SecretKeyOf(pc.oc);
    SameIdent(w, a, oc);
    KeyBySpec(oc, w0.crs[a]);
    Convergence.StillCurrent(w, w, a, oc, MarkReady(oc));
    WantedKeepsVersion(w.secrets[key], oc, pc.disc, None);
    assert CallOf(UpsertRead(oc, pc.disc, None)) == GetCachedSecret(key);
    Convergence.ServeCached(w, a, key, ch);
    hide CallOf;
  }

  lemma AnswerWrite(w0: World, w: World, a: Ident, pc: PC, ch: Choice)
    requires OnRecord(w0, a) && Answering(w0, w, a, pc) && pc.UpsertWrite?
    ensures Allowed(w, CallOf(pc), ch)
    ensures var (w', r) := Serve(w, a, CallOf(pc), ch); Answering(w0, w', a, Resume(pc, r))
  {
    hide RegisteredName, SecretName, Current, Admitted, ValidIdent, URIsClean, Holds, Trim, Join, Normalise, AllPass,
      Differs,
      Serve, Allowed, SecretKeyOf;
    var key := SecretKeyOf(pc.oc);
    assert CallOf(pc) == UpdateSecret(key, pc.secret);
    ServeWrite(w, a, key, pc.secret, false, ch);
    Convergence.StillCurrent(w, Serve(w, a, CallOf(pc), ch).0, a, pc.oc, MarkReady(pc.oc));
    hide CallOf;
  }

  lemma AnswerStatus(w0: World, w: World, a: Ident, pc: PC, ch: Choice)
    requires OnRecord(w0, a) && Answering(w0, w, a, pc) && pc.PutStatus?
    ensures Allowed(w, CallOf(pc), ch)
    ensures var (w', r) := Serve(w, a, CallOf(pc), ch); Answering(w0, w', a, Resume(pc, r))
  {
    hide RegisteredName, SecretName, Admitted, ValidIdent, URIsClean, Holds, Trim, Join, Normalise, AllPass, Differs,
      SecretKeyOf;
  }

  lemma AnswerStep(w0: World, w: World, a: Ident, pc: PC, ch: Choice)
    requires OnRecord(w0, a) && Answering(w0, w, a, pc) && Calling(pc) && Allowed(w, CallOf(pc), ch) && ch.view.Fresh?
    ensures var (w', r) := Serve(w, a, CallOf(pc), ch); Answering(w0, w', a, Resume(pc, r))
  {
    AnswerPoints(w0, w, a, pc);
    hide OnRecord, Answering, Serve, CallOf, Resume, Allowed;
    match pc
    case ReadRemote(_, _) => AnswerReads(w0, w, a, pc, ch);
    case CheckSecret(_, _, _) => AnswerCheck(w0, w, a, pc, ch);
    case BurnRecorded(_) => AnswerBurn(w0, w, a, pc, ch);
    case EditRemote(_, _) => AnswerEdit(w0, w, a, pc, ch);
    case VerifyEdit(_, _) => AnswerVerify(w0, w, a, pc, ch);
    case UpsertRead(_, _, _) => AnswerUpsert(w0, w, a, pc, ch);
    case UpsertWrite(_, _, _, _) => AnswerWrite(w0, w, a, pc, ch);
    case PutStatus(_, _) => AnswerStatus(w0, w, a, pc, ch);
    case _ => AnswerEarly(w0, w, a, pc, ch);
  }

  lemma AnswerPoints(w0: World, w: World, a: Ident, pc: PC)
    requires OnRecord(w0, a) && Answering(w0, w, a, pc)
    ensures || pc.Idle? || pc.AddFinalizer? || pc.Discover? || pc.ReadRemote? || pc.CheckSecret? || pc.BurnRecorded?
            || pc.EditRemote? || pc.VerifyEdit? || pc.UpsertRead? || pc.UpsertWrite? || pc.PutStatus?
  {
  }

  // ---------------------------------------------------------------- the pass

  lemma AnswerSmooth(w0: World, s: State, act: Action, a: Ident)
    requires OnRecord(w0, a) && a in s.pcs && Answering(w0, s.w, a, s.pcs[a])
    requires Enabled(s, act) && Smooth(act, a)
    ensures var s' := Apply(s, act); a in s'.pcs && Answering(w0, s'.w, a, s'.pcs[a])
  {
    hide OnRecord, Answering, Serve, CallOf, Resume, Allowed;
    AnswerStep(w0, s.w, a, s.pcs[a], act.choice);
  }

  lemma {:induction false} AnswerRest(w0: World, s: State, acts: seq<Action>, a: Ident)
    requires OnRecord(w0, a) && a in s.pcs && Answering(w0, s.w, a, s.pcs[a])
    requires Legal(s, acts) && forall i | 0 <= i < |acts| :: Smooth(acts[i], a)
    ensures var s' := Exec(s, acts); a in s'.pcs && Answering(w0, s'.w, a, s'.pcs[a])
    decreases |acts|
  {
    if acts != [] {
      AnswerSmooth(w0, s, acts[0], a);
      hide OnRecord, Answering, Apply, Enabled, Smooth;
      AnswerRest(w0, Apply(s, acts[0]), acts[1..], a);
    }
  }

  lemma AnswerBegin(w: World, a: Ident)
    requires OnRecord(w, a)
    ensures Answering(w, w, a, Dispatch(w.crs[a]))
  {
    hide RegisteredName, SecretName, Admitted, ValidIdent, Holds, Differs;
  }

  /** Drift, exactly: an undisturbed pass over an object with a live recorded client and its pair in
      its own Secret sees a difference in name or in the multiset of URIs if and only if there is one,
      and answers it as the policy says. */
  lemma DriftAnswered(s: State, acts: seq<Action>, a: Ident)
    requires OnRecord(s.w, a) && Undisturbed(s, acts, a)
    ensures var w := Exec(s, acts).w;
            a in w.crs && Answered(s.w, w, s.w.crs[a], w.crs[a].status, Result(s, acts, a))
  {
    AnswerBegin(s.w, a);
    var s1 := Apply(s, acts[0]);
    forall i | 0 <= i < |acts[1..]| ensures Smooth(acts[1..][i], a) {
      assert acts[1..][i] == acts[i + 1];
    }
    hide Dispatch, Smooth, OnRecord, Answered;
    AnswerRest(s.w, s1, acts[1..], a);
  }
}
