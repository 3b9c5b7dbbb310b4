/** Client ids and secrets stay paired throughout a run, as long as nobody else edits the data of
    an owned Secret. */
module Credentials {
  import opened Text
  import opened Types
  import opened Naming
  import opened Tsidp
  import opened Secrets
  import opened Cluster
  import opened Safety
  import opened Ownership

  // ---------------------------------------------------------------- the invariant

  /** An owned Secret that names a client names one issued to its owner and holds the secret tsidp
      issued for it. */
  ghost predicate Paired(w: World, s: Secret, a: Ident) {
    s.owner == Some(a.uid) && CLIENT_ID in s.data ==>
      && Owned(w, s.data[CLIENT_ID], a)
      && CLIENT_SECRET in s.data
      && s.data[CLIENT_SECRET] == w.issued[s.data[CLIENT_ID]].secret != ""
  }

  ghost predicate AllPaired(w: World, a: Ident) {
    forall r | r in w.versions :: Paired(w, w.versions[r].secret, a)
  }

  /** At some time a Secret owned by a held the pair of the client. */
  ghost predicate HadPair(w: World, a: Ident, id: string) {
    exists r :: r in w.versions && w.versions[r].secret.owner == Some(a.uid) && Holds(w.versions[r].secret, id)
  }

  /** No Secret owned by a ever named the client. */
  ghost predicate NeverStored(w: World, a: Ident, id: string) {
    forall r | r in w.versions && w.versions[r].secret.owner == Some(a.uid) ::
      Lookup(w.versions[r].secret.data, CLIENT_ID) != Some(id)
  }

  ghost predicate Genuine(w: World, a: Ident, cred: Option<Credentials>) {
    cred.Some? ==>
      && cred.value.id in w.issued
      && w.issued[cred.value.id] == Issue(cred.value.secret, Some(a))
      && cred.value.secret != ""
  }

  ghost predicate CredObject(w: World, a: Ident)
    requires a in w.crs
  {
    var id := w.crs[a].status.clientID;
    id != "" ==> HadPair(w, a, id)
  }

  ghost predicate CredPass(w: World, a: Ident, pc: PC) {
    && (!pc.Idle? && pc.oc.status.clientID != "" ==> HadPair(w, a, pc.oc.status.clientID))
    && (pc.UpsertRead? || pc.UpsertWrite? ==> Genuine(w, a, pc.cred))
    && (pc.UpsertRead? && pc.cred.Some? ==> NeverStored(w, a, pc.cred.value.id))
  }

  ghost predicate CredOk(s: State) {
    forall a | a in s.w.crs :: a in s.pcs && AllPaired(s.w, a) && CredObject(s.w, a) && CredPass(s.w, a, s.pcs[a])
  }

  /** Nobody stores a Secret under an object's controller reference, except to change the metadata
      of one that has it. Any Secret may be deleted, and foreign ones edited at will. */
  ghost predicate Gentle(w: World, act: Action) {
    act.StoreSecret? ==>
      || (forall a | a in w.crs :: act.secret.owner != Some(a.uid))
      || (act.key in w.secrets && act.secret.owner == w.secrets[act.key].owner
          && act.secret.data == w.secrets[act.key].data)
  }

  // ---------------------------------------------------------------- steps that add no credentials

  /** Versions are only added, and those owned by a repeat the data of an earlier one owned by a. */
  ghost predicate Echoes(w: World, w': World, a: Ident) {
    && Remembers(w, w')
    && (forall id | id in w.issued :: id in w'.issued && w'.issued[id] == w.issued[id])
    && forall r | r in w'.versions && w'.versions[r].secret.owner == Some(a.uid) ::
         exists q :: q in w.versions && w.versions[q].secret.owner == Some(a.uid)
                  && w.versions[q].secret.data == w'.versions[r].secret.data
  }

  lemma EchoPaired(w: World, w': World, a: Ident)
    requires Echoes(w, w', a) && AllPaired(w, a)
    ensures AllPaired(w', a)
  {
  }

  lemma EchoHadPair(w: World, w': World, a: Ident, id: string)
    requires Remembers(w, w') && HadPair(w, a, id)
    ensures HadPair(w', a, id)
  {
    var r :| r in w.versions && w.versions[r].secret.owner == Some(a.uid) && Holds(w.versions[r].secret, id);
    assert r in w'.versions;
  }

  lemma EchoPass(w: World, w': World, a: Ident, pc: PC)
    requires Echoes(w, w', a) && CredPass(w, a, pc)
    ensures CredPass(w', a, pc)
  {
    if !pc.Idle? && pc.oc.status.clientID != "" { EchoHadPair(w, w', a, pc.oc.status.clientID); }
    if pc.UpsertRead? && pc.cred.Some? { EchoNever(w, w', a, pc.cred.value.id); }
    EchoGenuine(w, w', a);
    hide HadPair, NeverStored, Echoes, Genuine;
  }

  lemma EchoNever(w: World, w': World, a: Ident, id: string)
    requires Echoes(w, w', a) && NeverStored(w, a, id)
    ensures NeverStored(w', a, id)
  {
  }

  lemma EchoGenuine(w: World, w': World, a: Ident)
    requires Echoes(w, w', a)
    ensures forall cred :: Genuine(w, a, cred) ==> Genuine(w', a, cred)
  {
  }

  lemma EchoObject(w: World, w': World, a: Ident)
    requires Remembers(w, w') && a in w.crs && a in w'.crs && CredObject(w, a)
    requires w'.crs[a].status == w.crs[a].status
    ensures CredObject(w', a)
  {
    var id := w.crs[a].status.clientID;
    if id != "" { EchoHadPair(w, w', a, id); }
  }

  lemma SameVersionsEcho(w: World, w': World, a: Ident)
    requires w'.versions == w.versions
    requires forall id | id in w.issued :: id in w'.issued && w'.issued[id] == w.issued[id]
    ensures Echoes(w, w', a)
  {
  }

  lemma DisturbEchoes(s: State, act: Action, a: Ident)
    requires VersionsOk(s.w) && Enabled(s, act) && !act.Begin? && !act.Step? && Gentle(s.w, act) && a in s.w.crs
    ensures Echoes(s.w, Disturb(s.w, act), a)
  {
    hide Admitted, Contains;
    var w, w' := s.w, Disturb(s.w, act);
    if act.StoreSecret? {
      forall r | r in w'.versions && w'.versions[r].secret.owner == Some(a.uid)
        ensures exists q :: q in w.versions && w.versions[q].secret.owner == Some(a.uid)
                  && w.versions[q].secret.data == w'.versions[r].secret.data
      {
        if r !in w.versions {
          assert Stored(w, act.key, w.secrets[act.key]);
          assert w.secrets[act.key].rv in w.versions;
        }
      }
    } else {
      SameVersionsEcho(w, w', a);
    }
  }

  /** A call adds no version but the Secret it stores. */
  lemma ServeEchoes(w: World, me: Ident, call: Call, ch: Choice, a: Ident)
    requires Allowed(w, call, ch)
    requires call.CreateSecret? || call.UpdateSecret? ==> call.secret.owner != Some(a.uid) && VersionsOk(w)
    ensures Echoes(w, Serve(w, me, call, ch).0, a)
  {
    hide Listing, Edited;
    var w' := Serve(w, me, call, ch).0;
    if !call.CreateSecret? && !call.UpdateSecret? {
      SameVersionsEcho(w, w', a);
    }
  }

  // ---------------------------------------------------------------- steps of a's own pass

  /** Where a pass gets the client it names from: it keeps the one it has or drops it, adopts one
      its Secret holds, takes the one it registered, or rereads the object. */
  lemma NamedClient(pc: PC, r: Reply)
    requires Calling(pc)
    ensures var pc' := Resume(pc, r);
            !pc'.Idle? && pc'.oc.status.clientID != "" ==>
              || pc'.oc.status.clientID == pc.oc.status.clientID
              || (pc.ListForAdoption? && pc.held.Some? && Holds(pc.held.value, pc'.oc.status.clientID))
              || ((pc.UpsertRead? || pc.UpsertWrite?) && pc.cred.Some? && pc' == AfterUpsert(pc.oc, pc.cred))
              || (pc.AddFinalizer? && r.Object? && pc'.oc.status.clientID == r.oc.status.clientID)
  {
    hide Converged, RegisteredName, SecretName, URIsClean, Wanted, Trim, Join, Normalise, Matches, Holds;
    if pc.ListForAdoption? && r.Clients? { AdoptedHeld(pc.oc, pc.disc, pc.held, r.entries); }
    hide AfterAdoptionList;
  }

  lemma AdoptedHeld(oc: OIDCClient, d: Discovery, held: Option<Secret>, entries: seq<Entry>)
    ensures var pc := AfterAdoptionList(oc, d, held, entries);
            && !pc.Idle?
            && (pc.oc.status.clientID == oc.status.clientID || (held.Some? && Holds(held.value, pc.oc.status.clientID)))
  {
    hide Matches, Holds;
  }

  /** An upsert keeps its credentials, and starts only after the metadata decision or a
      registration. */
  lemma UpsertCredentials(pc: PC, r: Reply)
    requires Calling(pc)
    ensures var pc' := Resume(pc, r);
            && (pc'.UpsertRead? ==>
                  || pc'.cred == None
                  || (pc.Register? && r.Registered? && pc'.cred == Some(r.cred)))
            && (pc'.UpsertWrite? ==> pc.UpsertRead? && pc'.cred == pc.cred)
  {
    hide Converged, RegisteredName, SecretName, URIsClean, Wanted, Holds;
  }

  /** With new credentials the write is never skipped: no version read can be what is wanted. */
  lemma NewCredentialsWritten(w: World, a: Ident, oc: OIDCClient, d: Discovery, c: Credentials, key: SecretKey,
      s: Secret)
    requires Stored(w, key, s) && NeverStored(w, a, c.id) && s.owner == Some(a.uid)
    ensures Wanted(s, oc, d, Some(c)) != s
  {
    WantedInherits(s, oc, d, Some(c));
    assert w.versions[s.rv].secret == s;
  }

  lemma UpsertReadPass(w: World, a: Ident, pc: PC, r: Reply)
    requires pc.UpsertRead? && pc.oc.id == a && CredPass(w, a, pc)
    requires r.TheSecret? ==> Stored(w, SecretKeyOf(pc.oc), r.secret)
    ensures CredPass(w, a, Resume(pc, r))
  {
    NamedClient(pc, r);
    UpsertCredentials(pc, r);
    if pc.cred.Some? && r.TheSecret? && r.secret.owner == Some(a.uid) {
      NewCredentialsWritten(w, a, pc.oc, pc.disc, pc.cred.value, SecretKeyOf(pc.oc), r.secret);
    }
    hide Wanted, HadPair, NeverStored, Genuine, SecretKeyOf;
  }

  /** The new version of a successful write: properly paired, and it holds what was registered. */
  lemma WriteDone(w: World, w': World, a: Ident, pc: PC, uid: nat)
    requires pc.UpsertWrite? && HeldOk(w, a, pc) && CredPass(w, a, pc) && AllPaired(w, a)
    requires VersionsOk(w) && w' == PutSecret(w, SecretKeyOf(pc.oc), pc.secret.(uid := uid))
    ensures AllPaired(w', a)
    ensures pc.cred.Some? ==> HadPair(w', a, pc.cred.value.id)
  {
    hide SecretKeyOf;
    assert w.tick !in w.versions;
    var s := w'.versions[w.tick].secret;
    assert s.data == pc.secret.data && s.owner == Some(a.uid);
    assert Paired(w', s, a);
    if pc.cred.Some? { assert Holds(s, pc.cred.value.id); }
  }

  /** What a step of a's own pass establishes. */
  ghost predicate StepPaired(w': World, a: Ident, pc: PC, r: Reply)
    requires a in w'.crs && Calling(pc)
  {
    AllPaired(w', a) && CredObject(w', a) && CredPass(w', a, Resume(pc, r)) && CredPass(w', a, Resume(pc, Failed))
  }

  lemma RefusedPass(w: World, a: Ident, pc: PC)
    requires Calling(pc) && CredPass(w, a, pc)
    ensures CredPass(w, a, Resume(pc, Failed))
  {
    NamedClient(pc, Failed);
    UpsertCredentials(pc, Failed);
    hide Resume, HadPair, NeverStored, Genuine;
    FailedNotUpserted(pc);
  }

  lemma FailedNotUpserted(pc: PC)
    requires Calling(pc)
    ensures var pc' := Resume(pc, Failed);
            pc'.Idle? || (pc'.oc.status.clientID == pc.oc.status.clientID && !pc'.UpsertRead? && !pc'.UpsertWrite?)
  {
    hide URIsClean, SecretName;
  }

  lemma WriteStep(w: World, a: Ident, pc: PC, ch: Choice)
    requires VersionsOk(w) && a in w.crs && pc.UpsertWrite? && HeldOk(w, a, pc)
    requires AllPaired(w, a) && CredObject(w, a) && CredPass(w, a, pc)
    requires Allowed(w, CallOf(pc), ch)
    ensures var (w', r) := Serve(w, a, CallOf(pc), ch); w'.crs == w.crs && StepPaired(w', a, pc, r)
  {
    hide SecretKeyOf, HeldOk, AllPaired, HadPair, Inherits, NeverStored, VersionsOk, SecretName;
    var (w', r) := Serve(w, a, CallOf(pc), ch);
    RefusedPass(w, a, pc);
    if r.Done? {
      var uid := if pc.create then w.tick else w.secrets[SecretKeyOf(pc.oc)].uid;
      WriteDone(w, w', a, pc, uid);
      WriteRemembers(w, w', SecretKeyOf(pc.oc), pc.secret.(uid := uid));
      EchoObject(w, w', a);
      if pc.oc.status.clientID != "" { EchoHadPair(w, w', a, pc.oc.status.clientID); }
    }
  }

  lemma WriteRemembers(w: World, w': World, key: SecretKey, s: Secret)
    requires VersionsOk(w) && w' == PutSecret(w, key, s)
    ensures Remembers(w, w')
  {
  }

  lemma RegisterPaired(w: World, a: Ident, oc: OIDCClient, d: Discovery, ch: Choice)
    requires AllPaired(w, a) && oc.status.clientID == "" && a in w.crs
    requires Allowed(w, CallOf(Register(oc, d)), ch)
    ensures var (w', r) := Serve(w, a, CallOf(Register(oc, d)), ch); CredPass(w', a, Resume(Register(oc, d), r))
  {
    hide RegisteredName;
    var (w', r) := Serve(w, a, CallOf(Register(oc, d)), ch);
    if r.Registered? {
      forall q | q in w.versions && w.versions[q].secret.owner == Some(a.uid)
        ensures Lookup(w.versions[q].secret.data, CLIENT_ID) != Some(ch.cred.id)
      {
        assert Paired(w, w.versions[q].secret, a);
      }
    }
  }

  /** After a call that stores no Secret, everything holds of the point the pass stands at. */
  lemma ReadServed(w: World, a: Ident, pc: PC, ch: Choice)
    requires VersionsOk(w) && a in w.crs && Calling(pc) && !pc.UpsertWrite? && HeldOk(w, a, pc)
    requires PassOk(w, a, pc)
    requires AllPaired(w, a) && CredObject(w, a) && CredPass(w, a, pc)
    requires Allowed(w, CallOf(pc), ch)
    ensures var w' := Serve(w, a, CallOf(pc), ch).0;
            a in w'.crs && AllPaired(w', a) && CredObject(w', a) && CredPass(w', a, pc) && HeldOk(w', a, pc)
  {
    hide CallOf, Serve, Resume, Allowed, AllPaired, PassOk, HeldOk, VersionsOk, SecretKeyOf, CredPass, CredObject,
      Echoes, Remembers;
    var (w', r) := Serve(w, a, CallOf(pc), ch);
    ServeVersions(w, a, CallOf(pc), ch);
    HeldKept(w, w', a, pc);
    NotASecretWrite(pc);
    ServeEchoes(w, a, CallOf(pc), ch, a);
    EchoPaired(w, w', a);
    EchoPass(w, w', a, pc);
    ServeObject(w, a, pc, ch);
    if w'.crs[a].status == w.crs[a].status {
      EchoObject(w, w', a);
    } else {
      StatusCred(w', a, pc);
    }
  }

  lemma ReadStep(w: World, a: Ident, pc: PC, ch: Choice)
    requires VersionsOk(w) && a in w.crs && Calling(pc) && !pc.UpsertWrite? && HeldOk(w, a, pc)
    requires PassOk(w, a, pc)
    requires AllPaired(w, a) && CredObject(w, a) && CredPass(w, a, pc)
    requires Allowed(w, CallOf(pc), ch)
    ensures var (w', r) := Serve(w, a, CallOf(pc), ch); a in w'.crs && StepPaired(w', a, pc, r)
  {
    PassIs(w, a, pc);
    ReadServed(w, a, pc, ch);
    hide CallOf, Serve, Resume, Allowed, AllPaired, PassOk, HeldOk, VersionsOk, SecretKeyOf, CredPass, CredObject;
    var (w', r) := Serve(w, a, CallOf(pc), ch);
    RefusedPass(w', a, pc);
    if pc.Register? {
      RegisterPaired(w, a, pc.oc, pc.disc, ch);
    } else if pc.UpsertRead? {
      NotASecretWrite(pc);
      ServeVersions(w, a, CallOf(pc), ch);
      UpsertReadPass(w', a, pc, r);
    } else {
      ServeObject(w, a, pc, ch);
      ReadResume(w', a, pc, r);
    }
  }

  lemma StatusCred(w: World, a: Ident, pc: PC)
    requires a in w.crs && !pc.Idle? && CredPass(w, a, pc) && w.crs[a].status == pc.oc.status
    ensures CredObject(w, a)
  {
  }

  lemma PassIs(w: World, a: Ident, pc: PC)
    requires a in w.crs && PassOk(w, a, pc) && Calling(pc)
    ensures pc.oc.id == a
  {
  }

  lemma NotASecretWrite(pc: PC)
    requires Calling(pc) && !pc.UpsertWrite?
    ensures !CallOf(pc).CreateSecret? && !CallOf(pc).UpdateSecret?
    ensures pc.UpsertRead? ==> CallOf(pc) == GetCachedSecret(SecretKeyOf(pc.oc))
  {
    hide SecretKeyOf, RegisteredName, Trim, Join, Normalise;
  }

  lemma ServeWrites(w: World, me: Ident, call: Call, ch: Choice, a: Ident)
    requires a in w.crs && Allowed(w, call, ch) && (call.UpdateObject? || call.UpdateStatus? ==> call.oc.id == a)
    ensures var (w', r) := Serve(w, me, call, ch);
            && a in w'.crs
            && (w'.crs[a].status == w.crs[a].status || (call.UpdateStatus? && w'.crs[a].status == call.oc.status))
            && (r.Object? ==> r.oc == w'.crs[a])
  {
    hide Edited, Listing;
  }

  lemma WritesObject(pc: PC)
    requires Calling(pc)
    ensures CallOf(pc).UpdateStatus? ==> pc.PutStatus? && CallOf(pc).oc == pc.oc
    ensures CallOf(pc).UpdateObject? ==> CallOf(pc).oc.id == pc.oc.id
  {
    hide RegisteredName, Trim, Join, Normalise, SecretKeyOf;
  }

  /** The object's status changes through its own status write alone, and an object in a reply is
      the one stored. */
  lemma ServeObject(w: World, a: Ident, pc: PC, ch: Choice)
    requires a in w.crs && Calling(pc) && PassOk(w, a, pc) && Allowed(w, CallOf(pc), ch)
    ensures var (w', r) := Serve(w, a, CallOf(pc), ch);
            && a in w'.crs
            && (w'.crs[a].status == w.crs[a].status || (pc.PutStatus? && w'.crs[a].status == pc.oc.status))
            && (r.Object? ==> pc.oc.id in w'.crs && r.oc == w'.crs[pc.oc.id])
  {
    CopyIs(w, a, pc);
    WritesObject(pc);
    hide PassOk, CallOf, Serve, Allowed, Calling;
    ServeWrites(w, a, CallOf(pc), ch, a);
  }

  lemma CopyIs(w: World, a: Ident, pc: PC)
    requires a in w.crs && Calling(pc) && PassOk(w, a, pc)
    ensures pc.oc.id == a
  {
    hide Stage, Admitted;
  }

  lemma ReadResume(w: World, a: Ident, pc: PC, r: Reply)
    requires Calling(pc) && !pc.Register? && !pc.UpsertRead? && !pc.UpsertWrite? && pc.oc.id == a
    requires CredPass(w, a, pc) && HeldOk(w, a, pc) && a in w.crs && CredObject(w, a)
    requires r.Object? ==> r.oc == w.crs[a]
    ensures CredPass(w, a, Resume(pc, r))
  {
    NamedClient(pc, r);
    UpsertCredentials(pc, r);
    hide Resume, NeverStored, Genuine;
    if pc.ListForAdoption? && pc.held.Some? {
      assert pc.held.value.rv in w.versions;
    }
  }

  // ---------------------------------------------------------------- throughout a gentle run

  ghost predicate GentleRun(s: State, acts: seq<Action>)
    requires Legal(s, acts)
    decreases |acts|
  {
    acts != [] ==> Gentle(s.w, acts[0]) && GentleRun(Apply(s, acts[0]), acts[1..])
  }

  lemma IdleCred(w: World, a: Ident)
    ensures CredPass(w, a, Idle(Crashed))
  {
  }

  lemma OwnCred(s: State, me: Ident)
    requires Inv2(s) && CredOk(s) && me in s.pcs && Calling(s.pcs[me])
    ensures me in s.w.crs && VersionsOk(s.w) && HeldOk(s.w, me, s.pcs[me]) && PassOk(s.w, me, s.pcs[me])
    ensures AllPaired(s.w, me) && CredObject(s.w, me) && CredPass(s.w, me, s.pcs[me]) && s.pcs[me].oc.id == me
  {
    CallerIs(s, me);
    hide VersionsOk, HeldOk, PassOk, AllPaired, CredObject, CredPass, ObjectOk, WorldOk;
  }

  lemma StepCred(s: State, me: Ident, fault: Fault, ch: Choice)
    requires Inv2(s) && CredOk(s) && Enabled(s, Step(me, fault, ch))
    ensures var s' := Apply(s, Step(me, fault, ch));
            && me in s'.w.crs && AllPaired(s'.w, me) && CredObject(s'.w, me) && CredPass(s'.w, me, s'.pcs[me])
  {
    StepOutcome(s, me, fault, ch);
    OwnCred(s, me);
    hide Inv2, CredOk, CallOf, Serve, Resume, Allowed, AllPaired, PassOk, HeldOk, VersionsOk, HadPair, CredObject,
      Apply, Enabled;
    var w, pc := s.w, s.pcs[me];
    IdleCred(w, me);
    IdleCred(Serve(w, me, CallOf(pc), ch).0, me);
    RefusedPass(w, me, pc);
    if pc.UpsertWrite? {
      WriteStep(w, me, pc, ch);
    } else {
      ReadStep(w, me, pc, ch);
    }
    hide CredPass;
  }

  lemma OtherFacts(s: State, me: Ident, a: Ident)
    requires Inv2(s) && CredOk(s) && me in s.w.crs && a in s.w.crs && a != me
    ensures me.uid != a.uid && a in s.pcs
    ensures AllPaired(s.w, a) && CredObject(s.w, a) && CredPass(s.w, a, s.pcs[a])
  {
    hide AllPaired, CredObject, CredPass, ObjectOk, PassOk, SecretsOk, SameMark, RegistryOk;
  }

  /** A step of another object's pass. */
  lemma StepCredOther(s: State, me: Ident, fault: Fault, ch: Choice, a: Ident)
    requires Inv2(s) && CredOk(s) && Enabled(s, Step(me, fault, ch)) && a in s.w.crs && a != me
    ensures var s' := Apply(s, Step(me, fault, ch));
            && a in s'.w.crs && AllPaired(s'.w, a) && CredObject(s'.w, a) && CredPass(s'.w, a, s'.pcs[a])
  {
    StepOutcome(s, me, fault, ch);
    OwnCred(s, me);
    OtherFacts(s, me, a);
    StepConfinedStatus(s, me, ch, a);
    var w, pc := s.w, s.pcs[me];
    hide Inv2, CredOk, CallOf, Serve, Resume, Allowed, AllPaired, PassOk, HeldOk, VersionsOk, HadPair, CredObject,
      CredPass, Echoes,
      Apply, Enabled, Remembers;
    WritesOwned(w, me, pc);
    var w' := Serve(w, me, CallOf(pc), ch).0;
    ServeVersions(w, me, CallOf(pc), ch);
    ServeEchoes(w, me, CallOf(pc), ch, a);
    EchoPaired(w, w', a);
    EchoPass(w, w', a, s.pcs[a]);
    EchoObject(w, w', a);
  }

  lemma StepConfinedStatus(s: State, me: Ident, ch: Choice, a: Ident)
    requires Inv2(s) && me in s.pcs && Calling(s.pcs[me]) && Allowed(s.w, CallOf(s.pcs[me]), ch)
    requires a in s.w.crs && a != me
    ensures var w' := Serve(s.w, me, CallOf(s.pcs[me]), ch).0;
            a in w'.crs && w'.crs[a].status == s.w.crs[a].status
  {
    hide CallOf, Serve, Inv, SecretsOk, Allowed;
    CallConfined(s, me, ch);
  }

  lemma ApplyCred(s: State, act: Action)
    requires Inv2(s) && CredOk(s) && Enabled(s, act) && Gentle(s.w, act)
    ensures CredOk(Apply(s, act))
  {
    Apply2(s, act);
    ApplyOk(s, act);
    var s' := Apply(s, act);
    forall a | a in s'.w.crs
      ensures a in s'.pcs && AllPaired(s'.w, a) && CredObject(s'.w, a) && CredPass(s'.w, a, s'.pcs[a])
    {
      match act
      case Begin(me) =>
        if a == me { BeginCred(s, me); } else { BeginOther(s, me, a); }
      case Step(me, fault, ch) =>
        if a == me { StepCred(s, me, fault, ch); } else { StepCredOther(s, me, fault, ch, a); }
      case _ =>
        DisturbCred(s, act, a);
    }
  }

  lemma BeginCred(s: State, me: Ident)
    requires CredOk(s) && Enabled(s, Begin(me))
    ensures CredPass(s.w, me, Dispatch(s.w.crs[me]))
  {
    hide HadPair, URIsClean;
  }

  lemma BeginOther(s: State, me: Ident, a: Ident)
    requires CredOk(s) && Enabled(s, Begin(me)) && a in s.w.crs && a != me
    ensures a in Apply(s, Begin(me)).pcs && CredPass(s.w, a, Apply(s, Begin(me)).pcs[a])
  {
    hide CredPass, Dispatch;
  }

  lemma DisturbCred(s: State, act: Action, a: Ident)
    requires Inv2(s) && CredOk(s) && Enabled(s, act) && !act.Begin? && !act.Step? && Gentle(s.w, act) && a in s.w.crs
    ensures var w' := Disturb(s.w, act);
            a in w'.crs && AllPaired(w', a) && CredObject(w', a) && CredPass(w', a, s.pcs[a])
  {
    var w' := Disturb(s.w, act);
    DisturbOk(s, act);
    DisturbVersions(s, act);
    DisturbEchoes(s, act, a);
    hide Disturb, HadPair, AllPaired, CredPass, Echoes, WorldOk, VersionsOk, ObjectOk, PassOk, HeldOk;
    EchoPaired(s.w, w', a);
    EchoPass(s.w, w', a, s.pcs[a]);
    EchoObject(s.w, w', a);
  }

  lemma {:induction false} CredRun(s: State, acts: seq<Action>)
    requires Inv2(s) && CredOk(s) && Legal(s, acts) && GentleRun(s, acts)
    ensures Inv2(Exec(s, acts)) && CredOk(Exec(s, acts))
    decreases |acts|
  {
    if acts != [] {
      Apply2(s, acts[0]);
      ApplyCred(s, acts[0]);
      hide Inv2, CredOk, Apply, Enabled, Gentle;
      CredRun(Apply(s, acts[0]), acts[1..]);
    }
  }

  /** At the start every stored Secret is foreign. */
  ghost predicate SecretsInitial(w: World) {
    && VersionsOk(w)
    && forall r, a | r in w.versions && a in w.crs :: w.versions[r].secret.owner != Some(a.uid)
  }

  lemma CredInitialOk(s: State)
    requires Initial(s) && SecretsInitial(s.w)
    ensures Inv2(s) && CredOk(s)
  {
    InitialOk(s);
    assert forall a | a in s.pcs :: s.pcs[a].Idle?;
    forall a | a in s.w.crs ensures AllPaired(s.w, a) {
    }
  }

  /** Credential pairing over whole runs: an owned Secret that names a client holds exactly the
      secret tsidp issued for it; and whenever a persisted status names a client, registered or
      adopted, some owned Secret had held its pair before. */
  lemma CredentialPairing(s: State, acts: seq<Action>, a: Ident)
    requires Initial(s) && SecretsInitial(s.w) && Legal(s, acts) && GentleRun(s, acts) && a in s.w.crs
    ensures var w := Exec(s, acts).w;
            && (forall key | key in w.secrets && w.secrets[key].owner == Some(a.uid)
               && "client_id" in w.secrets[key].data ::
                  var (data, id) := (w.secrets[key].data, w.secrets[key].data["client_id"]);
                  && id in w.issued && w.issued[id].owner == Some(a)
                  && "client_secret" in data && data["client_secret"] == w.issued[id].secret != "")
            && a in w.crs
            && (w.crs[a].status.clientID != "" ==> HadPair(w, a, w.crs[a].status.clientID))
  {
    hide Initial, SecretsInitial, Legal, Exec, GentleRun, Inv, Paired, HadPair, HeldOk;
    CredInitialOk(s);
    CredRun(s, acts);
    InitialOk(s);
    RunOk(s, acts);
    var w := Exec(s, acts).w;
    assert AllPaired(w, a);
    forall key | key in w.secrets ensures Paired(w, w.secrets[key], a) {
      assert Stored(w, key, w.secrets[key]);
      assert w.secrets[key].rv in w.versions;
    }
    PairedMeans(w, a);
  }

  lemma PairedMeans(w: World, a: Ident)
    requires forall key | key in w.secrets :: Paired(w, w.secrets[key], a)
    ensures forall key | key in w.secrets && w.secrets[key].owner == Some(a.uid)
              && "client_id" in w.secrets[key].data ::
              var (data, id) := (w.secrets[key].data, w.secrets[key].data["client_id"]);
              && id in w.issued && w.issued[id].owner == Some(a)
              && "client_secret" in data && data["client_secret"] == w.issued[id].secret != ""
  {
  }

  /** A registration whose secret never reached a Secret of its object is never named by the object
      or by its pass, and where the pass finds it first in a listing, it is burned. */
  lemma UnrecoverableBurned(s: State, acts: seq<Action>, a: Ident, id: string, entries: seq<Entry>)
    requires Initial(s) && SecretsInitial(s.w) && Legal(s, acts) && GentleRun(s, acts) && a in s.w.crs
    requires id != "" && NeverStored(Exec(s, acts).w, a, id)
    ensures var (w, pcs) := (Exec(s, acts).w, Exec(s, acts).pcs);
            && a in w.crs && a in pcs
            && w.crs[a].status.clientID != id
            && (!pcs[a].Idle? ==> pcs[a].oc.status.clientID != id)
            && (pcs[a].ListForAdoption? && Matches(entries, a) != [] && Matches(entries, a)[0] == id ==>
                  Resume(pcs[a], Clients(entries)) == BurnOrphan(pcs[a].oc, id))
  {
    hide Initial, SecretsInitial, Legal, Exec, GentleRun;
    CredInitialOk(s);
    CredRun(s, acts);
    InitialOk(s);
    RunOk(s, acts);
    var (w, pc) := (Exec(s, acts).w, Exec(s, acts).pcs[a]);
    Unnamed(w, a, pc, id, entries);
  }

  lemma Unnamed(w: World, a: Ident, pc: PC, id: string, entries: seq<Entry>)
    requires a in w.crs && CredObject(w, a) && CredPass(w, a, pc) && HeldOk(w, a, pc) && PassOk(w, a, pc)
    requires id != "" && NeverStored(w, a, id)
    ensures w.crs[a].status.clientID != id && (!pc.Idle? ==> pc.oc.status.clientID != id)
    ensures pc.ListForAdoption? && Matches(entries, a) != [] && Matches(entries, a)[0] == id ==>
              Resume(pc, Clients(entries)) == BurnOrphan(pc.oc, id)
  {
    if pc.ListForAdoption? && pc.held.Some? {
      assert w.versions[pc.held.value.rv].secret == pc.held.value;
    }
  }
}
