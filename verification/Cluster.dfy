/** The three stores and everyone who acts on them, one external call at a time: reconcile passes
    of any number of OIDCClient objects, with faults, and an environment. */
module Cluster {
  import opened Text
  import opened Types
  import opened Naming
  import opened Tsidp
  import opened Secrets

  // ---------------------------------------------------------------- the stores

  datatype SecretKey = SecretKey(ns: string, name: string)

  datatype Version = Version(key: SecretKey, secret: Secret)

  /** A registration tsidp made: its secret, and the object it was registered for, if any. */
  datatype Issue = Issue(secret: string, owner: Option<Ident>)

  /** The custom resources (an object that left the API server stays behind as gone), the Secrets
      with every version ever stored by resourceVersion, the tsidp registry with every id ever
      issued, the discovery document, and the counter behind resourceVersions and uids. */
  datatype World = World(
    crs: map<Ident, OIDCClient>,
    gone: set<Ident>,
    secrets: map<SecretKey, Secret>,
    versions: map<nat, Version>,
    clients: map<string, Registration>,
    issued: map<string, Issue>,
    disc: Discovery,
    tick: nat)

  function SecretKeyOf(oc: OIDCClient): SecretKey {
    SecretKey(oc.id.ns, SecretName(oc.id, oc.spec))
  }

  function PutSecret(w: World, key: SecretKey, s: Secret): World {
    var stored := s.(rv := w.tick);
    w.(secrets := w.secrets[key := stored], versions := w.versions[w.tick := Version(key, stored)], tick := w.tick + 1)
  }

  function PutObject(w: World, oc: OIDCClient): World {
    w.(crs := w.crs[oc.id := oc.(rv := w.tick)], tick := w.tick + 1)
  }

  // ---------------------------------------------------------------- calls and replies

  datatype Call =
    | UpdateObject(oc: OIDCClient)
    | UpdateStatus(oc: OIDCClient)
    | GetSecret(key: SecretKey)
    | GetCachedSecret(key: SecretKey)
    | CreateSecret(key: SecretKey, secret: Secret)
    | UpdateSecret(key: SecretKey, secret: Secret)
    | DeleteSecret(key: SecretKey, uid: nat)
    | GetDiscovery
    | ListClients
    | GetClient(id: string)
    | DeleteClient(id: string)
    | RegisterClient(name: string, uris: seq<string>)
    | EditClient(id: string, name: string, field: string)

  datatype Reply =
    | Failed
    | Missing
    | Conflict
    | Done
    | Object(oc: OIDCClient)
    | TheSecret(secret: Secret)
    | TheDiscovery(disc: Discovery)
    | Clients(entries: seq<Entry>)
    | Client(reg: Registration)
    | Registered(cred: Credentials)

  /** What the informer cache shows: the present, nothing, or a past version of the Secret. */
  datatype View = Fresh | Unseen | Past(rv: nat)

  /** What the servers are free to choose: the listing order, the new id and secret, the cache. */
  datatype Choice = Choice(listing: seq<Entry>, cred: Credentials, view: View)

  predicate Allowed(w: World, call: Call, ch: Choice) {
    && (call.ListClients? ==> Listing(ch.listing, w.clients))
    && (call.RegisterClient? ==> ch.cred.id != "" && ch.cred.secret != "" && ch.cred.id !in w.issued)
    && (call.GetCachedSecret? && ch.view.Past? ==>
          ch.view.rv in w.versions && w.versions[ch.view.rv].key == call.key)
  }

  function ReadSecret(w: World, key: SecretKey): Reply {
    if key in w.secrets then TheSecret(w.secrets[key]) else Missing
  }

  /** The effect of one call made by the pass of object me, and its reply. */
  function Serve(w: World, me: Ident, call: Call, ch: Choice): (World, Reply)
    requires Allowed(w, call, ch)
  {
    match call
    case UpdateObject(oc) =>
      if oc.id !in w.crs || oc.id in w.gone then (w, Missing)
      else if w.crs[oc.id].rv != oc.rv then (w, Conflict)
      else
        var stored := w.crs[oc.id].(spec := oc.spec, finalizer := oc.finalizer);
        var w' := PutObject(w, stored);
        (w'.(gone := if stored.deleting && !stored.finalizer then w.gone + {oc.id} else w.gone),
         Object(w'.crs[oc.id]))
    case UpdateStatus(oc) =>
      if oc.id !in w.crs || oc.id in w.gone then (w, Missing)
      else if w.crs[oc.id].rv != oc.rv then (w, Conflict)
      else
        var w' := PutObject(w, w.crs[oc.id].(status := oc.status));
        (w', Object(w'.crs[oc.id]))
    case GetSecret(key) => (w, ReadSecret(w, key))
    case GetCachedSecret(key) =>
      (match ch.view
       case Fresh => (w, ReadSecret(w, key))
       case Unseen => (w, Missing)
       case Past(rv) => (w, TheSecret(w.versions[rv].secret)))
    case CreateSecret(key, s) =>
      if key in w.secrets then (w, Conflict) else (PutSecret(w, key, s.(uid := w.tick)), Done)
    case UpdateSecret(key, s) =>
      if key !in w.secrets then (w, Missing)
      else if w.secrets[key].rv != s.rv then (w, Conflict)
      else (PutSecret(w, key, s.(uid := w.secrets[key].uid)), Done)
    case DeleteSecret(key, uid) =>
      if key !in w.secrets then (w, Missing)
      else if w.secrets[key].uid != uid then (w, Conflict)
      else (w.(secrets := w.secrets - {key}), Done)
    case GetDiscovery => (w, TheDiscovery(w.disc))
    case ListClients => (w, Clients(ch.listing))
    case GetClient(id) =>
      if id in w.clients then (w, Client(w.clients[id].Blank())) else (w, Missing)
    case DeleteClient(id) =>
      if id in w.clients then (w.(clients := w.clients - {id}), Done) else (w, Missing)
    case RegisterClient(name, uris) =>
      if uris == [] then (w, Failed)
      else
        (w.(clients := w.clients[ch.cred.id := Registration(name, uris, ch.cred.secret)],
            issued := w.issued[ch.cred.id := Issue(ch.cred.secret, Some(me))]),
         Registered(ch.cred))
    case EditClient(id, name, field) =>
      if id in w.clients then (w.(clients := Edited(w.clients, id, name, field)), Done) else (w, Missing)
  }

  /** A deletion leaves the client gone, found or not. */
  lemma ServeDelete(w: World, a: Ident, id: string, ch: Choice)
    ensures Allowed(w, DeleteClient(id), ch)
    ensures var (w', r) := Serve(w, a, DeleteClient(id), ch);
            w' == w.(clients := w.clients - {id}) && (r.Done? || r.Missing?)
  {
    assert id !in w.clients ==> w.clients - {id} == w.clients && w.(clients := w.clients - {id}) == w;
  }

  /** A create of an absent Secret and an update of the version read both go through. */
  lemma ServeWrite(w: World, a: Ident, key: SecretKey, s: Secret, create: bool, ch: Choice)
    requires create <==> key !in w.secrets
    requires !create ==> s.rv == w.secrets[key].rv && s.uid == w.secrets[key].uid
    ensures var call := if create then CreateSecret(key, s) else UpdateSecret(key, s);
            && Allowed(w, call, ch)
            && var (w', r) := Serve(w, a, call, ch);
               && r.Done? && w'.crs == w.crs && w'.gone == w.gone && w'.clients == w.clients && w'.disc == w.disc
               && key in w'.secrets
               && w'.secrets[key] == s.(uid := w'.secrets[key].uid, rv := w'.secrets[key].rv)
  {
  }

  // ---------------------------------------------------------------- a reconcile pass

  /** How a pass ended: nothing to do, requeued soon, after the back-off or at the next resync,
      returned an error, or crashed. */
  datatype Outcome = Finished | Soon | BackOff | Resync | Erred | Crashed

  /** Where a pass stands: the call it makes next, with the locals it still needs. */
  datatype PC =
    | Idle(outcome: Outcome)
    | AddFinalizer(oc: OIDCClient)
    | Discover(oc: OIDCClient)
    | VetTarget(oc: OIDCClient, disc: Discovery)
    | ReadOld(oc: OIDCClient, disc: Discovery)
    | DropOld(oc: OIDCClient, disc: Discovery, stale: Secret)
    | VetSecret(oc: OIDCClient, disc: Discovery)
    | ListForAdoption(oc: OIDCClient, disc: Discovery, held: Option<Secret>)
    | BurnOrphan(oc: OIDCClient, target: string)
    | Register(oc: OIDCClient, disc: Discovery)
    | UpsertRead(oc: OIDCClient, disc: Discovery, cred: Option<Credentials>)
    | UpsertWrite(oc: OIDCClient, cred: Option<Credentials>, secret: Secret, create: bool)
    | ReadRemote(oc: OIDCClient, disc: Discovery)
    | CheckSecret(oc: OIDCClient, disc: Discovery, remote: Registration)
    | BurnRecorded(oc: OIDCClient)
    | EditRemote(oc: OIDCClient, disc: Discovery)
    | VerifyEdit(oc: OIDCClient, disc: Discovery)
    | PutStatus(oc: OIDCClient, outcome: Outcome)
    | Unregister(oc: OIDCClient)
    | ListForCleanup(oc: OIDCClient)
    | Cleanup(oc: OIDCClient, todo: seq<string>)
    | DropFinalizer(oc: OIDCClient)

  /** The pass has a call to make. */
  predicate Calling(pc: PC) {
    !pc.Idle? && (pc.Cleanup? ==> pc.todo != [])
  }

  function CallOf(pc: PC): Call
    requires Calling(pc)
  {
    match pc
    case AddFinalizer(oc) => UpdateObject(oc.(finalizer := true))
    case Discover(oc) => GetDiscovery
    case VetTarget(oc, _) => GetSecret(SecretKeyOf(oc))
    case ReadOld(oc, _) => GetSecret(SecretKey(oc.id.ns, oc.status.secretName))
    case DropOld(oc, _, stale) => DeleteSecret(SecretKey(oc.id.ns, oc.status.secretName), stale.uid)
    case VetSecret(oc, _) => GetSecret(SecretKeyOf(oc))
    case ListForAdoption(_, _, _) => ListClients
    case BurnOrphan(_, target) => DeleteClient(target)
    case Register(oc, _) => RegisterClient(RegisteredName(oc.id, oc.spec), oc.spec.redirectURIs)
    case UpsertRead(oc, _, _) => GetCachedSecret(SecretKeyOf(oc))
    case UpsertWrite(oc, _, s, create) =>
      if create then CreateSecret(SecretKeyOf(oc), s) else UpdateSecret(SecretKeyOf(oc), s)
    case ReadRemote(oc, _) => GetClient(oc.status.clientID)
    case CheckSecret(oc, _, _) => GetSecret(SecretKeyOf(oc))
    case BurnRecorded(oc) => DeleteClient(oc.status.clientID)
    case EditRemote(oc, _) =>
      EditClient(oc.status.clientID, Trim(RegisteredName(oc.id, oc.spec)), Join(Normalise(oc.spec.redirectURIs)))
    case VerifyEdit(oc, _) => GetClient(oc.status.clientID)
    case PutStatus(oc, _) => UpdateStatus(oc)
    case Unregister(oc) => DeleteClient(oc.status.clientID)
    case ListForCleanup(_) => ListClients
    case Cleanup(_, todo) => DeleteClient(todo[0])
    case DropFinalizer(oc) => UpdateObject(oc.(finalizer := false))
  }

  // The decisions between two calls.

  function Unready(oc: OIDCClient, reason: Reason): PC {
    PutStatus(oc.(status := oc.status.(ready := False(reason))), BackOff)
  }

  function MarkReady(oc: OIDCClient): OIDCClient {
    oc.(status := oc.status.(secretName := SecretName(oc.id, oc.spec), ready := True))
  }

  /** The first decisions of Reconcile, on the object just read. */
  function Dispatch(oc: OIDCClient): PC {
    if oc.deleting then
      if !oc.finalizer then Idle(Finished)
      else if oc.force || oc.spec.deletionPolicy == Orphan then DropFinalizer(oc)
      else if oc.status.clientID != "" then Unregister(oc)
      else ListForCleanup(oc)
    else if !oc.finalizer then AddFinalizer(oc)
    else StartNormal(oc)
  }

  function StartNormal(oc: OIDCClient): PC {
    if !URIsClean(oc.spec.redirectURIs) then Unready(oc, SpecInvalid) else Discover(oc)
  }

  function AfterDiscovery(oc: OIDCClient, d: Discovery): PC {
    if oc.status.secretName != "" && oc.status.secretName != SecretName(oc.id, oc.spec) then VetTarget(oc, d)
    else AfterRename(oc, d)
  }

  function AfterRename(oc: OIDCClient, d: Discovery): PC {
    if oc.status.clientID == "" then VetSecret(oc, d) else ReadRemote(oc, d)
  }

  function Renamed(oc: OIDCClient): OIDCClient {
    oc.(status := oc.status.(secretName := ""))
  }

  /** The Secret holds usable credentials of the given client. */
  predicate Holds(s: Secret, id: string) {
    && CLIENT_ID in s.data && s.data[CLIENT_ID] == id
    && CLIENT_SECRET in s.data && s.data[CLIENT_SECRET] != ""
  }

  /** The ids among the entries whose name carries the fingerprint, in listing order. */
  function Matches(entries: seq<Entry>, a: Ident): seq<string> {
    if entries == [] then []
    else (if Carries(entries[0].reg.name, a) then [entries[0].id] else []) + Matches(entries[1..], a)
  }

  function AfterAdoptionList(oc: OIDCClient, d: Discovery, held: Option<Secret>, entries: seq<Entry>): PC {
    var m := Matches(entries, oc.id);
    if m == [] then Register(oc, d)
    else if held.Some? && Holds(held.value, m[0]) then ReadRemote(oc.WithID(m[0]), d)
    else BurnOrphan(oc, m[0])
  }

  function AfterUpsert(oc: OIDCClient, cred: Option<Credentials>): PC {
    match cred
    case None => PutStatus(MarkReady(oc), Resync)
    case Some(c) => PutStatus(MarkReady(oc.WithID(c.id)), Resync)
  }

  function UpsertFailed(oc: OIDCClient, cred: Option<Credentials>): PC {
    Unready(oc, if cred.None? then SecretWriteFailed else RegistrationFailed)
  }

  function AfterUpsertRead(oc: OIDCClient, d: Discovery, cred: Option<Credentials>, read: Option<Secret>): PC {
    match read
    case None => UpsertWrite(oc, cred, Wanted(NEW, oc, d, cred), true)
    case Some(s) =>
      if s.owner != Some(oc.id.uid) then UpsertFailed(oc, cred)
      else
        var want := Wanted(s, oc, d, cred);
        if want == s then AfterUpsert(oc, cred) else UpsertWrite(oc, cred, want, false)
  }

  function AfterCheck(oc: OIDCClient, d: Discovery, remote: Registration, read: Option<Secret>): PC {
    if read.None? || !Holds(read.value, oc.status.clientID) then BurnRecorded(oc)
    else if Converged(remote, RegisteredName(oc.id, oc.spec), oc.spec.redirectURIs) then UpsertRead(oc, d, None)
    else match oc.spec.updatePolicy
      case InPlace => EditRemote(oc, d)
      case Block => Unready(oc, DriftBlocked)
      case Recreate => BurnRecorded(oc)
  }

  function AfterCleanup(oc: OIDCClient, todo: seq<string>): PC {
    if todo == [] then DropFinalizer(oc) else Cleanup(oc, todo)
  }

  /** What the pass does with a reply. */
  function Resume(pc: PC, r: Reply): PC
    requires Calling(pc)
  {
    match pc
    case AddFinalizer(oc) => if r.Object? then StartNormal(r.oc) else Idle(Erred)
    case Discover(oc) =>
      if r.TheDiscovery? then AfterDiscovery(oc.(status := oc.status.(issuer := r.disc.issuer)), r.disc)
      else Unready(oc, TsidpUnreachable)
    case VetTarget(oc, d) =>
      (match r
       case Missing => ReadOld(oc, d)
       case TheSecret(s) => if s.owner == Some(oc.id.uid) then ReadOld(oc, d) else Unready(oc, SecretConflict)
       case _ => Unready(oc, SecretReadFailed))
    case ReadOld(oc, d) =>
      (match r
       case Missing => AfterRename(Renamed(oc), d)
       case TheSecret(s) => if s.owner == Some(oc.id.uid) then DropOld(oc, d, s) else AfterRename(Renamed(oc), d)
       case _ => Unready(oc, SecretCleanupFailed))
    case DropOld(oc, d, _) =>
      if r.Done? || r.Missing? then AfterRename(Renamed(oc), d) else Unready(oc, SecretCleanupFailed)
    case VetSecret(oc, d) =>
      (match r
       case Missing => ListForAdoption(oc, d, None)
       case TheSecret(s) =>
         if s.owner == Some(oc.id.uid) then ListForAdoption(oc, d, Some(s)) else Unready(oc, SecretConflict)
       case _ => Unready(oc, RegistrationFailed))
    case ListForAdoption(oc, d, held) =>
      if r.Clients? then AfterAdoptionList(oc, d, held, r.entries) else Unready(oc, RegistrationFailed)
    case BurnOrphan(oc, _) =>
      if r.Done? || r.Missing? then PutStatus(oc, Soon) else Unready(oc, RegistrationFailed)
    case Register(oc, d) =>
      if r.Registered? then UpsertRead(oc, d, Some(r.cred)) else Unready(oc, RegistrationFailed)
    case UpsertRead(oc, d, cred) =>
      (match r
       case Missing => AfterUpsertRead(oc, d, cred, None)
       case TheSecret(s) => AfterUpsertRead(oc, d, cred, Some(s))
       case _ => UpsertFailed(oc, cred))
    case UpsertWrite(oc, cred, _, _) =>
      if r.Done? then AfterUpsert(oc, cred) else UpsertFailed(oc, cred)
    case ReadRemote(oc, d) =>
      (match r
       case Missing => PutStatus(oc.WithID(""), Soon)
       case Client(reg) => CheckSecret(oc, d, reg)
       case _ => Unready(oc, TsidpUnreachable))
    case CheckSecret(oc, d, remote) =>
      (match r
       case Missing => AfterCheck(oc, d, remote, None)
       case TheSecret(s) => AfterCheck(oc, d, remote, Some(s))
       case _ => Unready(oc, SecretReadFailed))
    case BurnRecorded(oc) =>
      if r.Done? || r.Missing? then PutStatus(oc.WithID(""), Soon) else Unready(oc, TsidpUnreachable)
    case EditRemote(oc, d) => if r.Done? then VerifyEdit(oc, d) else Unready(oc, InPlaceUpdateFailed)
    case VerifyEdit(oc, d) =>
      if r.Client? && Converged(r.reg, Trim(RegisteredName(oc.id, oc.spec)), Normalise(oc.spec.redirectURIs))
      then UpsertRead(oc, d, None)
      else Unready(oc, InPlaceUpdateFailed)
    case PutStatus(oc, outcome) =>
      Idle(if r.Object? then outcome else if r.Conflict? then Soon else Erred)
    case Unregister(oc) => if r.Done? || r.Missing? then DropFinalizer(oc) else Idle(BackOff)
    case ListForCleanup(oc) =>
      if r.Clients? then AfterCleanup(oc, Matches(r.entries, oc.id)) else Idle(BackOff)
    case Cleanup(oc, todo) =>
      if r.Done? || r.Missing? then AfterCleanup(oc, todo[1..]) else Idle(BackOff)
    case DropFinalizer(oc) => Idle(if r.Object? then Finished else Erred)
  }

  // ---------------------------------------------------------------- actions

  /** What can go wrong with a call: it is refused without effect, its reply is lost after the
      effect, or the operator crashes before or after the effect. */
  datatype Fault = NoFault | Refused | ReplyLost | CrashBefore | CrashAfter

  datatype Action =
    | Begin(me: Ident)
    | Step(me: Ident, fault: Fault, choice: Choice)
    // users and the API server
    | EditSpec(a: Ident, spec: Spec)
    | SetForce(a: Ident, force: bool)
    | MarkDeleted(a: Ident)
    | StoreSecret(key: SecretKey, secret: Secret)
    | RemoveSecret(key: SecretKey)
    // tsidp and its administrators
    | RegisterForeign(id: string, reg: Registration)
    | AdminEdit(id: string, name: string, uris: seq<string>)
    | LoseClients(ids: set<string>)
    | ChangeDiscovery(disc: Discovery)

  /** The world and, for every object, where its pass stands: one pass at a time each. */
  datatype State = State(w: World, pcs: map<Ident, PC>)

  predicate Live(w: World, a: Ident) {
    a in w.crs && a !in w.gone
  }

  predicate Enabled(s: State, act: Action) {
    match act
    case Begin(me) => me in s.pcs && s.pcs[me].Idle? && Live(s.w, me)
    case Step(me, _, ch) =>
      && me in s.pcs && Calling(s.pcs[me])
      && Allowed(s.w, CallOf(s.pcs[me]), ch)
    case EditSpec(a, spec) => Live(s.w, a) && Admitted(spec)
    case SetForce(a, _) => Live(s.w, a)
    case MarkDeleted(a) => Live(s.w, a)
    case StoreSecret(_, _) => true
    case RemoveSecret(_) => true
    case RegisterForeign(id, reg) => id != "" && id !in s.w.issued && !Contains(reg.name, MARK)
    case AdminEdit(id, name, _) => id in s.w.clients && (name == s.w.clients[id].name || !Contains(name, MARK))
    case LoseClients(_) => true
    case ChangeDiscovery(_) => true
  }

  /** One action of the environment. */
  function Disturb(w: World, act: Action): World
    requires !act.Begin? && !act.Step?
    requires act.EditSpec? || act.SetForce? || act.MarkDeleted? ==> Live(w, act.a)
    requires act.AdminEdit? ==> act.id in w.clients
  {
    match act
    case EditSpec(a, spec) => PutObject(w, w.crs[a].(id := a, spec := spec))
    case SetForce(a, force) => PutObject(w, w.crs[a].(id := a, force := force))
    case MarkDeleted(a) =>
      PutObject(w, w.crs[a].(id := a, deleting := true))
        .(gone := if w.crs[a].finalizer then w.gone else w.gone + {a})
    case StoreSecret(key, s) =>
      var keep := key in w.secrets && s.uid == w.secrets[key].uid;
      PutSecret(w, key, if keep then s else s.(uid := w.tick))
    case RemoveSecret(key) => w.(secrets := w.secrets - {key})
    case RegisterForeign(id, reg) =>
      w.(clients := w.clients[id := reg], issued := w.issued[id := Issue(reg.secret, None)])
    case AdminEdit(id, name, uris) =>
      w.(clients := w.clients[id := w.clients[id].(name := name, uris := uris)])
    case LoseClients(ids) => w.(clients := w.clients - ids)
    case ChangeDiscovery(d) => w.(disc := d)
  }

  /** One step of a pass: the call with its fault. */
  function Advance(w: World, pc: PC, me: Ident, fault: Fault, ch: Choice): (World, PC)
    requires Calling(pc) && Allowed(w, CallOf(pc), ch)
  {
    var (w', r) := Serve(w, me, CallOf(pc), ch);
    match fault
    case NoFault => (w', Resume(pc, r))
    case Refused => (w, Resume(pc, Failed))
    case ReplyLost => (w', Resume(pc, Failed))
    case CrashBefore => (w, Idle(Crashed))
    case CrashAfter => (w', Idle(Crashed))
  }

  function Apply(s: State, act: Action): State
    requires Enabled(s, act)
  {
    match act
    case Begin(me) => s.(pcs := s.pcs[me := Dispatch(s.w.crs[me])])
    case Step(me, fault, ch) =>
      var (w', pc') := Advance(s.w, s.pcs[me], me, fault, ch);
      State(w', s.pcs[me := pc'])
    case _ => s.(w := Disturb(s.w, act))
  }

  // ---------------------------------------------------------------- runs

  predicate Legal(s: State, acts: seq<Action>)
    decreases |acts|
  {
    acts == [] || (Enabled(s, acts[0]) && Legal(Apply(s, acts[0]), acts[1..]))
  }

  function Exec(s: State, acts: seq<Action>): State
    requires Legal(s, acts)
    decreases |acts|
  {
    if acts == [] then s else Exec(Apply(s, acts[0]), acts[1..])
  }

  /** Running one sequence after another is running their concatenation. */
  lemma {:induction false} ExecConcat(s: State, acts: seq<Action>, more: seq<Action>)
    requires Legal(s, acts) && Legal(Exec(s, acts), more)
    ensures Legal(s, acts + more) && Exec(s, acts + more) == Exec(Exec(s, acts), more)
    decreases |acts|
  {
    hide Apply, Enabled;
    if acts == [] {
      assert acts + more == more;
    } else {
      ExecConcat(Apply(s, acts[0]), acts[1..], more);
      assert (acts + more)[1..] == acts[1..] + more;
    }
  }

  lemma ExecOne(s: State, act: Action)
    requires Enabled(s, act)
    ensures Legal(s, [act]) && Exec(s, [act]) == Apply(s, act)
  {
    assert Legal(Apply(s, act), [act][1..]);
    assert Exec(s, [act]) == Exec(Apply(s, act), [act][1..]);
  }

  /** The action is one of me's own pass. */
  predicate ActsFor(act: Action, me: Ident) {
    (act.Begin? || act.Step?) && act.me == me
  }

  lemma OthersElsewhere(s: State, act: Action, me: Ident)
    requires Enabled(s, act) && !ActsFor(act, me) && me in s.pcs
    ensures me in Apply(s, act).pcs && Apply(s, act).pcs[me] == s.pcs[me]
  {
    hide Advance, Dispatch, Disturb;
  }

  /** A step leaves the world as it was or with the effect of its call, and the pass hears the reply,
      a failure, or nothing any more. */
  lemma StepOutcome(s: State, me: Ident, fault: Fault, ch: Choice)
    requires Enabled(s, Step(me, fault, ch))
    ensures me in s.pcs && Calling(s.pcs[me]) && Allowed(s.w, CallOf(s.pcs[me]), ch)
    ensures var (pc, s') := (s.pcs[me], Apply(s, Step(me, fault, ch)));
            var (w', r) := Serve(s.w, me, CallOf(pc), ch);
            && me in s'.pcs && s'.pcs == s.pcs[me := s'.pcs[me]]
            && (|| (s'.w == w' && s'.pcs[me] == Resume(pc, r))
                || ((s'.w == w' || s'.w == s.w) && (s'.pcs[me] == Resume(pc, Failed) || s'.pcs[me] == Idle(Crashed))))
  {
    hide Serve, Resume, CallOf, Allowed;
  }

  /** How many passes of me a run begins. */
  function Begins(acts: seq<Action>, me: Ident): nat {
    if acts == [] then 0 else (if acts[0] == Begin(me) then 1 else 0) + Begins(acts[1..], me)
  }

  lemma {:induction false} BeginsConcat(acts: seq<Action>, more: seq<Action>, me: Ident)
    ensures Begins(acts + more, me) == Begins(acts, me) + Begins(more, me)
  {
    if acts == [] {
      assert acts + more == more;
    } else {
      assert (acts + more)[1..] == acts[1..] + more;
      BeginsConcat(acts[1..], more, me);
    }
  }

  lemma BeginsNext(acts: seq<Action>, act: Action, me: Ident)
    ensures Begins(acts + [act], me) == Begins(acts, me) + (if act == Begin(me) then 1 else 0)
  {
    BeginsConcat(acts, [act], me);
  }

  lemma {:induction false} MatchesExact(entries: seq<Entry>, a: Ident)
    ensures forall id :: id in Matches(entries, a) <==>
              exists i :: 0 <= i < |entries| && entries[i].id == id && Carries(entries[i].reg.name, a)
  {
    if entries != [] {
      MatchesExact(entries[1..], a);
      forall id ensures id in Matches(entries, a) <==>
              exists i :: 0 <= i < |entries| && entries[i].id == id && Carries(entries[i].reg.name, a)
      {
        if id in Matches(entries[1..], a) {
          var i :| 0 <= i < |entries[1..]| && entries[1..][i].id == id && Carries(entries[1..][i].reg.name, a);
          assert entries[i + 1] == entries[1..][i];
        }
        if i :| 0 <= i < |entries| && entries[i].id == id && Carries(entries[i].reg.name, a) {
          if i > 0 {
            assert entries[1..][i - 1] == entries[i];
          }
        }
      }
    }
  }

  /** The live registrations whose names carry the fingerprint of an object. */
  function Mine(clients: map<string, Registration>, a: Ident): set<string> {
    set id | id in clients && Carries(clients[id].name, a)
  }

  /** A complete listing matches exactly those. */
  lemma MatchesMine(clients: map<string, Registration>, entries: seq<Entry>, a: Ident)
    requires Listing(entries, clients)
    ensures forall id :: id in Matches(entries, a) <==> id in Mine(clients, a)
  {
    MatchesExact(entries, a);
    forall id | id in Mine(clients, a) ensures id in Matches(entries, a) {
      var i :| 0 <= i < |entries| && entries[i].id == id;
      assert Carries(entries[i].reg.name, a);
    }
  }

  // ---------------------------------------------------------------- what calls, faults and others do

  /** The plaintext secret is in no reply but that to a registration. */
  lemma SecretOnlyOnce(w: World, me: Ident, call: Call, ch: Choice)
    requires Allowed(w, call, ch) && !call.RegisterClient?
    ensures var r := Serve(w, me, call, ch).1;
            && !r.Registered?
            && (r.Client? ==> r.reg.secret == "")
            && (r.Clients? ==> forall i | 0 <= i < |r.entries| :: r.entries[i].reg.secret == "")
  {
    hide Edited;
  }

  /** A fault decides whether the effect happens and whether the pass hears of it; nothing else of the
      state changes. */
  lemma FaultMeans(s: State, me: Ident, fault: Fault, ch: Choice)
    requires Enabled(s, Step(me, fault, ch))
    ensures var (pc, s') := (s.pcs[me], Apply(s, Step(me, fault, ch)));
            var (w', r) := Serve(s.w, me, CallOf(pc), ch);
            && s'.pcs - {me} == s.pcs - {me} && me in s'.pcs
            && s'.w == (if fault == Refused || fault == CrashBefore then s.w else w')
            && s'.pcs[me] == (if fault == NoFault then Resume(pc, r)
                              else if fault == Refused || fault == ReplyLost then Resume(pc, Failed)
                              else Idle(Crashed))
  {
    hide Serve, Resume, CallOf, Allowed;
  }

  /** Users and the API server: each action writes what it says, under a new resourceVersion, and
      nothing else. */
  lemma UsersMean(s: State, act: Action)
    requires Enabled(s, act) && forall a | a in s.w.crs :: s.w.crs[a].id == a
    ensures var (w, w') := (s.w, Apply(s, act).w);
            && (act.EditSpec? ==>
                  w'.crs == w.crs[act.a := w.crs[act.a].(spec := act.spec, rv := w.tick)] && w'.gone == w.gone)
            && (act.SetForce? ==>
                  w'.crs == w.crs[act.a := w.crs[act.a].(force := act.force, rv := w.tick)] && w'.gone == w.gone)
            && (act.MarkDeleted? ==>
                  && w'.crs == w.crs[act.a := w.crs[act.a].(deleting := true, rv := w.tick)]
                  && (act.a in w'.gone <==> !w.crs[act.a].finalizer))
            && (act.StoreSecret? ==>
                  && act.key in w'.secrets && w'.secrets - {act.key} == w.secrets - {act.key}
                  && w'.secrets[act.key].data == act.secret.data && w'.secrets[act.key].labels == act.secret.labels
                  && w'.secrets[act.key].owner == act.secret.owner && w'.secrets[act.key].rv == w.tick
                  && (act.key !in w.secrets ==> w'.secrets[act.key].uid == w.tick))
            && (act.RemoveSecret? ==> w'.secrets == w.secrets - {act.key})
            && (!act.Begin? && !act.Step? && !act.EditSpec? && !act.SetForce? && !act.MarkDeleted? ==>
                  w'.crs == w.crs && w'.gone == w.gone)
  {
    hide Admitted, Contains;
  }

  /** tsidp and its administrators. */
  lemma TsidpMeans(s: State, act: Action)
    requires Enabled(s, act) && !act.Begin? && !act.Step?
    ensures var (w, w') := (s.w, Apply(s, act).w);
            && (act.RegisterForeign? ==> w'.clients == w.clients[act.id := act.reg] && act.id in w'.issued)
            && (act.AdminEdit? ==>
                  w'.clients == w.clients[act.id := Registration(act.name, act.uris, w.clients[act.id].secret)])
            && (act.LoseClients? ==> w'.clients == w.clients - act.ids)
            && (act.ChangeDiscovery? ==> w'.disc == act.disc)
            && (!act.RegisterForeign? && !act.AdminEdit? && !act.LoseClients? ==> w'.clients == w.clients)
            && (!act.ChangeDiscovery? ==> w'.disc == w.disc)
  {
    hide Admitted, Contains;
  }

  /** The cache may show any version of the Secret ever stored, or none. */
  lemma CacheMayLag(w: World, me: Ident, key: SecretKey, rv: nat, ch: Choice)
    requires rv in w.versions && w.versions[rv].key == key
    ensures Allowed(w, GetCachedSecret(key), ch.(view := Past(rv)))
    ensures Serve(w, me, GetCachedSecret(key), ch.(view := Past(rv))) == (w, TheSecret(w.versions[rv].secret))
    ensures Allowed(w, GetCachedSecret(key), ch.(view := Unseen))
    ensures Serve(w, me, GetCachedSecret(key), ch.(view := Unseen)) == (w, Missing)
  {
  }

  /** A pass whose object fails the guard and has its finalizer writes the SpecInvalid status and calls
      nothing else. */
  lemma GuardStops(oc: OIDCClient, i: nat, j: nat, r: Reply)
    requires !oc.deleting && oc.finalizer
    requires i < |oc.spec.redirectURIs| && j < |oc.spec.redirectURIs[i]|
    requires BadPoint(oc.spec.redirectURIs[i][j] as int)
    ensures var pc := Dispatch(oc);
            && pc == PutStatus(oc.(status := oc.status.(ready := False(SpecInvalid))), BackOff)
            && CallOf(pc) == UpdateStatus(pc.oc) && Resume(pc, r).Idle?
  {
    GuardExact(oc.spec.redirectURIs);
    hide URIsClean;
  }

  /** The names that a registration and an edit post. */
  lemma PostedNames(oc: OIDCClient, d: Discovery, pre: string, core: string, post: string)
    requires ValidIdent(oc.id) && Admitted(oc.spec)
    requires oc.spec.clientName == pre + core + post && AllSpace(pre) && AllSpace(post) && Bare(core)
    ensures var name := (if core == "" then oc.id.name else core) + " [k8s:" + oc.id.ns + "/" + oc.id.name + "/"
                        + (if |oc.id.uid| < 8 then oc.id.uid else oc.id.uid[..8]) + "]";
            && CallOf(Register(oc, d)) == RegisterClient(name, oc.spec.redirectURIs)
            && CallOf(EditRemote(oc, d)).EditClient? && CallOf(EditRemote(oc, d)).name == name
  {
    hide Trim, RegisteredName, Join, Normalise, Contains, AdmittedURI, SecretKeyOf;
    RegisteredNameExact(oc.id, oc.spec, pre, core, post);
    RegisteredNameTrimmed(oc.id, oc.spec);
  }
}
