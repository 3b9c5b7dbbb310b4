/** What the reconciler's methods promise, told by the calls they made and the replies they got. */
module Account {
  import opened Text
  import opened Types
  import opened Naming
  import opened Tsidp
  import opened Secrets
  import opened Cluster
  import opened Session

  /** The calls made since. */
  ghost function Since(before: seq<Event>, after: seq<Event>): seq<Event>
    requires before <= after
  {
    after[|before|..]
  }

  lemma SinceNext(before: seq<Event>, e: Event, after: seq<Event>)
    requires before + [e] <= after
    ensures before <= after
    ensures var es := Since(before, after); es != [] && es[0] == e && es[1..] == Since(before + [e], after)
  {
  }

  lemma SinceThen(before: seq<Event>, mid: seq<Event>, after: seq<Event>)
    requires before <= mid <= after
    ensures before <= after && Since(before, after) == Since(before, mid) + Since(mid, after)
  {
  }

  lemma SinceOne(before: seq<Event>, e: Event)
    ensures before <= before + [e] && Since(before, before + [e]) == [e]
  {
  }

  lemma SinceTwo(before: seq<Event>, e: Event, f: Event)
    ensures before <= before + [e] + [f] && Since(before, before + [e] + [f]) == [e, f]
  {
  }

  lemma SinceSame(before: seq<Event>)
    ensures Since(before, before) == []
  {
  }

  // ---------------------------------------------------------------- the object

  /** The name and place of the credentials Secret. */
  function WantedName(oc: OIDCClient): string {
    if oc.spec.secretName == "" then oc.id.name + "-oidc" else oc.spec.secretName
  }

  function WantedKey(oc: OIDCClient): SecretKey {
    SecretKey(oc.id.ns, WantedName(oc))
  }

  lemma KeyExact(oc: OIDCClient)
    ensures SecretKeyOf(oc) == WantedKey(oc) && SecretName(oc.id, oc.spec) == WantedName(oc)
  {
  }

  /** The Secret has the client's id and a secret that is not empty. */
  predicate HasPair(s: Secret, id: string) {
    && "client_id" in s.data && s.data["client_id"] == id
    && "client_secret" in s.data && s.data["client_secret"] != ""
  }

  lemma PairExact(s: Secret, id: string)
    ensures Holds(s, id) <==> HasPair(s, id)
  {
  }

  function ForClient(oc: OIDCClient, id: string): OIDCClient {
    oc.(status := oc.status.(clientID := id))
  }

  function Ready(oc: OIDCClient): OIDCClient {
    oc.(status := oc.status.(secretName := WantedName(oc), ready := True))
  }

  function Marked(oc: OIDCClient, reason: Reason): OIDCClient {
    oc.(status := oc.status.(ready := False(reason)))
  }

  // ---------------------------------------------------------------- tsidp

  predicate Gone(e: Event, id: string) {
    e.call == DeleteClient(id) && (e.reply == Some(Reply.Done) || e.reply == Some(Missing))
  }

  /** UpdateClient has seen the normalised name and URIs come back. */
  predicate Updated(es: seq<Event>, id: string, name: string, uris: seq<string>) {
    && |es| == 2
    && es[0] == Event(EditClient(id, Trim(name), Join(Normalise(uris))), Some(Reply.Done))
    && es[1].call == GetClient(id) && es[1].reply.Some? && es[1].reply.value.Client?
    && es[1].reply.value.reg.name == Trim(name)
    && multiset(es[1].reply.value.reg.uris) == multiset(Normalise(uris))
  }

  /** The recorded registration is forgotten exactly when its deletion was confirmed. */
  predicate Burning(es: seq<Event>, oc0: OIDCClient, x: Outcome, oc: OIDCClient) {
    && |es| == 1 && es[0].call == DeleteClient(oc0.status.clientID)
    && if Gone(es[0], oc0.status.clientID) then x == Soon && oc == ForClient(oc0, "")
       else x == BackOff && oc == Marked(oc0, TsidpUnreachable)
  }

  // ---------------------------------------------------------------- Secrets

  /** The read decides: create what is absent, update what is owned and different, leave what is as
      wanted; never touch what is foreign. */
  predicate Upserted(es: seq<Event>, oc: OIDCClient, d: Discovery, cred: Option<Credentials>) {
    var key := WantedKey(oc);
    && es != [] && es[0].call == GetCachedSecret(key) && es[0].reply.Some?
    && match es[0].reply.value
       case Missing => es[1..] == [Event(CreateSecret(key, Wanted(NEW, oc, d, cred)), Some(Reply.Done))]
       case TheSecret(s) =>
         && s.owner == Some(oc.id.uid)
         && var want := Wanted(s, oc, d, cred);
            es[1..] == if want == s then [] else [Event(UpdateSecret(key, want), Some(Reply.Done))]
       case _ => false
  }

  /** The old Secret was absent, or foreign and left alone, or owned and deleted by the uid read. */
  predicate RemovedOld(es: seq<Event>, oc: OIDCClient) {
    var key := SecretKey(oc.id.ns, oc.status.secretName);
    && es != [] && es[0].call == GetSecret(key) && es[0].reply.Some?
    && match es[0].reply.value
       case Missing => |es| == 1
       case TheSecret(s) =>
         if s.owner == Some(oc.id.uid) then
           |es| == 2 && es[1].call == DeleteSecret(key, s.uid) &&
           (es[1].reply == Some(Reply.Done) || es[1].reply == Some(Missing))
         else |es| == 1
       case _ => false
  }

  /** The new name is read first; a foreign or unreadable Secret ends it there. */
  predicate Renaming(es: seq<Event>, oc0: OIDCClient, refused: Option<Reason>, oc: OIDCClient) {
    && es != [] && es[0].call == GetSecret(WantedKey(oc0)) && es[0].reply.Some?
    && var r := es[0].reply.value;
       if r.TheSecret? && r.secret.owner != Some(oc0.id.uid) then |es| == 1 && refused == Some(SecretConflict)
         && oc == oc0
       else if !r.TheSecret? && !r.Missing? then |es| == 1 && refused == Some(SecretReadFailed) && oc == oc0
       else OldRemoval(es[1..], oc0, refused, oc)
  }

  predicate OldRemoval(es: seq<Event>, oc0: OIDCClient, refused: Option<Reason>, oc: OIDCClient) {
    if RemovedOld(es, oc0) then refused == None && oc == oc0.(status := oc0.status.(secretName := ""))
    else refused == Some(SecretCleanupFailed) && oc == oc0
  }

  // ---------------------------------------------------------------- the recorded registration

  /** Ready only after the upsert of metadata went through. */
  predicate Finishing(es: seq<Event>, oc0: OIDCClient, d: Discovery, x: Outcome, oc: OIDCClient) {
    if Upserted(es, oc0, d, None) then x == Resync && oc == Ready(oc0)
    else x == BackOff && oc == Marked(oc0, SecretWriteFailed)
  }

  predicate Editing(es: seq<Event>, oc0: OIDCClient, d: Discovery, x: Outcome, oc: OIDCClient) {
    if |es| >= 2 && Updated(es[..2], oc0.status.clientID, RegisteredName(oc0.id, oc0.spec), oc0.spec.redirectURIs)
    then Finishing(es[2..], oc0, d, x, oc)
    else x == BackOff && oc == Marked(oc0, InPlaceUpdateFailed)
  }

  /** Drift is answered by the policy. */
  predicate Answering(es: seq<Event>, oc0: OIDCClient, d: Discovery, x: Outcome, oc: OIDCClient) {
    match oc0.spec.updatePolicy
    case InPlace => Editing(es, oc0, d, x, oc)
    case Block => es == [] && x == BackOff && oc == Marked(oc0, DriftBlocked)
    case Recreate => Burning(es, oc0, x, oc)
  }

  /** Credentials first, then drift, then the policy's answer. */
  predicate Checking(es: seq<Event>, oc0: OIDCClient, d: Discovery, remote: Registration, x: Outcome, oc: OIDCClient) {
    && es != [] && es[0].call == GetSecret(WantedKey(oc0)) && es[0].reply.Some?
    && match es[0].reply.value
       case Missing => Burning(es[1..], oc0, x, oc)
       case TheSecret(s) =>
         if !HasPair(s, oc0.status.clientID) then Burning(es[1..], oc0, x, oc)
         else if remote.name == RegisteredName(oc0.id, oc0.spec)
           && multiset(remote.uris) == multiset(oc0.spec.redirectURIs)
           then Finishing(es[1..], oc0, d, x, oc)
         else Answering(es[1..], oc0, d, x, oc)
       case _ => |es| == 1 && x == BackOff && oc == Marked(oc0, SecretReadFailed)
  }

  /** A registration that is lost is forgotten, one that cannot be read is kept. */
  predicate Keeping(es: seq<Event>, oc0: OIDCClient, d: Discovery, x: Outcome, oc: OIDCClient) {
    && es != [] && es[0].call == GetClient(oc0.status.clientID) && es[0].reply.Some?
    && match es[0].reply.value
       case Missing => |es| == 1 && x == Soon && oc == ForClient(oc0, "")
       case Client(remote) => Checking(es[1..], oc0, d, remote, x, oc)
       case _ => |es| == 1 && x == BackOff && oc == Marked(oc0, TsidpUnreachable)
  }

  // ---------------------------------------------------------------- a new registration

  datatype Registering = Adopted | Newly | BurnedOrphan | Rejected(reason: Reason)

  /** The Secret holds the new pair before the object names the client. */
  predicate Enrolling(es: seq<Event>, oc0: OIDCClient, d: Discovery, g: Registering, oc: OIDCClient) {
    && es != [] && es[0].call == RegisterClient(RegisteredName(oc0.id, oc0.spec), oc0.spec.redirectURIs)
    && es[0].reply.Some?
    && match es[0].reply.value
       case Registered(c) =>
         if Upserted(es[1..], oc0, d, Some(c)) then
           g == Newly
           && oc == oc0.(status := oc0.status.(clientID := c.id, secretName := WantedName(oc0)))
         else g == Rejected(RegistrationFailed) && oc == oc0
       case _ => |es| == 1 && g == Rejected(RegistrationFailed) && oc == oc0
  }

  /** The first match of the listing decides; only without any is a client registered. */
  predicate Adopting(es: seq<Event>, oc0: OIDCClient, d: Discovery, held: Option<Secret>, list: seq<Entry>,
      g: Registering, oc: OIDCClient) {
    var m := Matches(list, oc0.id);
    if m == [] then Enrolling(es, oc0, d, g, oc)
    else if held.Some? && HasPair(held.value, m[0]) then es == [] && g == Adopted && oc == ForClient(oc0, m[0])
    else
      && |es| == 1 && es[0].call == DeleteClient(m[0]) && oc == oc0
      && g == if Gone(es[0], m[0]) then BurnedOrphan else Rejected(RegistrationFailed)
  }

  /** The Secret's name is vetted before tsidp is as much as asked. */
  predicate Claiming(es: seq<Event>, oc0: OIDCClient, d: Discovery, g: Registering, oc: OIDCClient) {
    && es != [] && es[0].call == GetSecret(WantedKey(oc0)) && es[0].reply.Some?
    && var r := es[0].reply.value;
       if r.TheSecret? && r.secret.owner != Some(oc0.id.uid) then |es| == 1 && g == Rejected(SecretConflict)
         && oc == oc0
       else if !r.TheSecret? && !r.Missing? then |es| == 1 && g == Rejected(RegistrationFailed) && oc == oc0
       else Choosing(es[1..], oc0, d, if r.TheSecret? then Some(r.secret) else None, g, oc)
  }

  predicate Choosing(es: seq<Event>, oc0: OIDCClient, d: Discovery, held: Option<Secret>, g: Registering,
      oc: OIDCClient) {
    && es != [] && es[0].call == ListClients && es[0].reply.Some?
    && match es[0].reply.value
       case Clients(list) => Adopting(es[1..], oc0, d, held, list, g, oc)
       case _ => |es| == 1 && g == Rejected(RegistrationFailed) && oc == oc0
  }

  /** After a claim: an adopted client is checked like a recorded one, a new one is Ready. */
  predicate Claimed(es: seq<Event>, mid: OIDCClient, d: Discovery, g: Registering, x: Outcome, oc: OIDCClient) {
    match g
    case Adopted => Keeping(es, mid, d, x, oc)
    case Newly => es == [] && x == Resync && oc == Ready(mid)
    case BurnedOrphan => es == [] && x == Soon && oc == mid
    case Rejected(reason) => es == [] && x == BackOff && oc == Marked(mid, reason)
  }

  ghost predicate Establishing(es: seq<Event>, oc0: OIDCClient, d: Discovery, x: Outcome, oc: OIDCClient) {
    if oc0.status.clientID != "" then Keeping(es, oc0, d, x, oc)
    else exists k: nat, g, mid :: k <= |es| && Claiming(es[..k], oc0, d, g, mid) && Claimed(es[k..], mid, d, g, x, oc)
  }

  // ---------------------------------------------------------------- the whole

  /** A rename comes before anything else is looked at, and its refusal ends the pass. */
  ghost predicate Settling(es: seq<Event>, oc0: OIDCClient, d: Discovery, x: Outcome, oc: OIDCClient) {
    if oc0.status.secretName != "" && oc0.status.secretName != WantedName(oc0) then
      exists k: nat, refused, mid ::
        && k <= |es| && Renaming(es[..k], oc0, refused, mid)
        && match refused
           case Some(reason) => k == |es| && x == BackOff && oc == Marked(mid, reason)
           case None => Establishing(es[k..], mid, d, x, oc)
    else Establishing(es, oc0, d, x, oc)
  }

  /** The guard and discovery come before everything. */
  ghost predicate Normally(es: seq<Event>, oc0: OIDCClient, x: Outcome, oc: OIDCClient) {
    if !URIsClean(oc0.spec.redirectURIs) then es == [] && x == BackOff && oc == Marked(oc0, SpecInvalid)
    else
      && es != [] && es[0].call == GetDiscovery && es[0].reply.Some?
      && match es[0].reply.value
         case TheDiscovery(d) => Settling(es[1..], oc0.(status := oc0.status.(issuer := d.issuer)), d, x, oc)
         case _ => |es| == 1 && x == BackOff && oc == Marked(oc0, TsidpUnreachable)
  }

  ghost predicate Reported(es: seq<Event>, w: Reply, oc0: OIDCClient, x: Outcome, oc: OIDCClient) {
    exists outcome ::
      && Normally(es, oc0, outcome, oc)
      && x == if w.Object? then outcome else if w.Conflict? then Soon else Erred
  }

  /** The status is written by the last call; the outcome holds only if that went through. */
  ghost predicate StatusWritten(es: seq<Event>, oc0: OIDCClient, x: Outcome, oc: OIDCClient) {
    && es != [] && es[|es| - 1].call == UpdateStatus(oc) && es[|es| - 1].reply.Some?
    && Reported(es[..|es| - 1], es[|es| - 1].reply.value, oc0, x, oc)
  }

  /** Every match was deleted, in the order of the listing. */
  predicate Swept(es: seq<Event>, ids: seq<string>) {
    |es| == |ids| && forall i | 0 <= i < |ids| :: Gone(es[i], ids[i])
  }

  predicate Cleaned(es: seq<Event>, a: Ident) {
    && es != [] && es[0].call == ListClients && es[0].reply.Some? && es[0].reply.value.Clients?
    && Swept(es[1..], Matches(es[0].reply.value.entries, a))
  }

  /** What must have been done before the finalizer may go. */
  predicate Deregistered(es: seq<Event>, oc: OIDCClient) {
    if oc.force || oc.spec.deletionPolicy == Orphan then es == []
    else if oc.status.clientID != "" then |es| == 1 && Gone(es[0], oc.status.clientID)
    else Cleaned(es, oc.id)
  }

  /** The finalizer goes by the last call, and only after deregistration. */
  predicate Deleting(es: seq<Event>, oc: OIDCClient, x: Outcome) {
    if !oc.finalizer then es == [] && x == Finished
    else if es != [] && es[|es| - 1].call.UpdateObject? then
      && es[|es| - 1].call == UpdateObject(oc.(finalizer := false)) && es[|es| - 1].reply.Some?
      && Deregistered(es[..|es| - 1], oc)
      && x == if es[|es| - 1].reply.value.Object? then Finished else Erred
    else x == BackOff
  }
}
