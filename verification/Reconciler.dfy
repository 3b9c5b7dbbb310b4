/** The reconciler as it is written: methods that change the object they hold, loop over lists and
    call out. Each is proved to follow the machine step by step, and to have made just the calls its
    account says, in that order. */
module Reconciler {
  import opened Text
  import opened Types
  import opened Naming
  import opened Tsidp
  import opened Secrets
  import opened SecretObject
  import opened Cluster
  import opened Session
  import opened Account
  import Safety

  /** What secretAdoptable finds under a name. */
  datatype Vetted = Free | Ours(secret: Secret) | Foreign(secret: Secret) | Unreadable
  {
    function AsReply(): Reply {
      match this
      case Free => Missing
      case Ours(s) => TheSecret(s)
      case Foreign(s) => TheSecret(s)
      case Unreadable => Failed
    }
  }

  /** Listing entries without the fingerprint do not matter. */
  lemma MatchesSkip(entries: seq<Entry>, a: Ident, i: nat)
    requires i < |entries|
    ensures Matches(entries[i..], a) ==
              (if Carries(entries[i].reg.name, a) then [entries[i].id] else []) + Matches(entries[i + 1..], a)
  {
    assert entries[i..][1..] == entries[i + 1..];
  }

  lemma MatchesNone(entries: seq<Entry>, a: Ident)
    ensures Matches(entries[|entries|..], a) == []
  {
  }

  /** What a read of a Secret told. */
  predicate VettedBy(es: seq<Event>, key: SecretKey, id: Ident, v: Vetted) {
    && |es| == 1 && es[0].call == GetSecret(key) && es[0].reply.Some?
    && match v
       case Free => es[0].reply.value == Missing
       case Ours(s) => es[0].reply.value == TheSecret(s) && s.owner == Some(id.uid)
       case Foreign(s) => es[0].reply.value == TheSecret(s) && s.owner != Some(id.uid)
       case Unreadable => !es[0].reply.value.Missing? && !es[0].reply.value.TheSecret?
  }

  /** The one call a write makes, and whether it went through. */
  predicate Written(es: seq<Event>, key: SecretKey, base: Secret, want: Secret, create: bool, ok: bool) {
    if !create && want == base then es == [] && ok
    else
      && |es| == 1 && es[0].call == (if create then CreateSecret(key, want) else UpdateSecret(key, want))
      && ok == (es[0].reply == Some(Reply.Done))
  }

  /** Where the machine stands after each way a claim can end. */
  function PointOf(g: Registering, oc: OIDCClient, d: Discovery): PC {
    match g
    case Adopted => ReadRemote(oc, d)
    case Newly => PutStatus(MarkReady(oc), Resync)
    case BurnedOrphan => PutStatus(oc, Soon)
    case Rejected(reason) => Unready(oc, reason)
  }

  lemma UpdatedTwice(es: seq<Event>, oc: OIDCClient)
    requires !Updated(es, oc.status.clientID, RegisteredName(oc.id, oc.spec), oc.spec.redirectURIs) && |es| <= 2
    ensures |es| >= 2 ==> !Updated(es[..2], oc.status.clientID, RegisteredName(oc.id, oc.spec), oc.spec.redirectURIs)
  {
    if |es| == 2 { assert es[..2] == es; }
  }

  lemma UpdatedLength(es: seq<Event>, oc: OIDCClient)
    requires Updated(es, oc.status.clientID, RegisteredName(oc.id, oc.spec), oc.spec.redirectURIs)
    ensures |es| == 2
  {
  }

  lemma AfterRenaming(l0: seq<Event>, l1: seq<Event>, l2: seq<Event>, oc0: OIDCClient, refused: Option<Reason>,
                      mid: OIDCClient, d: Discovery, x: Outcome, oc: OIDCClient)
    requires l0 <= l1 <= l2 && Renaming(Since(l0, l1), oc0, refused, mid)
    requires oc0.status.secretName != "" && oc0.status.secretName != WantedName(oc0)
    requires match refused
             case Some(reason) => l1 == l2 && x == BackOff && oc == Marked(mid, reason)
             case None => Establishing(Since(l1, l2), mid, d, x, oc)
    ensures Settling(Since(l0, l2), oc0, d, x, oc)
  {
    hide Renaming, Establishing, SecretName;
    SinceThen(l0, l1, l2);
    var es, k := Since(l0, l2), |Since(l0, l1)|;
    assert es[..k] == Since(l0, l1) && es[k..] == Since(l1, l2);
  }

  lemma AfterClaiming(l0: seq<Event>, l1: seq<Event>, l2: seq<Event>, oc0: OIDCClient, g: Registering,
                      mid: OIDCClient, d: Discovery, x: Outcome, oc: OIDCClient)
    requires l0 <= l1 <= l2 && oc0.status.clientID == "" && Claiming(Since(l0, l1), oc0, d, g, mid)
    requires Claimed(Since(l1, l2), mid, d, g, x, oc)
    ensures Establishing(Since(l0, l2), oc0, d, x, oc)
  {
    hide Claiming, Claimed;
    SinceThen(l0, l1, l2);
    var es, k := Since(l0, l2), |Since(l0, l1)|;
    assert es[..k] == Since(l0, l1) && es[k..] == Since(l1, l2);
  }

  lemma LastCall(l0: seq<Event>, l1: seq<Event>, e: Event)
    requires l0 <= l1
    ensures l0 <= l1 + [e]
    ensures var es := Since(l0, l1 + [e]); es != [] && es[|es| - 1] == e && es[..|es| - 1] == Since(l0, l1)
  {
  }

  // ---------------------------------------------------------------- calls and what follows them

  lemma UpsertPoint(oc: OIDCClient, d: Discovery, cred: Option<Credentials>, r: Reply)
    ensures var pc := UpsertRead(oc, d, cred);
            && Calling(pc) && CallOf(pc) == GetCachedSecret(WantedKey(oc))
            && Resume(pc, r) ==
               if r.Missing? then AfterUpsertRead(oc, d, cred, None)
               else if r.TheSecret? then AfterUpsertRead(oc, d, cred, Some(r.secret)) else UpsertFailed(oc, cred)
    ensures r.TheSecret? && r.secret.owner != Some(oc.id.uid) ==>
              AfterUpsertRead(oc, d, cred, Some(r.secret)) == UpsertFailed(oc, cred)
  {
    hide Wanted, UpsertFailed;
  }

  /** A write after the cached read is the upsert. */
  lemma UpsertAccount(l0: seq<Event>, l1: seq<Event>, r: Reply, oc: OIDCClient, d: Discovery, cred: Option<Credentials>,
                      ok: bool)
    requires l0 + [Event(GetCachedSecret(WantedKey(oc)), Some(r))] <= l1
    requires var es := Since(l0 + [Event(GetCachedSecret(WantedKey(oc)), Some(r))], l1);
             if r.Missing? then Written(es, WantedKey(oc), NEW, Wanted(NEW, oc, d, cred), true, ok)
             else if r.TheSecret? && r.secret.owner == Some(oc.id.uid) then
               Written(es, WantedKey(oc), r.secret, Wanted(r.secret, oc, d, cred), false, ok)
             else !ok
    ensures l0 <= l1 && ok == Upserted(Since(l0, l1), oc, d, cred)
  {
    hide Wanted, WantedName;
    SinceNext(l0, Event(GetCachedSecret(WantedKey(oc)), Some(r)), l1);
  }

  lemma RegisterPoint(oc: OIDCClient, d: Discovery, r: Reply)
    ensures var pc := Cluster.Register(oc, d);
            && Calling(pc) && CallOf(pc) == RegisterClient(RegisteredName(oc.id, oc.spec), oc.spec.redirectURIs)
            && Resume(pc, r) ==
               if r.Registered? then UpsertRead(oc, d, Some(r.cred)) else Unready(oc, RegistrationFailed)
  {
    hide RegisteredName;
  }

  lemma ReadOldPoint(oc: OIDCClient, d: Discovery, r: Reply)
    ensures var pc := ReadOld(oc, d);
            && Calling(pc) && CallOf(pc) == GetSecret(SecretKey(oc.id.ns, oc.status.secretName))
            && Resume(pc, r) ==
               if r.TheSecret? && r.secret.owner == Some(oc.id.uid) then DropOld(oc, d, r.secret)
               else if r.TheSecret? || r.Missing? then AfterRename(Renamed(oc), d)
               else Unready(oc, SecretCleanupFailed)
  {
    hide AfterRename, Unready;
  }

  lemma DropOldPoint(oc: OIDCClient, d: Discovery, s: Secret, r: Reply)
    ensures var pc := DropOld(oc, d, s);
            && Calling(pc) && CallOf(pc) == DeleteSecret(SecretKey(oc.id.ns, oc.status.secretName), s.uid)
            && Resume(pc, r) ==
               if r.Done? || r.Missing? then AfterRename(Renamed(oc), d) else Unready(oc, SecretCleanupFailed)
  {
    hide AfterRename, Unready;
  }

  class Reconciler {
    const session: Session
    /** The object in memory. */
    var oc: OIDCClient

    constructor (session: Session, oc: OIDCClient)
      ensures this.session == session && this.oc == oc
    {
      this.session, this.oc := session, oc;
    }

    method NotReady(reason: Reason) returns (o: Outcome)
      modifies this
      ensures o == BackOff && oc == Marked(old(oc), reason)
      ensures oc == old(oc).(status := old(oc).status.(ready := False(reason)))
    {
      oc := oc.(status := oc.status.(ready := False(reason)));
      return BackOff;
    }

    /** The guard at the head of reconcileNormal: character by character, URI by URI. */
    method CleanURIs() returns (clean: bool)
      ensures clean == URIsClean(oc.spec.redirectURIs)
      ensures var uris := oc.spec.redirectURIs;
              clean <==> forall i, j | 0 <= i < |uris| && 0 <= j < |uris[i]| :: !BadPoint(uris[i][j] as int)
    {
      var uris := oc.spec.redirectURIs;
      GuardExact(uris);
      for i := 0 to |uris|
        invariant forall k | 0 <= k < i :: Clean(uris[k])
      {
        for j := 0 to |uris[i]|
          invariant forall k | 0 <= k < j :: !IsSpace(uris[i][k]) && !IsControl(uris[i][k])
        {
          if IsSpace(uris[i][j]) || IsControl(uris[i][j]) {
            return false;
          }
        }
      }
      return true;
    }

    /** Absent, owned, foreign and unreadable are told apart by one read. */
    method SecretAdoptable(name: string) returns (v: Attempt<Vetted>)
      requires session.Valid() && (session.at.VetTarget? || session.at.VetSecret?)
      requires CallOf(session.at) == GetSecret(SecretKey(oc.id.ns, name))
      modifies session`cluster, session`trace, session`at, session`log
      ensures session.Valid() && old(session.trace) <= session.trace && old(session.log) <= session.log
      ensures match v
              case Crash => session.at == Idle(Crashed)
              case Back(x) =>
                && session.at == Resume(old(session.at), x.AsReply())
                && VettedBy(Since(old(session.log), session.log), SecretKey(oc.id.ns, name), oc.id, x)
    {
      hide OneMore, Legal, Exec, Begins, RegisteredName, Trim, Join, Normalise;
      var r :- session.Call(GetSecret(SecretKey(oc.id.ns, name)));
      SinceOne(old(session.log), Event(GetSecret(SecretKey(oc.id.ns, name)), Some(r)));
      match r
      case Missing => return Back(Free);
      case TheSecret(s) => return Back(if s.owner == Some(oc.id.uid) then Ours(s) else Foreign(s));
      case _ => return Back(Unreadable);
    }

    /** The write of CreateOrUpdate: the mutated Secret is created, updated, or left as it is. */
    method WriteSecret(d: Discovery, cred: Option<Credentials>, base: Secret, create: bool) returns (ok: Attempt<bool>)
      requires session.Valid() && session.at == AfterUpsertRead(oc, d, cred, if create then None else Some(base))
      requires if create then base == NEW else base.owner == Some(oc.id.uid)
      modifies session`cluster, session`trace, session`at, session`log
      ensures session.Valid() && old(session.trace) <= session.trace && old(session.log) <= session.log
      ensures match ok
              case Crash => session.at == Idle(Crashed)
              case Back(b) =>
                && session.at == (if b then AfterUpsert(oc, cred) else UpsertFailed(oc, cred))
                && Written(Since(old(session.log), session.log), WantedKey(oc), base, Wanted(base, oc, d, cred),
                   create, b)
    {
      KeyExact(oc);
      hide WantedName, WantedKey, Wanted, SecretKeyOf, AfterUpsert, UpsertFailed, OneMore, Legal, Exec, Begins,
        RegisteredName, Trim, Join,
        Normalise;
      SinceSame(session.log);
      var sec := new SecretObject(base);
      sec.Mutate(oc, d, cred);
      var want := sec.Value();
      if !create && want == base {
        return Back(true);
      }
      var call := if create then CreateSecret(SecretKeyOf(oc), want) else UpdateSecret(SecretKeyOf(oc), want);
      var w :- session.Call(call);
      SinceOne(old(session.log), Event(call, Some(w)));
      return Back(w.Done?);
    }

    /** CreateOrUpdate with the mutation of upsertSecret. */
    method UpsertSecret(d: Discovery, cred: Option<Credentials>) returns (ok: Attempt<bool>)
      requires session.Valid() && session.at == UpsertRead(oc, d, cred)
      modifies session`cluster, session`trace, session`at, session`log
      ensures session.Valid() && old(session.trace) <= session.trace && old(session.log) <= session.log
      ensures match ok
              case Crash => session.at == Idle(Crashed)
              case Back(b) =>
                && session.at == (if b then AfterUpsert(oc, cred) else UpsertFailed(oc, cred))
                && b == Upserted(Since(old(session.log), session.log), oc, d, cred)
    {
      KeyExact(oc);
      UpsertPoint(oc, d, cred, Missing);
      hide WantedName, WantedKey, Wanted, SecretKeyOf, AfterUpsert, UpsertFailed, OneMore, Legal, Exec, Begins, CallOf,
        Resume, AfterUpsertRead, Upserted, Written, Since;
      ghost var l0 := session.log;
      var r :- session.Call(GetCachedSecret(SecretKeyOf(oc)));
      UpsertPoint(oc, d, cred, r);
      if r.Missing? {
        ok := WriteSecret(d, cred, NEW, true);
      } else if r.TheSecret? && r.secret.owner == Some(oc.id.uid) {
        ok := WriteSecret(d, cred, r.secret, false);
      } else {
        ok := Back(false);
      }
      if ok.Back? { UpsertAccount(l0, session.log, r, oc, d, cred, ok.value); }
    }

    /** Register a new client and write its Secret before anything is recorded. */
    method Register(d: Discovery) returns (g: Attempt<Registering>)
      requires session.Valid() && session.at == Cluster.Register(oc, d)
      modifies this, session`cluster, session`trace, session`at, session`log
      ensures session.Valid() && old(session.trace) <= session.trace && old(session.log) <= session.log
      ensures match g
              case Crash => session.at == Idle(Crashed)
              case Back(x) =>
                && session.at == PointOf(x, oc, d)
                && Enrolling(Since(old(session.log), session.log), old(oc), d, x, oc)
    {
      RegisterPoint(oc, d, Missing);
      hide WantedName, Upserted, OneMore, Legal, Exec, Begins, RegisteredName, CallOf, Resume;
      ghost var l0 := session.log;
      var call := RegisterClient(RegisteredName(oc.id, oc.spec), oc.spec.redirectURIs);
      var r :- session.Call(call);
      RegisterPoint(oc, d, r);
      SinceOne(l0, Event(call, Some(r)));
      if !r.Registered? { return Back(Rejected(RegistrationFailed)); }
      g := Enroll(d, r.cred);
      SinceNext(l0, Event(call, Some(r)), session.log);
    }

    /** The Secret of a client just registered. */
    method Enroll(d: Discovery, c: Credentials) returns (g: Attempt<Registering>)
      requires session.Valid() && session.at == UpsertRead(oc, d, Some(c))
      modifies this, session`cluster, session`trace, session`at, session`log
      ensures session.Valid() && old(session.trace) <= session.trace && old(session.log) <= session.log
      ensures match g
              case Crash => session.at == Idle(Crashed)
              case Back(x) =>
                && session.at == PointOf(x, oc, d)
                && if Upserted(Since(old(session.log), session.log), old(oc), d, Some(c)) then
                     x == Newly
                     && oc == old(oc).(status := old(oc).status.(clientID := c.id, secretName := WantedName(old(oc))))
                   else x == Rejected(RegistrationFailed) && oc == old(oc)
    {
      KeyExact(oc);
      hide WantedName, WantedKey, SecretName, SecretKeyOf, Upserted, OneMore, Legal, Exec, Begins, RegisteredName, Trim,
        Join, Normalise;
      var ok :- UpsertSecret(d, Some(c));
      if !ok { return Back(Rejected(RegistrationFailed)); }
      oc := oc.(status := oc.status.(clientID := c.id, secretName := SecretName(oc.id, oc.spec)));
      return Back(Newly);
    }

    /** Adopt the first registration with the fingerprint, burn it if its secret is not held, or
        register anew. */
    method Adopt(d: Discovery, held: Option<Secret>, list: seq<Entry>) returns (g: Attempt<Registering>)
      requires session.Valid() && session.at == AfterAdoptionList(oc, d, held, list)
      modifies this, session`cluster, session`trace, session`at, session`log
      ensures session.Valid() && old(session.trace) <= session.trace && old(session.log) <= session.log
      ensures match g
              case Crash => session.at == Idle(Crashed)
              case Back(x) =>
                && session.at == PointOf(x, oc, d)
                && Adopting(Since(old(session.log), session.log), old(oc), d, held, list, x, oc)
    {
      KeyExact(oc);
      hide WantedName, WantedKey, SecretName, Matches, Holds, Carries, Enrolling, OneMore, Legal, Exec, Begins,
        RegisteredName, Trim, Join,
        Normalise;
      for i := 0 to |list|
        invariant session.Valid() && session.at == AfterAdoptionList(oc, d, held, list) && oc == old(oc)
        invariant session.log == old(session.log) && session.trace == old(session.trace)
        invariant Matches(list, oc.id) == Matches(list[i..], oc.id)
      {
        MatchesSkip(list, oc.id, i);
        if !Carries(list[i].reg.name, oc.id) { continue; }
        if held.Some? { PairExact(held.value, list[i].id); }
        if held.Some? && Holds(held.value, list[i].id) {
          SinceSame(session.log);
          oc := oc.WithID(list[i].id);
          return Back(Adopted);
        }
        var gone :- session.Call(DeleteClient(list[i].id));
        SinceOne(old(session.log), Event(DeleteClient(list[i].id), Some(gone)));
        return Back(if gone.Done? || gone.Missing? then BurnedOrphan else Rejected(RegistrationFailed));
      }
      MatchesNone(list, oc.id);
      g := Register(d);
    }

    /** The Secret's name is vetted before tsidp is as much as asked. */
    method RegisterOrAdopt(d: Discovery) returns (g: Attempt<Registering>)
      requires session.Valid() && session.at == VetSecret(oc, d)
      modifies this, session`cluster, session`trace, session`at, session`log
      ensures session.Valid() && old(session.trace) <= session.trace && old(session.log) <= session.log
      ensures match g
              case Crash => session.at == Idle(Crashed)
              case Back(x) =>
                && session.at == PointOf(x, oc, d)
                && Claiming(Since(old(session.log), session.log), old(oc), d, x, oc)
    {
      KeyExact(oc);
      hide WantedName, WantedKey, Choosing, AfterAdoptionList, OneMore, Legal, Exec, Begins, RegisteredName, Trim,
        Join, Normalise;
      ghost var l0 := session.log;
      var v :- SecretAdoptable(SecretName(oc.id, oc.spec));
      ghost var l1 := session.log;
      if v.Foreign? { return Back(Rejected(SecretConflict)); }
      if v.Unreadable? { return Back(Rejected(RegistrationFailed)); }
      var held := if v.Ours? then Some(v.secret) else None;
      g := ListAndAdopt(d, held);
      SinceThen(l0, l1, session.log);
    }

    method ListAndAdopt(d: Discovery, held: Option<Secret>) returns (g: Attempt<Registering>)
      requires session.Valid() && session.at == ListForAdoption(oc, d, held)
      modifies this, session`cluster, session`trace, session`at, session`log
      ensures session.Valid() && old(session.trace) <= session.trace && old(session.log) <= session.log
      ensures match g
              case Crash => session.at == Idle(Crashed)
              case Back(x) =>
                && session.at == PointOf(x, oc, d)
                && Choosing(Since(old(session.log), session.log), old(oc), d, held, x, oc)
    {
      hide SecretKeyOf, Adopting, AfterAdoptionList, OneMore, Legal, Exec, Begins, RegisteredName, Trim, Join,
        Normalise;
      ghost var l0 := session.log;
      var l :- session.Call(ListClients);
      SinceOne(l0, Event(ListClients, Some(l)));
      if !l.Clients? { return Back(Rejected(RegistrationFailed)); }
      g := Adopt(d, held, l.entries);
      SinceNext(l0, Event(ListClients, Some(l)), session.log);
    }

    /** Trim every URI and drop the empty ones. */
    method NormaliseURIs(want: seq<string>) returns (uris: seq<string>)
      ensures uris == Normalise(want)
    {
      hide Trim;
      uris := [];
      for i := 0 to |want|
        invariant uris == Normalise(want[..i])
      {
        assert want[..i + 1][..i] == want[..i];
        var u := Trim(want[i]);
        if u != "" {
          uris := uris + [u];
        }
      }
      assert want[..|want|] == want;
    }

    /** UpdateClient: normalise, post the form, and trust nothing but what is read back. */
    method UpdateClient(d: Discovery) returns (ok: Attempt<bool>)
      requires session.Valid() && session.at == EditRemote(oc, d)
      modifies session`cluster, session`trace, session`at, session`log
      ensures session.Valid() && old(session.trace) <= session.trace && old(session.log) <= session.log
      ensures match ok
              case Crash => session.at == Idle(Crashed)
              case Back(b) =>
                && session.at == (if b then UpsertRead(oc, d, None) else Unready(oc, InPlaceUpdateFailed))
                && |Since(old(session.log), session.log)| <= 2
                && b == Updated(Since(old(session.log), session.log), oc.status.clientID,
                                RegisteredName(oc.id, oc.spec), oc.spec.redirectURIs)
    {
      hide OneMore, Legal, Exec, Begins, RegisteredName, Trim, Join, Normalise, Wanted, SecretKeyOf;
      var name := Trim(RegisteredName(oc.id, oc.spec));
      var uris := NormaliseURIs(oc.spec.redirectURIs);
      ghost var l0, edit := session.log, EditClient(oc.status.clientID, name, Join(uris));
      var e :- session.Call(EditClient(oc.status.clientID, name, Join(uris)));
      SinceOne(l0, Event(edit, Some(e)));
      if !e.Done? { return Back(false); }
      var got :- session.Call(GetClient(oc.status.clientID));
      SinceTwo(l0, Event(edit, Some(e)), Event(GetClient(oc.status.clientID), Some(got)));
      if !got.Client? || got.reg.name != name { return Back(false); }
      var same := SameStrings(got.reg.uris, uris);
      return Back(same);
    }

    /** The old Secret of a renamed one is removed if it is still owned, pinned to the uid just
        seen. */
    method RemoveOldSecret(d: Discovery) returns (refused: Attempt<Option<Reason>>)
      requires session.Valid() && session.at == ReadOld(oc, d)
      modifies this, session`cluster, session`trace, session`at, session`log
      ensures session.Valid() && old(session.trace) <= session.trace && old(session.log) <= session.log
      ensures match refused
              case Crash => session.at == Idle(Crashed)
              case Back(x) =>
                && session.at == (match x case Some(reason) => Unready(oc, reason) case None => AfterRename(oc, d))
                && OldRemoval(Since(old(session.log), session.log), old(oc), x, oc)
    {
      ReadOldPoint(oc, d, Missing);
      hide AfterRename, OneMore, Legal, Exec, Begins, CallOf, Resume;
      var key := SecretKey(oc.id.ns, oc.status.secretName);
      ghost var l0 := session.log;
      var stale :- session.Call(GetSecret(key));
      ReadOldPoint(oc, d, stale);
      SinceOne(l0, Event(GetSecret(key), Some(stale)));
      if !stale.Missing? && !stale.TheSecret? {
        return Back(Some(SecretCleanupFailed));
      }
      if stale.TheSecret? && stale.secret.owner == Some(oc.id.uid) {
        DropOldPoint(oc, d, stale.secret, Missing);
        var gone :- session.Call(DeleteSecret(key, stale.secret.uid));
        DropOldPoint(oc, d, stale.secret, gone);
        SinceTwo(l0, Event(GetSecret(key), Some(stale)), Event(DeleteSecret(key, stale.secret.uid), Some(gone)));
        if !gone.Done? && !gone.Missing? {
          return Back(Some(SecretCleanupFailed));
        }
      }
      oc := Renamed(oc);
      return Back(None);
    }

    /** The change of spec.secretName: the new name is vetted before anything is destroyed. */
    method RenameSecret(d: Discovery) returns (refused: Attempt<Option<Reason>>)
      requires session.Valid() && session.at == VetTarget(oc, d)
      modifies this, session`cluster, session`trace, session`at, session`log
      ensures session.Valid() && old(session.trace) <= session.trace && old(session.log) <= session.log
      ensures match refused
              case Crash => session.at == Idle(Crashed)
              case Back(x) =>
                && session.at == (match x case Some(reason) => Unready(oc, reason) case None => AfterRename(oc, d))
                && Renaming(Since(old(session.log), session.log), old(oc), x, oc)
    {
      KeyExact(oc);
      hide WantedName, WantedKey, SecretName, AfterRename, OldRemoval, OneMore, Legal, Exec, Begins, RegisteredName,
        Trim, Join, Normalise;
      ghost var l0 := session.log;
      var v :- SecretAdoptable(SecretName(oc.id, oc.spec));
      ghost var l1 := session.log;
      if v.Foreign? { return Back(Some(SecretConflict)); }
      if v.Unreadable? { return Back(Some(SecretReadFailed)); }
      refused := RemoveOldSecret(d);
      SinceThen(l0, l1, session.log);
    }

    /** The recorded registration, of no further use, is deleted and forgotten. */
    method BurnRecorded() returns (o: Attempt<Outcome>)
      requires session.Valid() && session.at == Cluster.BurnRecorded(oc)
      modifies this, session`cluster, session`trace, session`at, session`log
      ensures session.Valid() && old(session.trace) <= session.trace && old(session.log) <= session.log
      ensures match o
              case Crash => session.at == Idle(Crashed)
              case Back(x) =>
                && session.at == PutStatus(oc, x)
                && Burning(Since(old(session.log), session.log), old(oc), x, oc)
    {
      KeyExact(oc);
      hide WantedName, WantedKey, SecretName, OneMore, Legal, Exec, Begins, RegisteredName, Trim, Join, Normalise;
      var gone :- session.Call(DeleteClient(oc.status.clientID));
      SinceOne(old(session.log), Event(DeleteClient(oc.status.clientID), Some(gone)));
      if !gone.Done? && !gone.Missing? {
        var x := NotReady(TsidpUnreachable);
        return Back(x);
      }
      oc := oc.WithID("");
      return Back(Soon);
    }

    /** Metadata is kept converged and the object marked ready. */
    method Finish(d: Discovery) returns (o: Attempt<Outcome>)
      requires session.Valid() && session.at == UpsertRead(oc, d, None)
      modifies this, session`cluster, session`trace, session`at, session`log
      ensures session.Valid() && old(session.trace) <= session.trace && old(session.log) <= session.log
      ensures match o
              case Crash => session.at == Idle(Crashed)
              case Back(x) =>
                && session.at == PutStatus(oc, x)
                && Finishing(Since(old(session.log), session.log), old(oc), d, x, oc)
    {
      KeyExact(oc);
      hide WantedName, WantedKey, Upserted, SecretName, OneMore, Legal, Exec, Begins, RegisteredName, Trim, Join,
        Normalise;
      var ok :- UpsertSecret(d, None);
      if !ok {
        var x := NotReady(SecretWriteFailed);
        return Back(x);
      }
      oc := MarkReady(oc);
      return Back(Resync);
    }

    /** The recorded registration against tsidp, the Secret and the spec. */
    method KeepRegistration(d: Discovery) returns (o: Attempt<Outcome>)
      requires session.Valid() && session.at == ReadRemote(oc, d)
      modifies this, session`cluster, session`trace, session`at, session`log
      ensures session.Valid() && old(session.trace) <= session.trace && old(session.log) <= session.log
      ensures match o
              case Crash => session.at == Idle(Crashed)
              case Back(x) =>
                && session.at == PutStatus(oc, x)
                && Keeping(Since(old(session.log), session.log), old(oc), d, x, oc)
    {
      KeyExact(oc);
      hide WantedName, WantedKey, SecretKeyOf, Holds, Checking, OneMore, Legal, Exec, Begins, RegisteredName, Trim,
        Join, Normalise;
      ghost var l0, get := session.log, GetClient(oc.status.clientID);
      var r :- session.Call(GetClient(oc.status.clientID));
      SinceOne(l0, Event(get, Some(r)));
      match r {
        case Missing =>
          oc := oc.WithID("");
          return Back(Soon);
        case Client(remote) =>
          o := CheckRegistration(d, remote);
          SinceNext(l0, Event(get, Some(r)), session.log);
        case _ =>
          var x := NotReady(TsidpUnreachable);
          return Back(x);
      }
    }

    method CheckRegistration(d: Discovery, remote: Registration) returns (o: Attempt<Outcome>)
      requires session.Valid() && session.at == CheckSecret(oc, d, remote)
      modifies this, session`cluster, session`trace, session`at, session`log
      ensures session.Valid() && old(session.trace) <= session.trace && old(session.log) <= session.log
      ensures match o
              case Crash => session.at == Idle(Crashed)
              case Back(x) =>
                && session.at == PutStatus(oc, x)
                && Checking(Since(old(session.log), session.log), old(oc), d, remote, x, oc)
    {
      KeyExact(oc);
      hide WantedName, WantedKey, SecretKeyOf, Holds, Burning, Finishing, Answering, OneMore, Legal, Exec, Begins,
        RegisteredName, Trim,
        Join, Normalise;
      ghost var l0, get := session.log, GetSecret(SecretKeyOf(oc));
      var s :- session.Call(GetSecret(SecretKeyOf(oc)));
      SinceOne(l0, Event(get, Some(s)));
      if !s.TheSecret? && !s.Missing? {
        var x := NotReady(SecretReadFailed);
        return Back(x);
      }
      if s.TheSecret? { PairExact(s.secret, oc.status.clientID); }
      if s.Missing? || !Holds(s.secret, oc.status.clientID) {
        o := BurnRecorded();
      } else {
        var same := SameStrings(remote.uris, oc.spec.redirectURIs);
        if remote.name == RegisteredName(oc.id, oc.spec) && same {
          o := Finish(d);
        } else {
          o := AnswerDrift(d);
        }
      }
      SinceNext(l0, Event(get, Some(s)), session.log);
    }

    /** Drift, answered by the policy. */
    method AnswerDrift(d: Discovery) returns (o: Attempt<Outcome>)
      requires session.Valid()
      requires match oc.spec.updatePolicy
               case InPlace => session.at == EditRemote(oc, d)
               case Block => session.at == Unready(oc, DriftBlocked)
               case Recreate => session.at == Cluster.BurnRecorded(oc)
      modifies this, session`cluster, session`trace, session`at, session`log
      ensures session.Valid() && old(session.trace) <= session.trace && old(session.log) <= session.log
      ensures match o
              case Crash => session.at == Idle(Crashed)
              case Back(x) =>
                && session.at == PutStatus(oc, x)
                && Answering(Since(old(session.log), session.log), old(oc), d, x, oc)
    {
      hide SecretKeyOf, Burning, Finishing, Updated, SecretName, OneMore, Legal, Exec, Begins, RegisteredName, Trim,
        Join, Normalise;
      match oc.spec.updatePolicy {
        case InPlace =>
          ghost var l0 := session.log;
          var updated :- UpdateClient(d);
          ghost var l1 := session.log;
          if !updated {
            UpdatedTwice(Since(l0, l1), oc);
            var x := NotReady(InPlaceUpdateFailed);
            return Back(x);
          }
          UpdatedLength(Since(l0, l1), oc);
          o := Finish(d);
          SinceThen(l0, l1, session.log);
        case Block =>
          SinceSame(session.log);
          var x := NotReady(DriftBlocked);
          return Back(x);
        case Recreate =>
          o := BurnRecorded();
      }
    }

    method ReconcileNormal() returns (o: Attempt<Outcome>)
      requires session.Valid() && session.at == StartNormal(oc)
      modifies this, session`cluster, session`trace, session`at, session`log
      ensures session.Valid() && old(session.trace) <= session.trace && old(session.log) <= session.log
      ensures match o
              case Crash => session.at == Idle(Crashed)
              case Back(x) =>
                && session.at == PutStatus(oc, x)
                && Normally(Since(old(session.log), session.log), old(oc), x, oc)
    {
      hide SecretName, URIsClean, Settling, AfterDiscovery, OneMore, Legal, Exec, Begins, RegisteredName, Trim, Join,
        Normalise;
      ghost var l0 := session.log;
      SinceSame(l0);
      var clean := CleanURIs();
      if !clean {
        var x := NotReady(SpecInvalid);
        return Back(x);
      }
      var r :- session.Call(GetDiscovery);
      SinceOne(l0, Event(GetDiscovery, Some(r)));
      if !r.TheDiscovery? {
        var x := NotReady(TsidpUnreachable);
        return Back(x);
      }
      oc := oc.(status := oc.status.(issuer := r.disc.issuer));
      o := SettleName(r.disc);
      SinceNext(l0, Event(GetDiscovery, Some(r)), session.log);
    }

    method SettleName(d: Discovery) returns (o: Attempt<Outcome>)
      requires session.Valid() && session.at == AfterDiscovery(oc, d)
      modifies this, session`cluster, session`trace, session`at, session`log
      ensures session.Valid() && old(session.trace) <= session.trace && old(session.log) <= session.log
      ensures match o
              case Crash => session.at == Idle(Crashed)
              case Back(x) =>
                && session.at == PutStatus(oc, x)
                && Settling(Since(old(session.log), session.log), old(oc), d, x, oc)
    {
      KeyExact(oc);
      hide WantedName, WantedKey, SecretName, AfterRename, Renaming, Establishing, OneMore, Legal, Exec, Begins,
        RegisteredName, Trim, Join,
        Normalise;
      ghost var l0, oc0 := session.log, oc;
      if oc.status.secretName != "" && oc.status.secretName != SecretName(oc.id, oc.spec) {
        var refused :- RenameSecret(d);
        ghost var l1, mid := session.log, oc;
        if refused.Some? {
          var x := NotReady(refused.value);
          AfterRenaming(l0, l1, session.log, oc0, refused, mid, d, x, oc);
          return Back(x);
        }
        o := Establish(d);
        if o.Back? { AfterRenaming(l0, l1, session.log, oc0, refused, mid, d, o.value, oc); }
      } else {
        o := Establish(d);
      }
    }

    method Establish(d: Discovery) returns (o: Attempt<Outcome>)
      requires session.Valid() && session.at == AfterRename(oc, d)
      modifies this, session`cluster, session`trace, session`at, session`log
      ensures session.Valid() && old(session.trace) <= session.trace && old(session.log) <= session.log
      ensures match o
              case Crash => session.at == Idle(Crashed)
              case Back(x) =>
                && session.at == PutStatus(oc, x)
                && Establishing(Since(old(session.log), session.log), old(oc), d, x, oc)
    {
      KeyExact(oc);
      hide WantedName, WantedKey, SecretName, Claiming, Keeping, OneMore, Legal, Exec, Begins, RegisteredName, Trim,
        Join, Normalise;
      if oc.status.clientID != "" {
        o := KeepRegistration(d);
        return;
      }
      ghost var l0, oc0 := session.log, oc;
      var g :- RegisterOrAdopt(d);
      ghost var l1, mid := session.log, oc;
      KeyExact(mid);
      SinceSame(l1);
      match g {
        case Adopted =>
          o := KeepRegistration(d);
        case Newly =>
          oc := MarkReady(oc);
          o := Back(Resync);
        case BurnedOrphan =>
          o := Back(Soon);
        case Rejected(reason) =>
          var x := NotReady(reason);
          o := Back(x);
      }
      if o.Back? { AfterClaiming(l0, l1, session.log, oc0, g, mid, d, o.value, oc); }
    }

    method ReconcileDelete() returns (o: Attempt<Outcome>)
      requires session.Valid() && session.at == Dispatch(oc) && oc.deleting
      modifies this, session`cluster, session`trace, session`at, session`log
      ensures session.Valid() && old(session.trace) <= session.trace && old(session.log) <= session.log
      ensures match o
              case Crash => session.at == Idle(Crashed)
              case Back(x) =>
                && session.at == Idle(x) && oc == old(oc)
                && Deleting(Since(old(session.log), session.log), oc, x)
    {
      hide SecretName, StartNormal, Deregistered, OneMore, Legal, Exec, Begins, RegisteredName, Trim, Join, Normalise;
      ghost var l0 := session.log;
      SinceSame(l0);
      if !oc.finalizer { return Back(Finished); }
      var ok :- Deregister();
      ghost var l1 := session.log;
      if !ok { return Back(BackOff); }
      var u :- session.Call(UpdateObject(oc.(finalizer := false)));
      LastCall(l0, l1, Event(UpdateObject(oc.(finalizer := false)), Some(u)));
      return Back(if u.Object? then Finished else Erred);
    }

    method Deregister() returns (ok: Attempt<bool>)
      requires session.Valid() && session.at == Dispatch(oc) && oc.deleting && oc.finalizer
      modifies session`cluster, session`trace, session`at, session`log
      ensures session.Valid() && old(session.trace) <= session.trace && old(session.log) <= session.log
      ensures match ok
              case Crash => session.at == Idle(Crashed)
              case Back(b) =>
                && session.at == (if b then DropFinalizer(oc) else Idle(BackOff))
                && (b ==> Deregistered(Since(old(session.log), session.log), oc))
                && forall e | e in Since(old(session.log), session.log) :: !e.call.UpdateObject?
    {
      hide SecretName, StartNormal, Cleaned, OneMore, Legal, Exec, Begins, RegisteredName, Trim, Join, Normalise;
      SinceSame(session.log);
      if oc.force || oc.spec.deletionPolicy == Orphan { return Back(true); }
      if oc.status.clientID == "" {
        ok := DeleteMatches();
        return;
      }
      var gone :- session.Call(DeleteClient(oc.status.clientID));
      SinceOne(old(session.log), Event(DeleteClient(oc.status.clientID), Some(gone)));
      return Back(gone.Done? || gone.Missing?);
    }

    /** Every registration with the fingerprint is deleted; a failure stops the loop part way. */
    method DeleteMatches() returns (ok: Attempt<bool>)
      requires session.Valid() && session.at == ListForCleanup(oc)
      modifies session`cluster, session`trace, session`at, session`log
      ensures session.Valid() && old(session.trace) <= session.trace && old(session.log) <= session.log
      ensures match ok
              case Crash => session.at == Idle(Crashed)
              case Back(b) =>
                && session.at == (if b then DropFinalizer(oc) else Idle(BackOff))
                && (b ==> Cleaned(Since(old(session.log), session.log), oc.id))
                && forall e | e in Since(old(session.log), session.log) :: !e.call.UpdateObject?
    {
      hide AfterCleanup, Matches, Swept, OneMore, Legal, Exec, Begins, RegisteredName, Trim, Join, Normalise;
      ghost var l0 := session.log;
      var l :- session.Call(ListClients);
      SinceOne(l0, Event(ListClients, Some(l)));
      if !l.Clients? { return Back(false); }
      ok := DeleteListed(l.entries);
      SinceNext(l0, Event(ListClients, Some(l)), session.log);
    }

    method DeleteListed(list: seq<Entry>) returns (ok: Attempt<bool>)
      requires session.Valid() && session.at == AfterCleanup(oc, Matches(list, oc.id))
      modifies session`cluster, session`trace, session`at, session`log
      ensures session.Valid() && old(session.trace) <= session.trace && old(session.log) <= session.log
      ensures match ok
              case Crash => session.at == Idle(Crashed)
              case Back(b) =>
                && session.at == (if b then DropFinalizer(oc) else Idle(BackOff))
                && (b ==> Swept(Since(old(session.log), session.log), Matches(list, oc.id)))
                && forall e | e in Since(old(session.log), session.log) :: !e.call.UpdateObject?
    {
      hide Carries, Matches, SecretKeyOf, OneMore, Legal, Exec, Begins, RegisteredName, Trim, Join, Normalise;
      assert list[0..] == list;
      ghost var l0, done := session.log, [];
      SinceSame(l0);
      for i := 0 to |list|
        invariant session.Valid() && session.at == AfterCleanup(oc, Matches(list[i..], oc.id))
        invariant old(session.trace) <= session.trace && l0 <= session.log
        invariant Matches(list, oc.id) == done + Matches(list[i..], oc.id) && Swept(Since(l0, session.log), done)
        invariant forall e | e in Since(l0, session.log) :: !e.call.UpdateObject?
      {
        MatchesSkip(list, oc.id, i);
        if Carries(list[i].reg.name, oc.id) {
          var todo := [list[i].id] + Matches(list[i + 1..], oc.id);
          assert todo[1..] == Matches(list[i + 1..], oc.id);
          ghost var l1 := session.log;
          var gone :- session.Call(DeleteClient(list[i].id));
          SinceThen(l0, l1, session.log);
          SinceOne(l1, Event(DeleteClient(list[i].id), Some(gone)));
          if !gone.Done? && !gone.Missing? { return Back(false); }
          done := done + [list[i].id];
        }
      }
      MatchesNone(list, oc.id);
      return Back(true);
    }

    /** One reconcile request, from reading the object to the last write: exactly one whole pass of
        the machine, with its outcome, or none where the object is not there. The run so far is only
        prolonged, and what every run keeps holds after it. */
    method Reconcile() returns (o: Attempt<Outcome>)
      requires session.Valid() && session.at.Idle?
      modifies this, session
      ensures session.Valid() && old(session.trace) <= session.trace && old(session.log) <= session.log
      ensures session.passes == old(session.passes) || session.passes == old(session.passes) + 1
      ensures session.passes == old(session.passes) ==>
                && o == Back(Finished) && session.at == old(session.at) && session.log == old(session.log)
                && !Live(session.cluster.w, session.me)
      ensures session.passes > old(session.passes) ==>
                match o case Crash => session.at == Idle(Crashed) case Back(x) => session.at == Idle(x)
      ensures Safety.Initial(session.start) ==> Safety.Inv(session.cluster)
    {
      o := Pass();
      if Safety.Initial(session.start) { session.Safe(); }
    }

    method Pass() returns (o: Attempt<Outcome>)
      requires session.Valid() && session.at.Idle?
      modifies this, session
      ensures session.Valid() && old(session.trace) <= session.trace && old(session.log) <= session.log
      ensures session.passes == old(session.passes) || session.passes == old(session.passes) + 1
      ensures session.passes == old(session.passes) ==>
                && o == Back(Finished) && session.at == old(session.at) && session.log == old(session.log)
                && !Live(session.cluster.w, session.me)
      ensures session.passes > old(session.passes) ==>
                match o case Crash => session.at == Idle(Crashed) case Back(x) => session.at == Idle(x)
    {
      hide StartNormal, SecretName, Deleting, Normally, OneMore, Legal, Exec, Begins, RegisteredName, Trim, Join,
        Normalise;
      var found := session.Begin();
      if found.None? { return Back(Finished); }
      oc := found.value;
      if oc.deleting {
        o := ReconcileDelete();
        return;
      }
      o := ReconcileLive();
    }

    /** The finalizer is persisted before anything else is done, and the status after everything. */
    method ReconcileLive() returns (o: Attempt<Outcome>)
      requires session.Valid() && session.at == Dispatch(oc) && !oc.deleting
      modifies this, session`cluster, session`trace, session`at, session`log
      ensures session.Valid() && old(session.trace) <= session.trace && old(session.log) <= session.log
      ensures match o case Crash => session.at == Idle(Crashed) case Back(x) => session.at == Idle(x)
      ensures !old(oc).finalizer ==>
                && |session.log| > |old(session.log)|
                && session.log[|old(session.log)|].call == UpdateObject(old(oc).(finalizer := true))
      ensures o.Back? && o.value != Erred ==>
                && session.log != []
                && session.log[|session.log| - 1].call == UpdateStatus(oc)
    {
      hide StartNormal, SecretName, SecretKeyOf, Normally, OneMore, Legal, Exec, Begins, RegisteredName, Trim, Join,
        Normalise;
      if !oc.finalizer {
        var u :- session.Call(UpdateObject(oc.(finalizer := true)));
        if !u.Object? { return Back(Erred); }
        oc := u.oc;
      }
      o := StatusAfter();
    }

    method StatusAfter() returns (o: Attempt<Outcome>)
      requires session.Valid() && session.at == StartNormal(oc)
      modifies this, session`cluster, session`trace, session`at, session`log
      ensures session.Valid() && old(session.trace) <= session.trace && old(session.log) <= session.log
      ensures match o
              case Crash => session.at == Idle(Crashed)
              case Back(x) =>
                && session.at == Idle(x) && |session.log| > |old(session.log)|
                && StatusWritten(Since(old(session.log), session.log), old(oc), x, oc)
    {
      hide StartNormal, SecretName, SecretKeyOf, Normally, OneMore, Legal, Exec, Begins, RegisteredName, Trim, Join,
        Normalise;
      ghost var l0 := session.log;
      var outcome :- ReconcileNormal();
      ghost var l1 := session.log;
      var w :- session.Call(UpdateStatus(oc));
      LastCall(l0, l1, Event(UpdateStatus(oc), Some(w)));
      return Back(if w.Object? then outcome else if w.Conflict? then Soon else Erred);
    }
  }
}
