/** Deletion finishes: an undisturbed pass over a deleted object removes what it must, no more, and
    lets the object go. */
module Deletion {
  import opened Text
  import opened Types
  import opened Naming
  import opened Tsidp
  import opened Secrets
  import opened Cluster
  import opened Readiness
  import opened Safety

  ghost predicate Deleted(w: World, a: Ident) {
    Live(w, a) && w.crs[a].id == a && w.crs[a].deleting && w.crs[a].finalizer
  }

  /** The registry after deregistration: the recorded client or, if none is recorded, every one
      with the fingerprint is gone, and nothing else; under Orphan or force nothing at all. */
  ghost function Deregistered(w: World, a: Ident): map<string, Registration>
    requires a in w.crs
  {
    var oc := w.crs[a];
    if !MustDeregister(oc) then w.clients
    else if oc.status.clientID != "" then w.clients - {oc.status.clientID}
    else w.clients - Mine(w.clients, a)
  }

  /** The points of an undisturbed deletion. */
  ghost predicate Leaving(w0: World, w: World, a: Ident, pc: PC)
    requires a in w0.crs
  {
    && w.secrets == w0.secrets
    && (!pc.Idle? ==> w.crs == w0.crs && w.gone == w0.gone && pc.oc == w0.crs[a])
    && match pc
       case Idle(o) => o == Finished && a in w.gone && w.clients == Deregistered(w0, a)
       case Unregister(oc) => w.clients == w0.clients && MustDeregister(oc) && oc.status.clientID != ""
       case ListForCleanup(oc) => w.clients == w0.clients && MustDeregister(oc) && oc.status.clientID == ""
       case Cleanup(_, todo) => w.clients - (set id | id in todo) == Deregistered(w0, a)
       case DropFinalizer(_) => w.clients == Deregistered(w0, a)
       case _ => false
  }

  lemma LeavingCleanup(w0: World, w: World, a: Ident, oc: OIDCClient, todo: seq<string>)
    requires Deleted(w0, a) && w.secrets == w0.secrets && w.crs == w0.crs && w.gone == w0.gone && oc == w0.crs[a]
    requires w.clients - (set id | id in todo) == Deregistered(w0, a)
    ensures Leaving(w0, w, a, AfterCleanup(oc, todo))
  {
    hide Deregistered;
    if todo == [] {
      assert w.clients - (set id | id in todo) == w.clients;
    }
  }

  lemma LeavingList(w0: World, w: World, a: Ident, oc: OIDCClient, ch: Choice)
    requires Deleted(w0, a) && Leaving(w0, w, a, ListForCleanup(oc)) && Allowed(w, ListClients, ch)
    ensures Leaving(w0, w, a, AfterCleanup(oc, Matches(ch.listing, a)))
  {
    MatchesMine(w.clients, ch.listing, a);
    hide Matches, Mine, Listing;
    assert (set id | id in Matches(ch.listing, a)) == Mine(w.clients, a);
    LeavingCleanup(w0, w, a, oc, Matches(ch.listing, a));
  }

  lemma LeavingDelete(w0: World, w: World, a: Ident, oc: OIDCClient, todo: seq<string>)
    requires Deleted(w0, a) && Leaving(w0, w, a, Cleanup(oc, todo)) && todo != []
    ensures Leaving(w0, w.(clients := w.clients - {todo[0]}), a, AfterCleanup(oc, todo[1..]))
  {
    hide Deregistered;
    assert (set id | id in todo) == {todo[0]} + (set id | id in todo[1..]);
    assert w.clients - {todo[0]} - (set id | id in todo[1..]) == w.clients - (set id | id in todo);
    LeavingCleanup(w0, w.(clients := w.clients - {todo[0]}), a, oc, todo[1..]);
  }

  lemma LeavingStep(w0: World, w: World, a: Ident, pc: PC, ch: Choice)
    requires Deleted(w0, a) && Leaving(w0, w, a, pc) && Calling(pc) && Allowed(w, CallOf(pc), ch)
    ensures var (w', r) := Serve(w, a, CallOf(pc), ch); Leaving(w0, w', a, Resume(pc, r))
  {
    hide Matches, Mine, Listing, AfterCleanup, RegisteredName, Trim, Join, Normalise, SecretKeyOf;
    match pc
    case Cleanup(oc, todo) =>
      LeavingDelete(w0, w, a, oc, todo);
      ServeDelete(w, a, todo[0], ch);
    case ListForCleanup(oc) =>
      LeavingList(w0, w, a, oc, ch);
    case Unregister(oc) =>
      ServeDelete(w, a, oc.status.clientID, ch);
    case DropFinalizer(_) =>
  }

  lemma LeavingSmooth(w0: World, s: State, act: Action, a: Ident)
    requires Deleted(w0, a) && a in s.pcs && Leaving(w0, s.w, a, s.pcs[a])
    requires Enabled(s, act) && Smooth(act, a)
    ensures var s' := Apply(s, act); a in s'.pcs && Leaving(w0, s'.w, a, s'.pcs[a])
  {
    hide Deleted, Leaving, Serve, CallOf, Resume, Allowed;
    LeavingStep(w0, s.w, a, s.pcs[a], act.choice);
  }

  lemma {:induction false} LeavingRest(w0: World, s: State, acts: seq<Action>, a: Ident)
    requires Deleted(w0, a) && a in s.pcs && Leaving(w0, s.w, a, s.pcs[a])
    requires Legal(s, acts) && forall i | 0 <= i < |acts| :: Smooth(acts[i], a)
    ensures var s' := Exec(s, acts); a in s'.pcs && Leaving(w0, s'.w, a, s'.pcs[a])
    decreases |acts|
  {
    if acts != [] {
      LeavingSmooth(w0, s, acts[0], a);
      hide Deleted, Leaving, Apply, Enabled, Smooth;
      LeavingRest(w0, Apply(s, acts[0]), acts[1..], a);
    }
  }

  lemma LeavingBegin(w: World, a: Ident)
    requires Deleted(w, a)
    ensures Leaving(w, w, a, Dispatch(w.crs[a]))
  {
    hide Mine, StartNormal;
  }

  /** One undisturbed pass over a deleted object lets it go. It leaves every Secret alone and
      deregisters exactly what the deletion policy says. */
  lemma DeletionCompletes(s: State, acts: seq<Action>, a: Ident)
    requires Deleted(s.w, a) && Undisturbed(s, acts, a)
    ensures var w := Exec(s, acts).w;
            && a in w.gone && Result(s, acts, a) == Finished
            && w.secrets == s.w.secrets && w.clients == Deregistered(s.w, a)
  {
    LeavingBegin(s.w, a);
    var s1 := Apply(s, acts[0]);
    forall i | 0 <= i < |acts[1..]| ensures Smooth(acts[1..][i], a) {
      assert acts[1..][i] == acts[i + 1];
    }
    hide Dispatch, Smooth, Deleted, Deregistered;
    LeavingRest(s.w, s1, acts[1..], a);
  }
}
