/** The stores as one running pass meets them: between its calls anyone else may act, and a call
    may fail, lose its reply, or be the last thing the operator does. */
module Session {
  import opened Types
  import opened Tsidp
  import opened Cluster
  import Safety

  /** What comes back from a call, or nothing because the operator crashed. */
  datatype Attempt<+T> = Back(value: T) | Crash
  {
    predicate IsFailure() { Crash? }
    function PropagateFailure<U>(): Attempt<U> requires Crash? { Crash }
    function Extract(): T requires Back? { value }
  }

  /** A call of the pass and its reply, if the operator lived to hear it. */
  datatype Event = Event(call: Call, reply: Option<Reply>)

  /** Any actions of others, and then one of me. */
  ghost predicate OneMore(before: seq<Action>, after: seq<Action>, me: Ident) {
    && |before| < |after| && after[..|before|] == before
    && (forall i | |before| <= i < |after| - 1 :: !ActsFor(after[i], me))
    && ActsFor(after[|after| - 1], me)
  }

  lemma RunOnce(start: State, trace: seq<Action>, s: State, act: Action)
    requires Legal(start, trace) && Exec(start, trace) == s && Enabled(s, act)
    ensures Legal(start, trace + [act]) && Exec(start, trace + [act]) == Apply(s, act)
  {
    ExecOne(s, act);
    ExecConcat(start, trace, [act]);
  }

  lemma RegisteredFilled(w: World, me: Ident, call: Call, ch: Choice)
    requires Allowed(w, call, ch)
    ensures var r := Serve(w, me, call, ch).1; r.Registered? ==> r.cred.id != "" && r.cred.secret != ""
  {
    hide Listing, Edited;
  }

  /** A complete listing of the registry. */
  method ListAll(clients: map<string, Registration>) returns (out: seq<Entry>)
    ensures Listing(out, clients)
  {
    var server := new Server();
    server.clients := clients;
    out := server.List();
  }

  /** An id longer than every id issued. */
  method FreshID(issued: set<string>) returns (id: string)
    ensures id != "" && id !in issued
  {
    id := "x";
    var left := issued;
    while left != {}
      invariant id != "" && left <= issued
      invariant forall k: string | k in issued && k !in left :: |k| < |id|
      decreases left
    {
      var k :| k in left;
      left := left - {k};
      if |k| >= |id| { id := k + "x"; }
    }
  }

  class Session {
    const me: Ident
    /** The state the run started from. */
    const start: State
    /** All stores and passes as they are. */
    var cluster: State
    /** Every action since the start. */
    ghost var trace: seq<Action>
    /** Where the pass of me stands. */
    ghost var at: PC
    /** The passes of me begun so far. */
    ghost var passes: nat
    /** The calls made for me so far, with their replies. */
    ghost var log: seq<Event>

    /** The present state is the outcome of a run of the machine. */
    ghost predicate Valid()
      reads this
    {
      && Legal(start, trace) && Exec(start, trace) == cluster
      && me in cluster.pcs && cluster.pcs[me] == at
      && passes == Begins(trace, me)
    }

    constructor (me: Ident, s: State)
      requires me in s.pcs
      ensures Valid() && this.me == me && start == s && cluster == s && trace == [] && passes == 0 && log == []
    {
      this.me, start, cluster := me, s, s;
      trace, at, passes, log := [], s.pcs[me], 0, [];
    }

    /** Whatever the others do: users, administrators, passes of other objects. */
    method Others()
      requires Valid()
      modifies this`cluster, this`trace
      ensures Valid() && cluster.pcs[me] == old(cluster.pcs[me])
      ensures |old(trace)| <= |trace| && trace[..|old(trace)|] == old(trace)
      ensures forall i | |old(trace)| <= i < |trace| :: !ActsFor(trace[i], me)
    {
      var n: int := *;
      for k := 0 to if n < 0 then 0 else n
        invariant Valid()
        invariant |old(trace)| <= |trace| && trace[..|old(trace)|] == old(trace)
        invariant forall i | |old(trace)| <= i < |trace| :: !ActsFor(trace[i], me)
      {
        var act: Action := *;
        if !ActsFor(act, me) && Enabled(cluster, act) {
          RunOnce(start, trace, cluster, act);
          OthersElsewhere(cluster, act, me);
          BeginsNext(trace, act, me);
          hide Enabled, Apply, Legal, Exec, Begins;
          cluster := Apply(cluster, act);
          trace := trace + [act];
        }
      }
    }

    /** What the servers choose: anything they are allowed to. */
    method Choose(call: Call) returns (ch: Choice)
      ensures Allowed(cluster.w, call, ch)
    {
      ch := *;
      if !Allowed(cluster.w, call, ch) {
        var entries := ListAll(cluster.w.clients);
        var id := FreshID(cluster.w.issued.Keys);
        ch := Choice(entries, Credentials(id, "x"), Fresh);
      }
    }

    /** The object is read from the API server, and the pass begins. */
    method Begin() returns (found: Option<OIDCClient>)
      requires Valid() && at.Idle?
      modifies this`cluster, this`trace, this`at, this`passes
      ensures Valid() && old(trace) <= trace
      ensures found.None? ==> !Live(cluster.w, me) && at == old(at) && passes == old(passes)
      ensures found.Some? ==>
                && Live(cluster.w, me) && found.value == cluster.w.crs[me]
                && at == Dispatch(found.value) && OneMore(old(trace), trace, me) && passes == old(passes) + 1
    {
      Others();
      if me !in cluster.w.crs || me in cluster.w.gone {
        return None;
      }
      RunOnce(start, trace, cluster, Action.Begin(me));
      BeginsNext(trace, Action.Begin(me), me);
      hide Dispatch, Legal, Exec, Begins;
      found := Some(cluster.w.crs[me]);
      trace := trace + [Action.Begin(me)];
      cluster := Apply(cluster, Action.Begin(me));
      at := Dispatch(found.value);
      passes := passes + 1;
    }

    /** One call of the pass. It advances the machine by this call and nothing else of me. */
    method Call(call: Call) returns (a: Attempt<Reply>)
      requires Valid() && Calling(at) && CallOf(at) == call
      modifies this`cluster, this`trace, this`at, this`log
      ensures Valid() && OneMore(old(trace), trace, me) && old(trace) <= trace
      ensures log == old(log) + [Event(call, if a.Back? then Some(a.value) else None)]
      ensures a.Back? && a.value.Registered? ==> a.value.cred.id != "" && a.value.cred.secret != ""
      ensures match a case Back(r) => at == Resume(old(at), r) case Crash => at == Idle(Crashed)
    {
      Others();
      var ch := Choose(call);
      var fault: Fault := *;
      var act := Step(me, fault, ch);
      ghost var pc, oldw := at, cluster.w;
      RunOnce(start, trace, cluster, act);
      BeginsNext(trace, act, me);
      hide Legal, Exec, Resume, Serve, CallOf, Allowed, Begins;
      var (_, r) := Serve(cluster.w, me, call, ch);
      trace := trace + [act];
      cluster := Apply(cluster, act);
      at := cluster.pcs[me];
      a := match fault
        case NoFault => Back(r)
        case Refused => Back(Failed)
        case ReplyLost => Back(Failed)
        case _ => Crash;
      log := log + [Event(call, if a.Back? then Some(a.value) else None)];
      RegisteredFilled(oldw, me, call, ch);
    }

    /** So every theorem about runs holds of what a session does. */
    lemma Safe()
      requires Valid() && Safety.Initial(start)
      ensures Safety.Inv(cluster)
    {
      hide Legal, Exec, Safety.Initial, Safety.Inv;
      Safety.InitialOk(start);
      Safety.RunOk(start, trace);
    }
  }
}
