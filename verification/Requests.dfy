/** The server's requests are the machine's calls on the registry. */
module Requests {
  import opened Types
  import opened Tsidp
  import opened Cluster

  /** The server holds the registry of the world and will issue no id that was ever issued. */
  ghost predicate Mirrors(server: Server, w: World)
    reads server
  {
    && server.Valid() && server.clients == w.clients
    && forall k: nat | k > server.nextID :: FakeID(k) !in w.issued
  }

  /** A choice the machine allows under which the call has this effect and this reply. */
  ghost predicate Served(w: World, me: Ident, call: Call, w': World, r: Reply) {
    exists ch: Choice :: Allowed(w, call, ch) && Serve(w, me, call, ch) == (w', r)
  }

  method Register(server: Server, ghost w: World, me: Ident, name: string, uris: seq<string>)
    returns (r: Reply, ghost w': World)
    requires Mirrors(server, w)
    modifies server
    ensures Mirrors(server, w') && Served(w, me, RegisterClient(name, uris), w', r)
    ensures r.Registered? ==>
              r.cred.id !in w.issued && w'.issued == w.issued[r.cred.id := Issue(r.cred.secret, Some(me))]
  {
    var answer := server.Register(name, uris);
    if !answer.OK? {
      ghost var unused := FakeID(server.nextID + 1);
      ghost var ch := Choice([], Credentials(unused, "x"), Fresh);
      assert unused != "" && Allowed(w, RegisterClient(name, uris), ch);
      assert Serve(w, me, RegisterClient(name, uris), ch) == (w, Failed);
      return Failed, w;
    }
    var c := answer.value;
    ghost var ch := Choice([], c, Fresh);
    assert c.id !in w.issued;
    assert Allowed(w, RegisterClient(name, uris), ch);
    r := Registered(c);
    w' := Serve(w, me, RegisterClient(name, uris), ch).0;
    assert Serve(w, me, RegisterClient(name, uris), ch) == (w', r);
    forall k: nat | k > server.nextID ensures FakeID(k) !in w'.issued {
      if FakeID(k) == c.id { FakeIDInjective(k, server.nextID); }
    }
  }

  method List(server: Server, ghost w: World, me: Ident) returns (r: Reply)
    requires Mirrors(server, w)
    ensures Served(w, me, ListClients, w, r)
  {
    var out := server.List();
    ghost var ch := Choice(out, Credentials("", ""), Fresh);
    r := Clients(out);
    assert Allowed(w, ListClients, ch) && Serve(w, me, ListClients, ch) == (w, r);
  }

  method Get(server: Server, ghost w: World, me: Ident, id: string) returns (r: Reply)
    requires Mirrors(server, w)
    ensures Served(w, me, GetClient(id), w, r)
  {
    var answer := server.Get(id);
    ghost var ch := Choice([], Credentials("", ""), Fresh);
    r := if answer.OK? then Client(answer.value) else Missing;
    assert Allowed(w, GetClient(id), ch) && Serve(w, me, GetClient(id), ch) == (w, r);
  }

  method Delete(server: Server, ghost w: World, me: Ident, id: string) returns (r: Reply, ghost w': World)
    requires Mirrors(server, w)
    modifies server
    ensures Mirrors(server, w') && Served(w, me, DeleteClient(id), w', r)
  {
    var answer := server.Delete(id);
    ghost var ch := Choice([], Credentials("", ""), Fresh);
    r := if answer.OK? then Done else Missing;
    w' := w.(clients := w.clients - {id});
    assert id !in w.clients ==> w.clients - {id} == w.clients && w' == w;
    assert Allowed(w, DeleteClient(id), ch) && Serve(w, me, DeleteClient(id), ch) == (w', r);
  }

  /** The edit's response tells found from not found and nothing more, as the machine's reply does. */
  method Edit(server: Server, ghost w: World, me: Ident, id: string, name: string, field: string)
    returns (r: Reply, ghost w': World)
    requires Mirrors(server, w)
    modifies server
    ensures Mirrors(server, w') && Served(w, me, EditClient(id, name, field), w', r)
  {
    var answer := server.Edit(id, name, field);
    hide Edited;
    ghost var ch := Choice([], Credentials("", ""), Fresh);
    r := if answer.OK? then Done else Missing;
    w' := if answer.OK? then w.(clients := Edited(w.clients, id, name, field)) else w;
    EditOfNobody(w, id, name, field);
    assert Allowed(w, EditClient(id, name, field), ch) && Serve(w, me, EditClient(id, name, field), ch) == (w', r);
  }

  lemma EditOfNobody(w: World, id: string, name: string, field: string)
    ensures id !in w.clients ==> Edited(w.clients, id, name, field) == w.clients
  {
  }
}
