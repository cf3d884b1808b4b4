/** A step of a proxy keeps the tunnel's invariant. */
module TunnelProxy {
  import opened Wrappers
  import opened Frames
  import opened Tunnel
  import opened TunnelInv
  import R = Registries
  import P = Proxies
  import C = Clients

  /** What the tunnel needs to know of one step of a proxy, in terms of its state before and after. */
  ghost predicate Follows(p: P.Proxy, q: P.Proxy, born: Option<ConnId>, sent: Option<Frame>) {
    && P.Evolves(p, q)
    && (born.Some? ==> born.value !in p.sockets && born.value in q.sockets)
    && (forall id :: id in q.sockets && id !in p.sockets ==>
          born == Some(id) && q.sockets[id].sent == [] && q.sockets[id].written == [])
    && (forall id :: id in p.sockets && id in q.sockets ==>
          q.sockets[id].sent == p.sockets[id].sent + (if sent.Some? && About(sent.value, id) then [sent.value] else []))
    && (sent.Some? && !sent.value.Other? ==> sent.value.id in p.sockets)
  }

  ghost predicate SameWritten(p: P.Proxy, q: P.Proxy) {
    forall id :: id in p.sockets && id in q.sockets ==>
      q.sockets[id].written == p.sockets[id].written && q.sockets[id].broken == p.sockets[id].broken
  }

  lemma ProxyFollows(p: P.Proxy, e: P.Event)
    requires P.Inv(p) && P.Can(p, e)
    ensures Follows(p, P.Do(p, e), if e.Accept? then Some(e.id) else None, P.Sends(p, e))
    ensures !e.Write? ==> SameWritten(p, P.Do(p, e))
    ensures P.Inv(P.Do(p, e))
  {
    P.StepInv(p, e);
    P.StepEvolves(p, e);
    var q := P.Do(p, e);
    forall id | id in q.sockets && id !in p.sockets
      ensures e == P.Accept(id) && q.sockets[id].sent == [] && q.sockets[id].written == [] { P.NewSockets(p, e, id); }
    forall id | id in p.sockets
      ensures id in q.sockets
      ensures q.sockets[id].sent == p.sockets[id].sent +
              (if P.Sends(p, e).Some? && About(P.Sends(p, e).value, id) then [P.Sends(p, e).value] else [])
    { P.SendsOwnFrame(p, e, id); }
    forall id | id in p.sockets
      ensures id in q.sockets
      ensures !e.Write? ==>
                q.sockets[id].written == p.sockets[id].written && q.sockets[id].broken == p.sockets[id].broken
    { P.WritesOnly(p, e, id); }
  }

  /** The proxy and its new state, when the tunnel takes the step. */
  ghost predicate ProxyMoves(w: World, p: Pid, q: P.Proxy, born: Option<ConnId>, sent: Option<Frame>, ok: bool) {
    && p in w.proxies && Follows(w.proxies[p], q, born, sent)
    && (born.Some? ==> born.value !in w.home)
    && (sent.Some? && ok && w.proxies[p].ws in w.wires ==> !w.wires[w.proxies[p].ws].out.down)
  }

  lemma ProxyLater(w: World, p: Pid, q: P.Proxy, born: Option<ConnId>, sent: Option<Frame>, ok: bool)
    requires ProxyMoves(w, p, q, born, sent, ok)
    ensures Later(w, PutProxy(w, p, q, born, sent, ok))
  {
    forall r | r in w.proxies ensures P.Evolves(w.proxies[r], w.proxies[r]) { SameEvolves(w.proxies[r]); }
  }

  lemma ProxyShape(w: World, p: Pid, q: P.Proxy, born: Option<ConnId>, sent: Option<Frame>, ok: bool)
    requires Shape(w) && ProxyMoves(w, p, q, born, sent, ok)
    ensures Shape(PutProxy(w, p, q, born, sent, ok))
  {
    ProxyHomes(w, p, q, born, sent, ok);
    ProxyRefs(w, p, q, born, sent, ok);
    ProxyWires(w, p, q, born, sent, ok);
  }

  lemma ProxyWires(w: World, p: Pid, q: P.Proxy, born: Option<ConnId>, sent: Option<Frame>, ok: bool)
    requires Shape(w) && ProxyMoves(w, p, q, born, sent, ok)
    ensures var w' := PutProxy(w, p, q, born, sent, ok);
      && (forall ws {:trigger WireOk(w', ws)} :: ws in w'.wires ==> WireOk(w', ws))
      && (forall k, ws {:trigger OwnerOk(w', k, ws)} :: k in w'.clients ==> OwnerOk(w', k, ws))
      && (forall name {:trigger DeviceWs(w', name)} :: name in w'.registry.devices ==> DeviceWs(w', name))
  {
    var w' := PutProxy(w, p, q, born, sent, ok);
    forall ws | ws in w'.wires ensures WireOk(w', ws) { assert WireOk(w, ws); }
    forall k, ws | k in w'.clients ensures OwnerOk(w', k, ws) { assert OwnerOk(w, k, ws); }
    forall name | name in w'.registry.devices ensures DeviceWs(w', name) { assert DeviceWs(w, name); }
  }

  lemma ProxyRefs(w: World, p: Pid, q: P.Proxy, born: Option<ConnId>, sent: Option<Frame>, ok: bool)
    requires Shape(w) && ProxyMoves(w, p, q, born, sent, ok)
    ensures var w' := PutProxy(w, p, q, born, sent, ok);
      && (forall r {:trigger PidOk(w', r)} :: r in w'.proxies ==> PidOk(w', r))
      && (forall port {:trigger RefOk(w', port)} :: port in w'.registry.proxies ==> RefOk(w', port))
  {
    var w' := PutProxy(w, p, q, born, sent, ok);
    forall r | r in w'.proxies ensures PidOk(w', r) { assert PidOk(w, r); }
    forall port | port in w'.registry.proxies ensures RefOk(w', port) { assert RefOk(w, port); }
  }

  lemma ProxyHomes(w: World, p: Pid, q: P.Proxy, born: Option<ConnId>, sent: Option<Frame>, ok: bool)
    requires ProxyMoves(w, p, q, born, sent, ok) && PidOk(w, p)
    requires forall id :: id in w.home ==> Homed(w, id)
    requires forall r, id :: r in w.proxies ==> SocketHome(w, r, id)
    ensures var w' := PutProxy(w, p, q, born, sent, ok);
      && (forall id :: id in w'.home ==> Homed(w', id))
      && (forall r, id :: r in w'.proxies ==> SocketHome(w', r, id))
  {
    var w' := PutProxy(w, p, q, born, sent, ok);
    forall id | id in w'.home ensures Homed(w', id) { assert id in w.home ==> Homed(w, id); }
    forall r, id | r in w'.proxies ensures SocketHome(w', r, id) { assert SocketHome(w, r, id); }
  }

  /** A frame about a connection of `p` goes out on the home WebSocket of that connection. */
  lemma ProxyOut(w: World, p: Pid, q: P.Proxy, born: Option<ConnId>, sent: Option<Frame>, ok: bool, ws: R.Ws,
      id: ConnId)
    requires ProxyMoves(w, p, q, born, sent, ok) && PidOk(w, p) && ws in w.wires && OutOk(w, ws, id)
    requires SocketHome(w, p, id) && (id in w.home ==> Homed(w, id))
    requires sent.Some? && !sent.value.Other? ==> SocketHome(w, p, sent.value.id)
    ensures ws in PutProxy(w, p, q, born, sent, ok).wires && OutOk(PutProxy(w, p, q, born, sent, ok), ws, id)
  {
    var w' := PutProxy(w, p, q, born, sent, ok);
    if sent.Some? && ok && ws == q.ws { OnlyStep(w.wires[ws].out.log, sent.value, id); }
    if id in w.home {
      assert HomedAt(w', id, ws) <==> HomedAt(w, id, ws);
    }
  }

  /** Nobody has spoken of a connection that was only just accepted. */
  lemma NothingTaken(w: World, ws: R.Ws, id: ConnId)
    requires ws in w.wires && WireOk(w, ws) && id !in w.home
    requires HeardAt(w, w.wires[ws].owner, id) && C.SpeaksOf(w.clients[w.wires[ws].owner])
    ensures Only(Taken(w, ws), id) == []
  {
    var taken := Taken(w, ws);
    forall f | f in taken ensures !About(f, id) { assert f in FromClient(w, ws); }
    OnlyNone(taken, id);
  }

  /** What `id` needs to be free of before it is accepted: nothing was taken, nothing is in hand. */
  predicate Unheard(w: World, ws: R.Ws, id: ConnId) {
    && ws in w.wires && WireOk(w, ws) && DroppedOk(w, ws)
    && Only(Taken(w, ws), id) == [] && InHand(w.wires[ws].handler, id) == []
  }

  lemma UnheardBeforeAccept(w: World, ws: R.Ws, id: ConnId)
    requires ws in w.wires && WireOk(w, ws) && DroppedOk(w, ws) && HandlerOk(w, ws) && id !in w.home
    requires HeardAt(w, w.wires[ws].owner, id) && C.SpeaksOf(w.clients[w.wires[ws].owner])
    requires forall r :: r in w.proxies ==> SocketHome(w, r, id)
    ensures Unheard(w, ws, id)
  {
    NothingTaken(w, ws, id);
    match w.wires[ws].handler
    case Took(frame) => assert frame in FromClient(w, ws);
    case Routed(_, frame) => assert frame in FromClient(w, ws);
    case Located(p, i, _) => assert SocketHome(w, p, id);
    case Writing(p, i, _) => assert SocketHome(w, p, id);
    case _ =>
  }

  lemma ProxyUp(w: World, p: Pid, q: P.Proxy, born: Option<ConnId>, sent: Option<Frame>, ok: bool, id: ConnId)
    requires ProxyMoves(w, p, q, born, sent, ok) && Later(w, PutProxy(w, p, q, born, sent, ok)) && UpOk(w, id)
    requires SameWritten(w.proxies[p], q) && PidOk(w, p)
    requires if id in w.home then Homed(w, id) && PidOk(w, w.home[id]) && WireOk(w, HomeWs(w, id))
             else Unheard(w, q.ws, id)
    ensures UpOk(PutProxy(w, p, q, born, sent, ok), id)
  {
    var w' := PutProxy(w, p, q, born, sent, ok);
    if id in w.home {
      HomedUp(w, p, q, born, sent, ok, id);
    } else if Homed(w', id) {
      assert Taken(w', q.ws) == Taken(w, q.ws);
    }
  }

  lemma HomedUp(w: World, p: Pid, q: P.Proxy, born: Option<ConnId>, sent: Option<Frame>, ok: bool, id: ConnId)
    requires ProxyMoves(w, p, q, born, sent, ok) && Later(w, PutProxy(w, p, q, born, sent, ok)) && UpOk(w, id)
    requires SameWritten(w.proxies[p], q)
    requires Homed(w, id) && PidOk(w, w.home[id]) && WireOk(w, HomeWs(w, id))
    ensures UpOk(PutProxy(w, p, q, born, sent, ok), id)
  {
    var w' := PutProxy(w, p, q, born, sent, ok);
    var ws := HomeWs(w, id);
    assert Taken(w', ws) == Taken(w, ws);
    HomedStays(w, w', id);
    if id in w.wires[ws].dropped { DeadStays(w, w', id); }
  }

  lemma ProxyDownstream(w: World, p: Pid, q: P.Proxy, born: Option<ConnId>, sent: Option<Frame>, ok: bool)
    requires Shape(w) && Downstream(w) && ProxyMoves(w, p, q, born, sent, ok)
    ensures Downstream(PutProxy(w, p, q, born, sent, ok))
  {
    var w' := PutProxy(w, p, q, born, sent, ok);
    ProxyLater(w, p, q, born, sent, ok);
    forall ws, id | ws in w'.wires ensures OutOk(w', ws, id) {
      assert PidOk(w, p) && OutOk(w, ws, id);
      ProxyOut(w, p, q, born, sent, ok, ws, id);
    }
    forall k, id | k in w'.clients ensures HeardAt(w', k, id) && KnownAt(w', k, id) && LocalAt(w', k, id) {
      assert HeardAt(w, k, id) && KnownAt(w, k, id) && LocalAt(w, k, id);
      ClientSideStays(w, w', k, id);
    }
  }

  lemma ProxyHandlers(w: World, p: Pid, q: P.Proxy, born: Option<ConnId>, sent: Option<Frame>, ok: bool)
    requires Shape(w) && Upstream(w) && ProxyMoves(w, p, q, born, sent, ok)
    requires Later(w, PutProxy(w, p, q, born, sent, ok))
    requires forall k, id :: k in w.clients ==> HeardAt(w, k, id)
    requires forall k :: k in w.clients ==> C.SpeaksOf(w.clients[k])
    ensures var w' := PutProxy(w, p, q, born, sent, ok);
            forall ws :: ws in w'.wires ==> HandlerOk(w', ws) && DroppedOk(w', ws)
  {
    var w' := PutProxy(w, p, q, born, sent, ok);
    forall ws | ws in w'.wires ensures HandlerOk(w', ws) && DroppedOk(w', ws) {
      assert WireOk(w, ws) && HandlerOk(w, ws) && DroppedOk(w, ws);
      SpeaksOfHomed(w, ws);
      HandlerStays(w, w', ws);
    }
  }

  lemma ProxyUpstream(w: World, p: Pid, q: P.Proxy, born: Option<ConnId>, sent: Option<Frame>, ok: bool)
    requires Shape(w) && Upstream(w) && ProxyMoves(w, p, q, born, sent, ok) && SameWritten(w.proxies[p], q)
    requires forall k, id :: k in w.clients ==> HeardAt(w, k, id)
    requires forall k :: k in w.clients ==> C.SpeaksOf(w.clients[k])
    ensures Upstream(PutProxy(w, p, q, born, sent, ok))
  {
    var w' := PutProxy(w, p, q, born, sent, ok);
    ProxyLater(w, p, q, born, sent, ok);
    assert PidOk(w, p) && q.ws == w.proxies[p].ws;
    ProxyHandlers(w, p, q, born, sent, ok);
    forall id ensures UpOk(w', id) {
      assert UpOk(w, id) && WireOk(w, q.ws) && DroppedOk(w, q.ws) && HandlerOk(w, q.ws);
      if id in w.home {
        assert Homed(w, id) && PidOk(w, w.home[id]);
        assert WireOk(w, HomeWs(w, id));
      } else {
        assert HeardAt(w, w.wires[q.ws].owner, id);
        UnheardBeforeAccept(w, q.ws, id);
      }
      ProxyUp(w, p, q, born, sent, ok, id);
    }
  }

  lemma ProxyKeeps(w: World, p: Pid, e: P.Event, ok: bool)
    requires Inv(w) && CanProxy(w, p, e, ok)
    ensures Inv(DoProxy(w, p, e, ok)) && Later(w, DoProxy(w, p, e, ok))
  {
    var q := P.Do(w.proxies[p], e);
    var born := if e.Accept? then Some(e.id) else None;
    var sent := P.Sends(w.proxies[p], e);
    ProxyFollows(w.proxies[p], e);
    MovesAs(w, p, q, born, sent, ok);
  }

  lemma MovesAs(w: World, p: Pid, q: P.Proxy, born: Option<ConnId>, sent: Option<Frame>, ok: bool)
    requires Inv(w) && ProxyMoves(w, p, q, born, sent, ok) && SameWritten(w.proxies[p], q) && P.Inv(q)
    ensures Inv(PutProxy(w, p, q, born, sent, ok)) && Later(w, PutProxy(w, p, q, born, sent, ok))
  {
    ProxyLater(w, p, q, born, sent, ok);
    ProxyShape(w, p, q, born, sent, ok);
    ProxyDownstream(w, p, q, born, sent, ok);
    ProxyParts(w, p, q, born, sent, ok);
    ClientsSpeak(w);
    ProxyUpstream(w, p, q, born, sent, ok);
  }

  lemma ClientsSpeak(w: World)
    requires Parts(w)
    ensures forall k :: k in w.clients ==> C.SpeaksOf(w.clients[k])
  {
    forall k | k in w.clients ensures C.SpeaksOf(w.clients[k]) { assert C.Inv(w.clients[k]); }
  }

  lemma ProxyParts(w: World, p: Pid, q: P.Proxy, born: Option<ConnId>, sent: Option<Frame>, ok: bool)
    requires Parts(w) && P.Inv(q)
    ensures Parts(PutProxy(w, p, q, born, sent, ok))
  {
    var w' := PutProxy(w, p, q, born, sent, ok);
    forall r | r in w'.proxies ensures P.Inv(w'.proxies[r]) { if r != p { assert P.Inv(w.proxies[r]); } }
    forall k | k in w'.clients ensures C.Inv(w'.clients[k]) { assert C.Inv(w.clients[k]); }
  }
}
