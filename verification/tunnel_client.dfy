/** A step of a client keeps the tunnel's invariant, and the tunnel gives the client what it expects. */
module TunnelClient {
  import opened Wrappers
  import opened Frames
  import opened Tunnel
  import opened TunnelInv
  import R = Registries
  import P = Proxies
  import C = Clients

  // ---- The client is served as it expects ----------------------------------------------

  /** A frame about a connection travels on the home WebSocket of that connection. */
  lemma CarriedHome(w: World, ws: R.Ws, f: Frame)
    requires ws in w.wires && f in w.wires[ws].out.log && !f.Other? && OutOk(w, ws, f.id)
    ensures HomedAt(w, f.id, ws)
  {
    OnlyAbout(w.wires[ws].out.log, f.id);
    assert f in Only(w.wires[ws].out.log, f.id);
  }

  /** A connection is opened by the first frame sent about it and by no later one. */
  lemma OpensFirst(p: P.Proxy, id: ConnId, i: nat)
    requires id in p.sockets && P.SocketOk(p, id) && i < |p.sockets[id].sent| && p.sockets[id].sent[i].Open?
    ensures i == 0
  {
    var s := p.sockets[id];
    if P.Ended(s, id) && i < |s.sent| - 1 { assert s.sent[..|s.sent| - 1][i] == s.sent[i]; }
  }

  /** When conn_open arrives, nothing about the connection has arrived before. */
  lemma OpenArrivesFirst(log: seq<Frame>, n: nat, id: ConnId, p: P.Proxy)
    requires n < |log| && log[n] == Open(id)
    requires id in p.sockets && P.SocketOk(p, id) && Only(log, id) <= p.sockets[id].sent
    ensures Only(log[..n], id) == []
  {
    OnlyStep(log[..n], log[n], id);
    assert log[..n] + [log[n]] == log[..n + 1];
    OnlyPrefix(log, n + 1, id);
    var before := Only(log[..n], id);
    assert Only(log[..n + 1], id)[|before|] == Open(id);
    assert p.sockets[id].sent[|before|] == Open(id);
    OpensFirst(p, id, |before|);
  }

  lemma ClientServed(w: World, k: Cid, e: C.Event)
    requires Inv(w) && CanClient(w, k, e)
    ensures C.Served(w.clients[k], e)
  {
    if e.Session? && e.session.Receive? {
      var ws := w.clients[k].session.value;
      assert C.Inv(w.clients[k]) && C.WsOk(w.clients[k], ws) && OwnerOk(w, k, ws) && WireOk(w, ws);
      ServedFrame(w, k, ws, e.session.frame);
    }
  }

  lemma ServedFrame(w: World, k: Cid, ws: R.Ws, f: Frame)
    requires k in w.clients && w.clients[k].session == Some(ws) && ws in w.wires && WireOk(w, ws)
             && w.wires[ws].owner == k
    requires var n := |w.clients[k].rx[ws]|; n < |w.wires[ws].out.log| && w.wires[ws].out.log[n] == f
    requires forall id :: OutOk(w, ws, id) && KnownAt(w, k, id) && LocalAt(w, k, id)
    requires forall p :: p in w.proxies ==> P.Inv(w.proxies[p])
    ensures C.Expects(w.clients[k], f)
  {
    if !f.Other? {
      assert OutOk(w, ws, f.id) && KnownAt(w, k, f.id) && LocalAt(w, k, f.id);
      CarriedHome(w, ws, f);
      if f.Open? { OpeningExpected(w, k, ws, f.id); }
    }
  }

  lemma OpeningExpected(w: World, k: Cid, ws: R.Ws, id: ConnId)
    requires ws in w.wires && WireOk(w, ws) && w.wires[ws].owner == k && HomedAt(w, id, ws) && OutOk(w, ws, id)
    requires KnownAt(w, k, id) && P.Inv(HomeProxy(w, id))
    requires var n := |w.clients[k].rx[ws]|; n < |w.wires[ws].out.log| && w.wires[ws].out.log[n] == Open(id)
    ensures id !in w.clients[k].known && Payload(Only(w.clients[k].rx[ws], id)) == []
  {
    var log, rx := w.wires[ws].out.log, w.clients[k].rx[ws];
    assert P.SocketOk(HomeProxy(w, id), id);
    assert log[..|rx|] == rx;
    OpenArrivesFirst(log, |rx|, id, HomeProxy(w, id));
    OnlyAbout(rx, id);
  }

  // ---- One step of a client ------------------------------------------------------------

  /** What the tunnel needs to know of one step of a client. */
  ghost predicate Follows(c: C.Client, d: C.Client, connected: Option<R.Ws>, received: Option<Frame>) {
    && (forall ws :: ws in c.rx ==>
          && ws in d.rx
          && d.rx[ws] == if received.Some? && c.session == Some(ws) then c.rx[ws] + [received.value] else c.rx[ws])
    && (forall ws :: ws in c.tx ==> ws in d.tx && c.tx[ws].log <= d.tx[ws].log)
    && (forall ws :: ws in d.tx && ws !in c.tx ==> connected == Some(ws))
    && (connected.Some? ==> var ws := connected.value; ws in d.tx && ws in d.rx && d.tx[ws].log == [] && d.rx[ws] == [])
    && (forall id :: id in d.heard && id !in c.heard ==> received.Some? && About(received.value, id))
    && (forall id :: id in d.known && id !in c.known ==> received == Some(Open(id)))
    && (forall id :: id in d.locals && id in c.locals ==> d.locals[id].home == c.locals[id].home)
    && (forall id :: id in d.locals && id !in c.locals ==>
         c.session == Some(d.locals[id].home) && c.main == C.Got(Open(id)))
    && (received.Some? ==> c.session.Some? && c.session.value in c.rx)
  }

  function Connected(e: C.Event): Option<R.Ws> { if e.Session? && e.session.Connect? then Some(e.session.ws) else None }

  function Received(e: C.Event): Option<Frame> {
    if e.Session? && e.session.Receive? then Some(e.session.frame) else None
  }

  lemma ClientFollows(c: C.Client, e: C.Event)
    requires C.Inv(c) && C.Can(c, e)
    ensures Follows(c, C.Do(c, e), Connected(e), Received(e))
  {
    var d := C.Do(c, e);
    forall ws | ws in c.rx
      ensures ws in d.rx
      ensures d.rx[ws] ==
              if Received(e).Some? && c.session == Some(ws) then c.rx[ws] + [Received(e).value] else c.rx[ws]
    { C.RxChange(c, e, ws); }
    forall ws
      ensures ws in c.tx ==> ws in d.tx && c.tx[ws].log <= d.tx[ws].log
      ensures ws in d.tx && ws !in c.tx ==> Connected(e) == Some(ws)
    {
      assert C.WsOk(c, ws);
      C.WsChange(c, e, ws);
      if ws in d.tx { C.LogKeeps(c, e, ws); }
    }
    forall id
      ensures id in d.heard && id !in c.heard ==> Received(e).Some? && About(Received(e).value, id)
      ensures id in d.known && id !in c.known ==> Received(e) == Some(Open(id))
    { C.HeardChange(c, e, id); }
    forall id | id in d.locals
      ensures id in c.locals ==> d.locals[id].home == c.locals[id].home
      ensures id !in c.locals ==> c.session == Some(d.locals[id].home) && c.main == C.Got(Open(id))
    { C.HomeChange(c, e, id); }
  }

  /** The client and its new state, when the tunnel takes the step. */
  ghost predicate ClientMoves(w: World, k: Cid, d: C.Client, connected: Option<R.Ws>, received: Option<Frame>) {
    && k in w.clients && Follows(w.clients[k], d, connected, received)
    && (connected.Some? ==> connected.value !in w.wires)
    && (received.Some? ==>
          && w.clients[k].session.value in w.wires
          && var n := |w.clients[k].rx[w.clients[k].session.value]|;
             var log := w.wires[w.clients[k].session.value].out.log;
             n < |log| && log[n] == received.value)
  }

  lemma ClientLater(w: World, k: Cid, d: C.Client, connected: Option<R.Ws>, received: Option<Frame>)
    requires ClientMoves(w, k, d, connected, received)
    ensures Later(w, PutClient(w, k, d, connected))
  {
    forall r | r in w.proxies ensures P.Evolves(w.proxies[r], w.proxies[r]) { SameEvolves(w.proxies[r]); }
  }

  lemma ClientWire(w: World, k: Cid, d: C.Client, connected: Option<R.Ws>, received: Option<Frame>, ws: R.Ws)
    requires ClientMoves(w, k, d, connected, received) && ws in PutClient(w, k, d, connected).wires
    requires ws in w.wires ==> WireOk(w, ws)
    ensures WireOk(PutClient(w, k, d, connected), ws)
  {
  }

  lemma ClientShape(w: World, k: Cid, d: C.Client, connected: Option<R.Ws>, received: Option<Frame>)
    requires Shape(w) && ClientMoves(w, k, d, connected, received)
    ensures Shape(PutClient(w, k, d, connected))
  {
    var w' := PutClient(w, k, d, connected);
    forall r | r in w'.proxies ensures PidOk(w', r) { assert PidOk(w, r); }
    forall port | port in w'.registry.proxies ensures RefOk(w', port) { assert RefOk(w, port); }
    forall ws | ws in w'.wires ensures WireOk(w', ws) {
      if ws in w.wires { assert WireOk(w, ws); }
      ClientWire(w, k, d, connected, received, ws);
    }
    forall j, ws | j in w'.clients ensures OwnerOk(w', j, ws) { assert OwnerOk(w, j, ws) && OwnerOk(w, k, ws); }
    forall name | name in w'.registry.devices ensures DeviceWs(w', name) { assert DeviceWs(w, name); }
    forall id | id in w'.home ensures Homed(w', id) { assert Homed(w, id); }
    forall r, id | r in w'.proxies ensures SocketHome(w', r, id) { assert SocketHome(w, r, id); }
  }

  lemma ClientHears(w: World, k: Cid, d: C.Client, connected: Option<R.Ws>, received: Option<Frame>, id: ConnId)
    requires ClientMoves(w, k, d, connected, received) && Later(w, PutClient(w, k, d, connected))
    requires HeardAt(w, k, id) && KnownAt(w, k, id) && LocalAt(w, k, id)
    requires received.Some? && About(received.value, id) ==>
               HomedAt(w, id, w.clients[k].session.value) && w.wires[w.clients[k].session.value].owner == k
    requires id in d.locals && id !in w.clients[k].locals ==> HomedAt(w, id, w.clients[k].session.value)
    ensures var w' := PutClient(w, k, d, connected); HeardAt(w', k, id) && KnownAt(w', k, id) && LocalAt(w', k, id)
  {
    var c := w.clients[k];
    if Homed(w, id) { HomedStays(w, PutClient(w, k, d, connected), id); }
    if received.Some? { OnlyStep(c.rx[c.session.value], received.value, id); }
  }

  lemma ClientOut(w: World, k: Cid, d: C.Client, connected: Option<R.Ws>, received: Option<Frame>)
    requires Shape(w) && Downstream(w) && ClientMoves(w, k, d, connected, received)
    requires Later(w, PutClient(w, k, d, connected))
    ensures var w' := PutClient(w, k, d, connected);
            forall ws, id {:trigger OutOk(w', ws, id)} :: ws in w'.wires ==> OutOk(w', ws, id)
  {
    var w' := PutClient(w, k, d, connected);
    forall ws, id | ws in w'.wires ensures OutOk(w', ws, id) {
      if ws in w.wires { assert OutOk(w, ws, id); }
      if id in w.home { assert Homed(w, id); HomedStays(w, w', id); }
    }
  }

  lemma ClientDownstream(w: World, k: Cid, d: C.Client, connected: Option<R.Ws>, received: Option<Frame>)
    requires Shape(w) && Downstream(w) && ClientMoves(w, k, d, connected, received)
    requires C.FreshOpen(w.clients[k]) && forall ws :: C.WsOk(w.clients[k], ws)
    ensures Downstream(PutClient(w, k, d, connected))
  {
    var w' := PutClient(w, k, d, connected);
    ClientLater(w, k, d, connected, received);
    ClientOut(w, k, d, connected, received);
    forall j, id | j in w'.clients ensures HeardAt(w', j, id) && KnownAt(w', j, id) && LocalAt(w', j, id) {
      assert HeardAt(w, j, id) && KnownAt(w, j, id) && LocalAt(w, j, id);
      if j != k { ClientSideStays(w, w', j, id); }
      else { AboutSession(w, k, d, connected, received, id); ClientHears(w, k, d, connected, received, id); }
    }
  }

  /** What the client newly hears of, or dials, is at home on its current WebSocket. */
  lemma AboutSession(w: World, k: Cid, d: C.Client, connected: Option<R.Ws>, received: Option<Frame>, id: ConnId)
    requires ClientMoves(w, k, d, connected, received) && C.FreshOpen(w.clients[k])
    requires forall ws :: C.WsOk(w.clients[k], ws) && OwnerOk(w, k, ws)
    requires forall ws :: ws in w.wires ==> WireOk(w, ws) && OutOk(w, ws, id)
    ensures received.Some? && About(received.value, id) ==>
              HomedAt(w, id, w.clients[k].session.value) && w.wires[w.clients[k].session.value].owner == k
    ensures id in d.locals && id !in w.clients[k].locals ==>
              w.clients[k].session.Some? && HomedAt(w, id, w.clients[k].session.value)
  {
    var c := w.clients[k];
    if c.session.Some? {
      var ws := c.session.value;
      assert C.WsOk(c, ws) && OwnerOk(w, k, ws);
      if received.Some? && About(received.value, id) { CarriedHome(w, ws, received.value); }
      if c.main == C.Got(Open(id)) {
        assert WireOk(w, ws);
        assert Open(id) in c.rx[ws];
        CarriedHome(w, ws, Open(id));
      }
    }
  }

  lemma ClientHandlers(w: World, k: Cid, d: C.Client, connected: Option<R.Ws>, received: Option<Frame>, ws: R.Ws)
    requires ClientMoves(w, k, d, connected, received) && Later(w, PutClient(w, k, d, connected))
    requires ws in w.wires && WireOk(w, ws) && HandlerOk(w, ws) && DroppedOk(w, ws) && SpokenHomed(w, ws)
    requires forall p :: p in w.proxies ==> PidOk(w, p)
    requires forall id :: id in w.home ==> Homed(w, id)
    ensures var w' := PutClient(w, k, d, connected); ws in w'.wires && HandlerOk(w', ws) && DroppedOk(w', ws)
  {
    HandlerStays(w, PutClient(w, k, d, connected), ws);
  }

  lemma ClientUpstream(w: World, k: Cid, d: C.Client, connected: Option<R.Ws>, received: Option<Frame>)
    requires Shape(w) && Upstream(w) && ClientMoves(w, k, d, connected, received)
    requires forall ws :: ws in w.wires ==> SpokenHomed(w, ws)
    ensures Upstream(PutClient(w, k, d, connected))
  {
    var w' := PutClient(w, k, d, connected);
    ClientLater(w, k, d, connected, received);
    forall ws | ws in w'.wires ensures HandlerOk(w', ws) && DroppedOk(w', ws) {
      if ws in w.wires { ClientHandlers(w, k, d, connected, received, ws); }
    }
    forall id ensures UpOk(w', id) {
      assert UpOk(w, id);
      if id in w.home {
        assert Homed(w, id) && PidOk(w, w.home[id]) && WireOk(w, HomeWs(w, id));
        ClientUp(w, k, d, connected, received, id);
      }
    }
  }

  lemma ClientUp(w: World, k: Cid, d: C.Client, connected: Option<R.Ws>, received: Option<Frame>, id: ConnId)
    requires ClientMoves(w, k, d, connected, received) && Later(w, PutClient(w, k, d, connected)) && UpOk(w, id)
    requires Homed(w, id) && PidOk(w, w.home[id]) && WireOk(w, HomeWs(w, id))
    ensures UpOk(PutClient(w, k, d, connected), id)
  {
    var w' := PutClient(w, k, d, connected);
    var ws := HomeWs(w, id);
    HomedStays(w, w', id);
    assert FromClient(w, ws) <= FromClient(w', ws);
    assert WireOk(w', ws) ==> Taken(w', ws) == Taken(w, ws);
    if id in w.wires[ws].dropped { DeadStays(w, w', id); }
  }

  lemma ClientKeeps(w: World, k: Cid, e: C.Event)
    requires Inv(w) && CanClient(w, k, e)
    ensures Inv(DoClient(w, k, e)) && Later(w, DoClient(w, k, e))
  {
    ClientServed(w, k, e);
    C.StepInv(w.clients[k], e);
    ClientFollows(w.clients[k], e);
    MovesAs(w, k, C.Do(w.clients[k], e), Connected(e), Received(e));
  }

  lemma MovesAs(w: World, k: Cid, d: C.Client, connected: Option<R.Ws>, received: Option<Frame>)
    requires Inv(w) && ClientMoves(w, k, d, connected, received) && C.Inv(d)
    ensures Inv(PutClient(w, k, d, connected)) && Later(w, PutClient(w, k, d, connected))
  {
    ClientLater(w, k, d, connected, received);
    ClientShape(w, k, d, connected, received);
    ClientParts(w, k, d, connected);
    MovesDownstream(w, k, d, connected, received);
    AllSpokenHomed(w);
    ClientUpstream(w, k, d, connected, received);
  }

  lemma ClientParts(w: World, k: Cid, d: C.Client, connected: Option<R.Ws>)
    requires Parts(w) && C.Inv(d)
    ensures Parts(PutClient(w, k, d, connected))
  {
    var w' := PutClient(w, k, d, connected);
    forall p | p in w'.proxies ensures P.Inv(w'.proxies[p]) { assert P.Inv(w.proxies[p]); }
    forall j | j in w'.clients ensures C.Inv(w'.clients[j]) { if j != k { assert C.Inv(w.clients[j]); } }
  }

  lemma MovesDownstream(w: World, k: Cid, d: C.Client, connected: Option<R.Ws>, received: Option<Frame>)
    requires Shape(w) && Parts(w) && Downstream(w) && ClientMoves(w, k, d, connected, received)
    ensures Downstream(PutClient(w, k, d, connected))
  {
    assert C.Inv(w.clients[k]);
    ClientDownstream(w, k, d, connected, received);
  }
}
