/** A step of the server's message handlers keeps the tunnel's invariant. */
module TunnelHandler {
  import opened Wrappers
  import opened Frames
  import opened Tunnel
  import opened TunnelInv
  import TP = TunnelProxy
  import R = Registries
  import P = Proxies
  import C = Clients

  // ---- A change of one WebSocket and of the registry -----------------------------------

  /** No frame about a connection is added, and a WebSocket that is down stays down. */
  ghost predicate OutKept(out: C.Outgoing, out': C.Outgoing) {
    out.log <= out'.log && (out.down ==> out'.down) && forall id :: Only(out'.log, id) == Only(out.log, id)
  }

  lemma ReplyKeepsOut(out: C.Outgoing, reply: Control, ok: bool)
    ensures OutKept(out, Append(out, Other(reply), ok))
  {
    forall id ensures Only(Append(out, Other(reply), ok).log, id) == Only(out.log, id) {
      OnlyStep(out.log, Other(reply), id);
    }
  }

  /** The registry moves on and still names live proxies and open WebSockets. */
  ghost predicate RegistryMoves(w: World, r: R.Registry) {
    && R.Consistent(r) && NoNewRoutes(w.registry, r)
    && (forall port :: port in r.proxies ==> port in w.registry.proxies && r.proxies[port] == w.registry.proxies[port])
    && (forall name :: name in r.devices ==> r.devices[name].ws in w.wires)
  }

  function PutWire(w: World, ws: R.Ws, wire: Wire, r: R.Registry): World {
    w.(wires := w.wires[ws := wire], registry := r)
  }

  ghost predicate WireMoves(w: World, ws: R.Ws, wire: Wire, r: R.Registry) {
    && ws in w.wires && RegistryMoves(w, r) && WireOk(w, ws)
    && wire.owner == w.wires[ws].owner && OutKept(w.wires[ws].out, wire.out)
    && w.wires[ws].taken <= wire.taken <= |FromClient(w, ws)|
  }

  lemma WireLater(w: World, ws: R.Ws, wire: Wire, r: R.Registry)
    requires WireMoves(w, ws, wire, r)
    ensures Later(w, PutWire(w, ws, wire, r))
  {
    forall p | p in w.proxies ensures P.Evolves(w.proxies[p], w.proxies[p]) { SameEvolves(w.proxies[p]); }
  }

  lemma WireShape(w: World, ws: R.Ws, wire: Wire, r: R.Registry)
    requires Shape(w) && WireMoves(w, ws, wire, r)
    ensures Shape(PutWire(w, ws, wire, r))
  {
    var w' := PutWire(w, ws, wire, r);
    forall p | p in w'.proxies ensures PidOk(w', p) { assert PidOk(w, p); }
    forall port | port in r.proxies ensures RefOk(w', port) { assert RefOk(w, port); }
    forall v | v in w'.wires ensures WireOk(w', v) { assert WireOk(w, v); }
    forall k, v | k in w'.clients ensures OwnerOk(w', k, v) { assert OwnerOk(w, k, v); }
    forall name | name in r.devices ensures DeviceWs(w', name) {}
    forall id | id in w'.home ensures Homed(w', id) { assert Homed(w, id); }
    forall p, id | p in w'.proxies ensures SocketHome(w', p, id) { assert SocketHome(w, p, id); }
  }

  lemma WireDownstream(w: World, ws: R.Ws, wire: Wire, r: R.Registry)
    requires Downstream(w) && WireMoves(w, ws, wire, r)
    requires forall id :: id in w.home ==> Homed(w, id)
    ensures Downstream(PutWire(w, ws, wire, r))
  {
    var w' := PutWire(w, ws, wire, r);
    WireLater(w, ws, wire, r);
    forall v, id | v in w'.wires ensures OutOk(w', v, id) {
      assert OutOk(w, v, id);
      if id in w.home { HomedStays(w, w', id); }
    }
    forall k, id | k in w'.clients ensures HeardAt(w', k, id) && KnownAt(w', k, id) && LocalAt(w', k, id) {
      assert HeardAt(w, k, id) && KnownAt(w, k, id) && LocalAt(w, k, id);
      ClientSideStays(w, w', k, id);
    }
  }

  /** What is left to show of one handler step: its own WebSocket. */
  ghost predicate OwnUpstream(w': World, ws: R.Ws) {
    && ws in w'.wires && HandlerOk(w', ws) && DroppedOk(w', ws)
    && forall id :: HomedAt(w', id, ws) ==> UpOk(w', id)
  }

  lemma WireUpstream(w: World, ws: R.Ws, wire: Wire, r: R.Registry)
    requires Shape(w) && Upstream(w) && WireMoves(w, ws, wire, r)
    requires forall v :: v in w.wires ==> SpokenHomed(w, v)
    requires OwnUpstream(PutWire(w, ws, wire, r), ws)
    ensures Upstream(PutWire(w, ws, wire, r))
  {
    var w' := PutWire(w, ws, wire, r);
    WireLater(w, ws, wire, r);
    forall v | v in w'.wires ensures HandlerOk(w', v) && DroppedOk(w', v) {
      if v != ws {
        assert HandlerOk(w, v) && DroppedOk(w, v);
        HandlerStays(w, w', v);
      }
    }
    forall id ensures UpOk(w', id) {
      if id in w.home && !HomedAt(w', id, ws) {
        assert Homed(w, id) && PidOk(w, w.home[id]) && UpOk(w, id) && WireOk(w, HomeWs(w, id));
        UpStays(w, w', id);
      }
    }
  }

  /** A connection whose WebSocket did not move keeps its part of the invariant. */
  lemma UpStays(w: World, w': World, id: ConnId)
    requires Later(w, w') && Homed(w, id) && PidOk(w, w.home[id]) && UpOk(w, id) && WireOk(w, HomeWs(w, id))
    requires w'.proxies == w.proxies && w'.clients == w.clients
    requires w'.wires[HomeWs(w, id)] == w.wires[HomeWs(w, id)]
    ensures UpOk(w', id)
  {
    var ws := HomeWs(w, id);
    HomedStays(w, w', id);
    assert Taken(w', ws) == Taken(w, ws);
    if id in w.wires[ws].dropped { DeadStays(w, w', id); }
  }

  lemma MovesAs(w: World, ws: R.Ws, wire: Wire, r: R.Registry)
    requires Inv(w) && WireMoves(w, ws, wire, r) && OwnUpstream(PutWire(w, ws, wire, r), ws)
    ensures Inv(PutWire(w, ws, wire, r)) && Later(w, PutWire(w, ws, wire, r))
  {
    WireLater(w, ws, wire, r);
    WireShape(w, ws, wire, r);
    WireDownstream(w, ws, wire, r);
    AllSpokenHomed(w);
    WireUpstream(w, ws, wire, r);
  }

  // ---- One connection through one handler step -----------------------------------------

  /** The connection's part, when the handler takes nothing new. */
  lemma UpMoves(w: World, ws: R.Ws, wire: Wire, r: R.Registry, id: ConnId)
    requires WireMoves(w, ws, wire, r) && Later(w, PutWire(w, ws, wire, r)) && wire.taken == w.wires[ws].taken
    requires HomedAt(w, id, ws) && PidOk(w, w.home[id]) && UpOk(w, id)
    requires InHand(wire.handler, id) == InHand(w.wires[ws].handler, id) || id in wire.dropped
    requires w.wires[ws].dropped <= wire.dropped
    requires id in wire.dropped && id !in w.wires[ws].dropped ==> Dead(PutWire(w, ws, wire, r), id)
    ensures UpOk(PutWire(w, ws, wire, r), id)
  {
    var w' := PutWire(w, ws, wire, r);
    HomedStays(w, w', id);
    assert Taken(w', ws) == Taken(w, ws);
    if id in w.wires[ws].dropped { DeadStays(w, w', id); }
  }

  lemma SameRegistryMoves(w: World)
    requires Shape(w)
    ensures RegistryMoves(w, w.registry)
  {
    forall name | name in w.registry.devices ensures w.registry.devices[name].ws in w.wires {
      assert DeviceWs(w, name);
    }
  }

  // ---- Taking a frame ------------------------------------------------------------------

  lemma TakeKeeps(w: World, ws: R.Ws, task: TaskId)
    requires Inv(w) && CanHandler(w, ws, Take, task)
    ensures Inv(DoHandler(w, ws, Take, task)) && Later(w, DoHandler(w, ws, Take, task))
  {
    var wire := w.wires[ws].(taken := w.wires[ws].taken + 1, handler := Took(FromClient(w, ws)[w.wires[ws].taken]));
    var w' := PutWire(w, ws, wire, w.registry);
    assert WireOk(w, ws) && DroppedOk(w, ws);
    SameRegistryMoves(w);
    WireLater(w, ws, wire, w.registry);
    forall id | HomedAt(w', id, ws) ensures UpOk(w', id) {
      assert Homed(w, id) && UpOk(w, id) && PidOk(w, w.home[id]);
      TakeUp(w, ws, wire, id);
    }
    MovesAs(w, ws, wire, w.registry);
  }

  lemma TakeUpRel(s: P.Socket, f: Frame, dropped: bool, id: ConnId, got: Bytes)
    requires UpRel(s, Idle, dropped, id, got)
    ensures UpRel(s, Took(f), dropped, id, got + if About(f, id) && f.Data? then f.data else [])
  {
  }

  lemma TakeUp(w: World, ws: R.Ws, wire: Wire, id: ConnId)
    requires WireMoves(w, ws, wire, w.registry) && Later(w, PutWire(w, ws, wire, w.registry))
    requires HomedAt(w, id, ws) && PidOk(w, w.home[id]) && UpOk(w, id)
    requires w.wires[ws].handler == Idle && wire.taken == w.wires[ws].taken + 1 <= |FromClient(w, ws)|
    requires wire.handler == Took(FromClient(w, ws)[w.wires[ws].taken]) && wire.dropped == w.wires[ws].dropped
    ensures UpOk(PutWire(w, ws, wire, w.registry), id)
  {
    var w' := PutWire(w, ws, wire, w.registry);
    var f := FromClient(w, ws)[w.wires[ws].taken];
    HomedStays(w, w', id);
    assert Taken(w', ws) == Taken(w, ws) + [f];
    C.PayloadGrows(Taken(w, ws), f, id);
    TakeUpRel(HomeSocket(w, id), f, id in wire.dropped, id, Payload(Only(Taken(w, ws), id)));
    if id in wire.dropped { DeadStays(w, w', id); }
  }

  // ---- Steps that touch no connection --------------------------------------------------

  /** Only an enable adds a proxy, and only a registration adds a device: one of its own WebSocket. */
  lemma EventAdds(r: R.Registry, e: R.Event)
    requires !e.EEnable?
    ensures forall port :: port in R.Next(r, e).proxies ==>
              port in r.proxies && R.Next(r, e).proxies[port] == r.proxies[port]
    ensures forall name :: name in R.Next(r, e).devices ==>
              if name in r.devices then R.Next(r, e).devices[name].ws == r.devices[name].ws
              else e.ERegister? && R.Next(r, e).devices[name].ws == e.ws
  {
    match e
    case ERegister(_, _, _) =>
    case EDisconnect(_) =>
    case EDisable(_) =>
    case ESweep(_) =>
    case EBeat(_, _) =>
  }

  lemma EventRoutes(r: R.Registry, e: R.Event)
    requires R.Consistent(r)
    ensures NoNewRoutes(r, R.Next(r, e))
  {
    forall ws: R.Ws, p: Pid | p < r.proxyCount && R.RoutedTo(R.Next(r, e), ws, p) ensures R.RoutedTo(r, ws, p) {
      R.RouteNeverReturns(r, e, ws, p);
    }
    ProxyCountGrows(r, e);
  }

  lemma ProxyCountGrows(r: R.Registry, e: R.Event)
    ensures r.proxyCount <= R.Next(r, e).proxyCount
  {
  }

  lemma EventMoves(w: World, e: R.Event)
    requires R.Consistent(w.registry) && !e.EEnable? && (e.ERegister? ==> e.ws in w.wires)
    requires forall name :: name in w.registry.devices ==> w.registry.devices[name].ws in w.wires
    ensures RegistryMoves(w, R.Next(w.registry, e))
  {
    R.NextConsistent(w.registry, e);
    EventRoutes(w.registry, e);
    EventAdds(w.registry, e);
  }

  predicate Quiet(h: Handler) {
    || h.Idle? || h.Checked? || h.Crediting? || h.Replying? || h.Leaving? || h.Gone?
    || (h.Took? && (h.frame.Other? || h.frame.Open?))
  }

  lemma QuietUp(w: World, ws: R.Ws, wire: Wire, r: R.Registry, id: ConnId)
    requires WireMoves(w, ws, wire, r) && Later(w, PutWire(w, ws, wire, r))
    requires wire.taken == w.wires[ws].taken && wire.dropped == w.wires[ws].dropped
    requires Quiet(w.wires[ws].handler) && Quiet(wire.handler)
    requires HomedAt(w, id, ws) && PidOk(w, w.home[id]) && UpOk(w, id)
    ensures UpOk(PutWire(w, ws, wire, r), id)
  {
    assert InHand(wire.handler, id) == [] == InHand(w.wires[ws].handler, id);
    UpMoves(w, ws, wire, r, id);
  }

  lemma QuietKeeps(w: World, ws: R.Ws, wire: Wire, r: R.Registry)
    requires Inv(w) && WireMoves(w, ws, wire, r)
    requires wire.taken == w.wires[ws].taken && wire.dropped == w.wires[ws].dropped
    requires Quiet(w.wires[ws].handler) && Quiet(wire.handler) && !wire.handler.Took?
    ensures Inv(PutWire(w, ws, wire, r)) && Later(w, PutWire(w, ws, wire, r))
  {
    var w' := PutWire(w, ws, wire, r);
    WireLater(w, ws, wire, r);
    assert DroppedOk(w, ws);
    forall id | HomedAt(w', id, ws) ensures UpOk(w', id) {
      assert Homed(w, id) && UpOk(w, id) && PidOk(w, w.home[id]);
      QuietUp(w, ws, wire, r, id);
    }
    MovesAs(w, ws, wire, r);
  }

  lemma SameOut(out: C.Outgoing)
    ensures OutKept(out, out) && OutKept(out, out.(down := true))
  {
  }

  predicate IsQuiet(h: Handling) {
    h.Check? || h.Insert? || h.Reply? || h.Credit? || h.Beat? || h.Skip? || h.Fail? || h.Leave?
  }

  lemma QuietEffect(w: World, ws: R.Ws, h: Handling, task: TaskId)
    requires CanHandler(w, ws, h, task) && IsQuiet(h)
    ensures ws in DoHandler(w, ws, h, task).wires
    ensures var wire, wire' := w.wires[ws], DoHandler(w, ws, h, task).wires[ws];
      && wire'.owner == wire.owner && wire'.taken == wire.taken && wire'.dropped == wire.dropped
      && Quiet(wire.handler) && Quiet(wire'.handler) && !wire'.handler.Took? && OutKept(wire.out, wire'.out)
    ensures var w' := DoHandler(w, ws, h, task);
      && w' == PutWire(w, ws, w'.wires[ws], w'.registry).(tasks := w'.tasks)
      && (w'.registry == w.registry || exists e :: QuietEvent(w, ws, h, e) && w'.registry == R.Next(w.registry, e))
  {
    var wire := w.wires[ws];
    SameOut(wire.out);
    if h.Reply? { ReplyKeepsOut(wire.out, wire.handler.reply, h.ok); }
    match h
    case Insert(now) => assert QuietEvent(w, ws, h, R.ERegister(ws, wire.handler.request, now));
    case Fail => assert QuietEvent(w, ws, h, R.EDisconnect(ws));
    case Beat(now) => assert QuietEvent(w, ws, h, R.EBeat(wire.handler.device, now));
    case _ =>
  }

  predicate QuietEvent(w: World, ws: R.Ws, h: Handling, e: R.Event) {
    !e.EEnable? && (e.ERegister? ==> e.ws == ws)
  }

  lemma QuietStepKeeps(w: World, ws: R.Ws, h: Handling, task: TaskId)
    requires Inv(w) && CanHandler(w, ws, h, task) && IsQuiet(h)
    ensures Inv(DoHandler(w, ws, h, task)) && Later(w, DoHandler(w, ws, h, task))
  {
    var w' := DoHandler(w, ws, h, task);
    QuietEffect(w, ws, h, task);
    SameRegistryMoves(w);
    if w'.registry != w.registry {
      var e :| QuietEvent(w, ws, h, e) && w'.registry == R.Next(w.registry, e);
      forall name | name in w.registry.devices ensures w.registry.devices[name].ws in w.wires {
        assert DeviceWs(w, name);
      }
      EventMoves(w, e);
    }
    assert WireOk(w, ws);
    QuietKeeps(w, ws, w'.wires[ws], w'.registry);
    TasksDoNotMatter(PutWire(w, ws, w'.wires[ws], w'.registry), w'.tasks);
  }

  // ---- Routing a frame -----------------------------------------------------------------

  /** The handler keeps the bytes in hand, or gives up a frame of `id`. */
  ghost predicate Passes(wire: Wire, wire': Wire, id: ConnId) {
    && wire'.taken == wire.taken && wire'.owner == wire.owner && wire'.out == wire.out
    && ((wire'.dropped == wire.dropped && forall i :: InHand(wire'.handler, i) == InHand(wire.handler, i))
        || wire' == Dropping(wire, id))
    && forall i :: i != id ==> InHand(wire.handler, i) == []
  }

  /** The handler moves on with the same frame, or gives it up because its connection is dead. */
  lemma PassOn(w: World, ws: R.Ws, wire: Wire, id: ConnId)
    requires Inv(w) && ws in w.wires && Passes(w.wires[ws], wire, id)
    requires wire == Dropping(w.wires[ws], id) ==> id in w.home && (HomedAt(w, id, ws) ==> Dead(w, id))
    requires HandlerOk(PutWire(w, ws, wire, w.registry), ws)
    ensures Inv(PutWire(w, ws, wire, w.registry)) && Later(w, PutWire(w, ws, wire, w.registry))
  {
    PassMoves(w, ws, wire, id);
    PassOwn(w, ws, wire, id);
    MovesAs(w, ws, wire, w.registry);
  }

  lemma PassMoves(w: World, ws: R.Ws, wire: Wire, id: ConnId)
    requires Shape(w) && ws in w.wires && Passes(w.wires[ws], wire, id)
    ensures WireMoves(w, ws, wire, w.registry)
  {
    SameRegistryMoves(w);
    SameOut(wire.out);
    assert WireOk(w, ws);
  }

  lemma PassOwn(w: World, ws: R.Ws, wire: Wire, id: ConnId)
    requires Shape(w) && Upstream(w) && ws in w.wires && Passes(w.wires[ws], wire, id)
             && WireMoves(w, ws, wire, w.registry)
    requires wire == Dropping(w.wires[ws], id) ==> id in w.home && (HomedAt(w, id, ws) ==> Dead(w, id))
    requires HandlerOk(PutWire(w, ws, wire, w.registry), ws)
    ensures OwnUpstream(PutWire(w, ws, wire, w.registry), ws)
  {
    assert DroppedOk(w, ws);
    WireLater(w, ws, wire, w.registry);
    forall i | HomedAt(PutWire(w, ws, wire, w.registry), i, ws) ensures UpOk(PutWire(w, ws, wire, w.registry), i) {
      assert Homed(w, i) && UpOk(w, i) && PidOk(w, w.home[i]);
      PassUp(w, ws, wire, id, i);
    }
  }

  lemma PassUp(w: World, ws: R.Ws, wire: Wire, id: ConnId, i: ConnId)
    requires WireMoves(w, ws, wire, w.registry) && Later(w, PutWire(w, ws, wire, w.registry))
    requires Passes(w.wires[ws], wire, id) && HomedAt(w, i, ws) && PidOk(w, w.home[i]) && UpOk(w, i)
    requires i == id && wire == Dropping(w.wires[ws], id) ==> Dead(w, id)
    ensures UpOk(PutWire(w, ws, wire, w.registry), i)
  {
    UpMoves(w, ws, wire, w.registry, i);
  }

  function Dropping(wire: Wire, id: ConnId): Wire { wire.(handler := Idle, dropped := wire.dropped + {id}) }

  lemma RouteKeeps(w: World, ws: R.Ws, frame: Frame)
    requires Inv(w) && ws in w.wires && w.wires[ws].handler == Took(frame) && (frame.Data? || frame.Close?)
    ensures var target := R.Route(w.registry, ws);
            var wire := if target.Some? then w.wires[ws].(handler := Routed(target.value.id, frame))
                        else Dropping(w.wires[ws], frame.id);
            Inv(PutWire(w, ws, wire, w.registry)) && Later(w, PutWire(w, ws, wire, w.registry))
  {
    AllSpokenHomed(w);
    assert WireOk(w, ws) && HandlerOk(w, ws) && SpokenHomed(w, ws);
    assert frame in FromClient(w, ws);
    if R.Route(w.registry, ws).Some? {
      RouteFindsHome(w, ws, frame);
      PassOn(w, ws, w.wires[ws].(handler := Routed(R.Route(w.registry, ws).value.id, frame)), frame.id);
    } else {
      PassOn(w, ws, Dropping(w.wires[ws], frame.id), frame.id);
    }
  }

  /** What the handler may rely on once it has looked the proxy up. */
  lemma RouteFindsHome(w: World, ws: R.Ws, frame: Frame)
    requires Shape(w) && ws in w.wires && R.Route(w.registry, ws).Some? && w.wires[ws].handler == Took(frame)
    requires (frame.Data? || frame.Close?) && JustTook(w, ws, frame) && UpOk(w, frame.id)
    ensures var p := R.Route(w.registry, ws).value.id;
            HandlerOk(PutWire(w, ws, w.wires[ws].(handler := Routed(p, frame)), w.registry), ws)
  {
    var ref := R.Route(w.registry, ws).value;
    R.RouteStaysHome(w.registry, ws);
    assert RefOk(w, R.Owner(w.registry, ws).value.port);
    assert WireOk(w, ws);
    if frame.id in w.home { assert Homed(w, frame.id); }
  }

  lemma LocateKeeps(w: World, ws: R.Ws, p: Pid, frame: Frame)
    requires Inv(w) && ws in w.wires && w.wires[ws].handler == Routed(p, frame) && frame.Data? && p in w.proxies
    ensures var wire := if frame.id in w.proxies[p].conns then w.wires[ws].(handler := Located(p, frame.id, frame.data))
                        else Dropping(w.wires[ws], frame.id);
            Inv(PutWire(w, ws, wire, w.registry)) && Later(w, PutWire(w, ws, wire, w.registry))
  {
    if frame.id in w.proxies[p].conns {
      assert HandlerOk(w, ws) && SocketHome(w, p, frame.id) && P.Inv(w.proxies[p]);
      LocatedOk(w, ws, p, frame);
      PassOn(w, ws, w.wires[ws].(handler := Located(p, frame.id, frame.data)), frame.id);
    } else {
      LocateMisses(w, ws, p, frame);
      PassOn(w, ws, Dropping(w.wires[ws], frame.id), frame.id);
    }
  }

  lemma LocatedOk(w: World, ws: R.Ws, p: Pid, frame: Frame)
    requires ws in w.wires && HandlerOk(w, ws) && w.wires[ws].handler == Routed(p, frame) && frame.Data?
    requires frame.id in w.proxies[p].conns && frame.id in w.proxies[p].sockets && SocketHome(w, p, frame.id)
    ensures HandlerOk(PutWire(w, ws, w.wires[ws].(handler := Located(p, frame.id, frame.data)), w.registry), ws)
  {
  }

  lemma LocateMisses(w: World, ws: R.Ws, p: Pid, frame: Frame)
    requires Inv(w) && ws in w.wires && p in w.proxies
    requires w.wires[ws].handler == Routed(p, frame) && frame.Data? && frame.id !in w.proxies[p].conns
    ensures frame.id in w.home && (HomedAt(w, frame.id, ws) ==> Dead(w, frame.id))
  {
    AllSpokenHomed(w);
    assert WireOk(w, ws) && HandlerOk(w, ws) && SpokenHomed(w, ws);
    assert frame in FromClient(w, ws);
    if HomedAt(w, frame.id, ws) && w.home[frame.id] == p {
      assert HeardAt(w, w.wires[ws].owner, frame.id) && OutOk(w, ws, frame.id) && C.Inv(w.clients[w.wires[ws].owner]);
      AnnouncedBefore(w, ws, frame.id);
    }
  }

  /** The client has only heard of connections that were announced to it. */
  lemma AnnouncedBefore(w: World, ws: R.Ws, id: ConnId)
    requires ws in w.wires && WireOk(w, ws) && HomedAt(w, id, ws) && OutOk(w, ws, id)
    requires HeardAt(w, w.wires[ws].owner, id) && C.SpeaksOf(w.clients[w.wires[ws].owner])
    requires exists f :: f in FromClient(w, ws) && About(f, id)
    ensures HomeSocket(w, id).sent != []
  {
    var c := w.clients[w.wires[ws].owner];
    assert id in c.heard;
    OnlyPrefix(w.wires[ws].out.log, |c.rx[ws]|, id);
    assert w.wires[ws].out.log[..|c.rx[ws]|] == c.rx[ws];
  }

  lemma LookStoppedKeeps(w: World, ws: R.Ws, p: Pid, id: ConnId, data: Bytes)
    requires Inv(w) && ws in w.wires && w.wires[ws].handler == Located(p, id, data) && p in w.proxies
    ensures var wire := if w.proxies[p].stop.Running? then w.wires[ws].(handler := Writing(p, id, data))
                        else Dropping(w.wires[ws], id);
            Inv(PutWire(w, ws, wire, w.registry)) && Later(w, PutWire(w, ws, wire, w.registry))
  {
    assert HandlerOk(w, ws) && SocketHome(w, p, id);
    if w.proxies[p].stop.Running? {
      PassOn(w, ws, w.wires[ws].(handler := Writing(p, id, data)), id);
    } else {
      PassOn(w, ws, Dropping(w.wires[ws], id), id);
    }
  }

  // ---- Calls into the proxy ------------------------------------------------------------

  lemma CloseConnKeeps(w: World, ws: R.Ws, p: Pid, frame: Frame)
    requires Inv(w) && ws in w.wires && w.wires[ws].handler == Routed(p, frame) && frame.Close? && p in w.proxies
    ensures var w1 := PutProxy(w, p, P.Do(w.proxies[p], P.CloseConn(frame.id)), None, None, false);
            ws in w1.wires && Inv(PutWire(w1, ws, w1.wires[ws].(handler := Idle), w1.registry))
  {
    CloseOnProxy(w, p, frame.id);
    IdleKeeps(PutProxy(w, p, P.Do(w.proxies[p], P.CloseConn(frame.id)), None, None, false), ws, frame.id);
  }

  lemma CloseOnProxy(w: World, p: Pid, id: ConnId)
    requires Inv(w) && p in w.proxies
    ensures Inv(PutProxy(w, p, P.Do(w.proxies[p], P.CloseConn(id)), None, None, false))
  {
    assert P.Inv(w.proxies[p]);
    TP.ProxyFollows(w.proxies[p], P.CloseConn(id));
    TP.MovesAs(w, p, P.Do(w.proxies[p], P.CloseConn(id)), None, None, false);
  }

  /** A handler with nothing in hand becomes idle. */
  lemma IdleKeeps(w: World, ws: R.Ws, id: ConnId)
    requires Inv(w) && ws in w.wires && forall i :: InHand(w.wires[ws].handler, i) == []
    ensures Inv(PutWire(w, ws, w.wires[ws].(handler := Idle), w.registry))
  {
    assert DroppedOk(w, ws) && WireOk(w, ws) && UpOk(w, id);
    PassOn(w, ws, w.wires[ws].(handler := Idle), id);
  }

  /** A write by the routing: the proxy's new state `q` differs in one socket only. */
  ghost predicate WroteOnly(p: P.Proxy, q: P.Proxy, id: ConnId) {
    forall i :: i in p.sockets && i in q.sockets && i != id ==>
      q.sockets[i].written == p.sockets[i].written && q.sockets[i].broken == p.sockets[i].broken
  }

  /** The bytes leave the handler's hand for the socket, or the socket is broken. */
  lemma WriteUpRel(s: P.Socket, s': P.Socket, p: Pid, id: ConnId, data: Bytes, n: nat, ok: bool, dropped: bool,
      got: Bytes)
    requires UpRel(s, Writing(p, id, data), dropped, id, got) && !dropped && n <= |data|
    requires (ok ==> n == |data|) && (s.broken ==> n == 0)
    requires s'.written == s.written + data[..n] && s'.broken == (s.broken || !ok)
    ensures UpRel(s', Idle, dropped, id, got)
  {
    assert data == data[..n] + data[n..];
    assert ok ==> data[..n] == data;
  }

  function WriteDone(w: World, ws: R.Ws, p: Pid, q: P.Proxy): World
    requires ws in w.wires
  {
    w.(proxies := w.proxies[p := q], wires := w.wires[ws := w.wires[ws].(handler := Idle)])
  }

  lemma WriteKeeps(w: World, ws: R.Ws, p: Pid, id: ConnId, data: Bytes, n: nat, ok: bool)
    requires Inv(w) && ws in w.wires && w.wires[ws].handler == Writing(p, id, data) && p in w.proxies
    requires P.Can(w.proxies[p], P.Write(id, data, n, ok))
    ensures Inv(WriteDone(w, ws, p, P.Do(w.proxies[p], P.Write(id, data, n, ok))))
  {
    var q := P.Do(w.proxies[p], P.Write(id, data, n, ok));
    assert P.Inv(w.proxies[p]);
    TP.ProxyFollows(w.proxies[p], P.Write(id, data, n, ok));
    forall i | i in w.proxies[p].sockets && i in q.sockets && i != id
      ensures q.sockets[i].written == w.proxies[p].sockets[i].written
              && q.sockets[i].broken == w.proxies[p].sockets[i].broken
    { P.WritesOnly(w.proxies[p], P.Write(id, data, n, ok), i); }
    WriteEffect(w.proxies[p], id, data, n, ok);
    WriteSound(w, ws, p, id, data, n, ok, q);
  }

  lemma WriteEffect(p: P.Proxy, id: ConnId, data: Bytes, n: nat, ok: bool)
    requires P.Can(p, P.Write(id, data, n, ok))
    ensures var q := P.Do(p, P.Write(id, data, n, ok));
      && id in q.sockets && q.sockets[id].written == p.sockets[id].written + data[..n]
      && q.sockets[id].broken == (p.sockets[id].broken || !ok)
      && (ok ==> n == |data|) && (p.sockets[id].broken ==> n == 0)
  {
  }

  lemma WriteSound(w: World, ws: R.Ws, p: Pid, id: ConnId, data: Bytes, n: nat, ok: bool, q: P.Proxy)
    requires Inv(w) && ws in w.wires && w.wires[ws].handler == Writing(p, id, data) && p in w.proxies
    requires TP.Follows(w.proxies[p], q, None, None) && WroteOnly(w.proxies[p], q, id) && P.Inv(q)
    requires id in w.proxies[p].sockets && id in q.sockets && n <= |data|
    requires q.sockets[id].written == w.proxies[p].sockets[id].written + data[..n]
    requires q.sockets[id].broken == (w.proxies[p].sockets[id].broken || !ok)
    requires (ok ==> n == |data|) && (w.proxies[p].sockets[id].broken ==> n == 0)
    ensures Inv(WriteDone(w, ws, p, q))
  {
    WriteShape(w, ws, p, q);
    AllSpokenHomed(w);
    WriteUpstream(w, ws, p, id, data, n, ok, q);
  }

  lemma WriteShape(w: World, ws: R.Ws, p: Pid, q: P.Proxy)
    requires Shape(w) && Downstream(w) && ws in w.wires && p in w.proxies && TP.Follows(w.proxies[p], q, None, None)
    ensures Shape(WriteDone(w, ws, p, q)) && Downstream(WriteDone(w, ws, p, q))
  {
    var w1 := PutProxy(w, p, q, None, None, false);
    var wire := w1.wires[ws].(handler := Idle);
    TP.ProxyShape(w, p, q, None, None, false);
    TP.ProxyDownstream(w, p, q, None, None, false);
    SameRegistryMoves(w1);
    SameOut(wire.out);
    assert WireOk(w1, ws);
    WireShape(w1, ws, wire, w1.registry);
    WireDownstream(w1, ws, wire, w1.registry);
    assert PutWire(w1, ws, wire, w1.registry) == WriteDone(w, ws, p, q);
  }

  lemma WriteUpstream(w: World, ws: R.Ws, p: Pid, id: ConnId, data: Bytes, n: nat, ok: bool, q: P.Proxy)
    requires Shape(w) && Upstream(w) && ws in w.wires && w.wires[ws].handler == Writing(p, id, data) && p in w.proxies
    requires TP.Follows(w.proxies[p], q, None, None) && WroteOnly(w.proxies[p], q, id)
    requires id in w.proxies[p].sockets && id in q.sockets && n <= |data|
    requires q.sockets[id].written == w.proxies[p].sockets[id].written + data[..n]
    requires q.sockets[id].broken == (w.proxies[p].sockets[id].broken || !ok)
    requires (ok ==> n == |data|) && (w.proxies[p].sockets[id].broken ==> n == 0)
    requires forall v :: v in w.wires ==> SpokenHomed(w, v)
    ensures Upstream(WriteDone(w, ws, p, q))
  {
    var w' := WriteDone(w, ws, p, q);
    TP.ProxyLater(w, p, q, None, None, false);
    assert Later(w, w');
    assert HandlerOk(w, ws) && SocketHome(w, p, id);
    WriteHandlers(w, ws, w');
    forall i ensures UpOk(w', i) {
      assert UpOk(w, i);
      if i in w.home {
        assert Homed(w, i) && PidOk(w, w.home[i]) && WireOk(w, HomeWs(w, i));
        WriteUp(w, ws, p, id, data, n, ok, q, i);
      }
    }
  }

  lemma WriteHandlers(w: World, ws: R.Ws, w': World)
    requires Shape(w) && Upstream(w) && Later(w, w') && ws in w.wires
    requires w'.wires == w.wires[ws := w.wires[ws].(handler := Idle)] && w'.clients == w.clients && w'.home == w.home
    requires forall v :: v in w.wires ==> SpokenHomed(w, v)
    ensures forall v :: v in w'.wires ==> HandlerOk(w', v) && DroppedOk(w', v)
  {
    forall v | v in w'.wires ensures HandlerOk(w', v) && DroppedOk(w', v) {
      assert HandlerOk(w, v) && DroppedOk(w, v);
      if v != ws { HandlerStays(w, w', v); }
    }
  }

  lemma WriteUp(w: World, ws: R.Ws, p: Pid, id: ConnId, data: Bytes, n: nat, ok: bool, q: P.Proxy, i: ConnId)
    requires ws in w.wires && w.wires[ws].handler == Writing(p, id, data) && HandlerOk(w, ws) && SocketHome(w, p, id)
    requires TP.Follows(w.proxies[p], q, None, None) && WroteOnly(w.proxies[p], q, id)
    requires id in w.proxies[p].sockets && id in q.sockets && n <= |data|
    requires q.sockets[id].written == w.proxies[p].sockets[id].written + data[..n]
    requires q.sockets[id].broken == (w.proxies[p].sockets[id].broken || !ok)
    requires (ok ==> n == |data|) && (w.proxies[p].sockets[id].broken ==> n == 0)
    requires Later(w, WriteDone(w, ws, p, q)) && Homed(w, i) && PidOk(w, w.home[i]) && WireOk(w, HomeWs(w, i))
             && UpOk(w, i)
    ensures UpOk(WriteDone(w, ws, p, q), i)
  {
    var w' := WriteDone(w, ws, p, q);
    var v := HomeWs(w, i);
    HomedStays(w, w', i);
    assert Taken(w', v) == Taken(w, v);
    if i in w.wires[v].dropped { DeadStays(w, w', i); }
    if i == id {
      var got := Payload(Only(Taken(w, v), i));
      WriteUpRel(w.proxies[p].sockets[id], q.sockets[id], p, id, data, n, ok, false, got);
    }
  }

  // ---- Any step ------------------------------------------------------------------------

  lemma HandlerKeeps(w: World, ws: R.Ws, h: Handling, task: TaskId)
    requires Inv(w) && CanHandler(w, ws, h, task)
    ensures Inv(DoHandler(w, ws, h, task))
  {
    if IsQuiet(h) {
      QuietStepKeeps(w, ws, h, task);
    } else {
      match h
      case Take => TakeKeeps(w, ws, task);
      case Route => RouteKeeps(w, ws, w.wires[ws].handler.frame);
      case Locate => LocateKeeps(w, ws, w.wires[ws].handler.proxy, w.wires[ws].handler.frame);
      case CloseConn => CloseConnKeeps(w, ws, w.wires[ws].handler.proxy, w.wires[ws].handler.frame);
      case LookStopped =>
        LookStoppedKeeps(w, ws, w.wires[ws].handler.proxy, w.wires[ws].handler.id,
                         w.wires[ws].handler.data);
      case Write(n, ok) =>
        WriteKeeps(w, ws, w.wires[ws].handler.proxy, w.wires[ws].handler.id, w.wires[ws].handler.data, n, ok);
    }
  }
}
