/** The invariant of the tunnel and its preservation by every step. */
module TunnelInv {
  import opened Frames
  import opened Tunnel
  import R = Registries
  import P = Proxies
  import C = Clients

  // ---- Who is who ----------------------------------------------------------------------

  predicate Homed(w: World, id: ConnId) {
    && id in w.home && w.home[id] in w.proxies && id in w.proxies[w.home[id]].sockets
    && w.proxies[w.home[id]].ws in w.wires
  }

  function HomeProxy(w: World, id: ConnId): P.Proxy
    requires Homed(w, id)
  {
    w.proxies[w.home[id]]
  }

  function HomeWs(w: World, id: ConnId): R.Ws
    requires Homed(w, id)
  {
    HomeProxy(w, id).ws
  }

  function HomeSocket(w: World, id: ConnId): P.Socket
    requires Homed(w, id)
  {
    HomeProxy(w, id).sockets[id]
  }

  predicate HomedAt(w: World, id: ConnId, ws: R.Ws) { Homed(w, id) && HomeWs(w, id) == ws }

  predicate PidOk(w: World, p: Pid)
    requires p in w.proxies
  {
    p < w.registry.proxyCount && w.proxies[p].ws in w.wires
  }

  predicate RefOk(w: World, port: int)
    requires port in w.registry.proxies
  {
    var ref := w.registry.proxies[port];
    && ref.id in w.proxies && w.proxies[ref.id].ws == ref.ws && w.proxies[ref.id].port == port
    && w.proxies[ref.id].device == ref.device
  }

  predicate SocketHome(w: World, p: Pid, id: ConnId)
    requires p in w.proxies
  {
    id in w.proxies[p].sockets ==> id in w.home && w.home[id] == p
  }

  /** Messages arrive in the order they were sent, none invented. */
  predicate WireOk(w: World, ws: R.Ws)
    requires ws in w.wires
  {
    && w.wires[ws].owner in w.clients
    && var k := w.clients[w.wires[ws].owner];
       && ws in k.tx && ws in k.rx
       && k.rx[ws] <= w.wires[ws].out.log
       && w.wires[ws].taken <= |k.tx[ws].log|
  }

  predicate OwnerOk(w: World, k: Cid, ws: R.Ws)
    requires k in w.clients
  {
    ws in w.clients[k].tx ==> ws in w.wires && w.wires[ws].owner == k
  }

  predicate DeviceWs(w: World, name: string)
    requires name in w.registry.devices
  {
    w.registry.devices[name].ws in w.wires
  }

  ghost predicate Shape(w: World) {
    && R.Consistent(w.registry)
    && (forall p {:trigger PidOk(w, p)} :: p in w.proxies ==> PidOk(w, p))
    && (forall port {:trigger RefOk(w, port)} :: port in w.registry.proxies ==> RefOk(w, port))
    && (forall id {:trigger Homed(w, id)} :: id in w.home ==> Homed(w, id))
    && (forall p, id {:trigger SocketHome(w, p, id)} :: p in w.proxies ==> SocketHome(w, p, id))
    && (forall ws {:trigger WireOk(w, ws)} :: ws in w.wires ==> WireOk(w, ws))
    && (forall k, ws {:trigger OwnerOk(w, k, ws)} :: k in w.clients ==> OwnerOk(w, k, ws))
    && (forall name {:trigger DeviceWs(w, name)} :: name in w.registry.devices ==> DeviceWs(w, name))
  }

  ghost predicate Parts(w: World) {
    && (forall p {:trigger P.Inv(w.proxies[p])} :: p in w.proxies ==> P.Inv(w.proxies[p]))
    && (forall k {:trigger C.Inv(w.clients[k])} :: k in w.clients ==> C.Inv(w.clients[k]))
  }

  // ---- From the server to the client ---------------------------------------------------

  /** `onWire` is what a WebSocket carries of a connection, `sent` what its proxy tried to send. */
  predicate OutRel(onWire: seq<Frame>, sent: seq<Frame>, down: bool) {
    onWire <= sent && (!down ==> onWire == sent)
  }

  /** A WebSocket carries the frames of the connections of its own proxies and of no others. */
  predicate OutOk(w: World, ws: R.Ws, id: ConnId)
    requires ws in w.wires
  {
    var onWire := Only(w.wires[ws].out.log, id);
    if HomedAt(w, id, ws) then OutRel(onWire, HomeSocket(w, id).sent, w.wires[ws].out.down) else onWire == []
  }

  /** The client heard of a connection only on its home WebSocket. */
  predicate HeardAt(w: World, k: Cid, id: ConnId)
    requires k in w.clients
  {
    id in w.clients[k].heard ==>
      && Homed(w, id) && w.wires[HomeWs(w, id)].owner == k
      && HomeWs(w, id) in w.clients[k].rx && Only(w.clients[k].rx[HomeWs(w, id)], id) != []
  }

  predicate KnownAt(w: World, k: Cid, id: ConnId)
    requires k in w.clients
  {
    id in w.clients[k].known ==>
      Homed(w, id) && HomeWs(w, id) in w.clients[k].rx && Open(id) in w.clients[k].rx[HomeWs(w, id)]
  }

  predicate LocalAt(w: World, k: Cid, id: ConnId)
    requires k in w.clients
  {
    id in w.clients[k].locals ==> Homed(w, id) && w.clients[k].locals[id].home == HomeWs(w, id)
  }

  ghost predicate Downstream(w: World) {
    && (forall ws, id {:trigger OutOk(w, ws, id)} :: ws in w.wires ==> OutOk(w, ws, id))
    && (forall k, id {:trigger HeardAt(w, k, id)} :: k in w.clients ==> HeardAt(w, k, id))
    && (forall k, id {:trigger KnownAt(w, k, id)} :: k in w.clients ==> KnownAt(w, k, id))
    && (forall k, id {:trigger LocalAt(w, k, id)} :: k in w.clients ==> LocalAt(w, k, id))
  }

  // ---- From the client to the server ---------------------------------------------------

  /** The bytes of `id` that the handler has taken and not yet disposed of. */
  function InHand(h: Handler, id: ConnId): Bytes {
    match h
    case Took(frame) => if frame.Data? && frame.id == id then frame.data else []
    case Routed(_, frame) => if frame.Data? && frame.id == id then frame.data else []
    case Located(_, i, data) => if i == id then data else []
    case Writing(_, i, data) => if i == id then data else []
    case _ => []
  }

  /** No frame of this connection can be delivered any more. */
  predicate Dead(w: World, id: ConnId)
    requires Homed(w, id)
  {
    || P.Delisted(HomeProxy(w, id), id)
    || !HomeProxy(w, id).stop.Running?
    || !R.RoutedTo(w.registry, HomeWs(w, id), w.home[id])
  }

  /** `got` is what the handler took of the connection. */
  predicate UpRel(s: P.Socket, h: Handler, dropped: bool, id: ConnId, got: Bytes) {
    && s.written <= got
    && (!dropped && !s.broken ==> s.written + InHand(h, id) == got)
  }

  function Taken(w: World, ws: R.Ws): seq<Frame>
    requires ws in w.wires && WireOk(w, ws)
  {
    FromClient(w, ws)[..w.wires[ws].taken]
  }

  predicate UpOk(w: World, id: ConnId) {
    Homed(w, id) && WireOk(w, HomeWs(w, id)) ==>
      var wire := w.wires[HomeWs(w, id)];
      && UpRel(HomeSocket(w, id), wire.handler, id in wire.dropped, id, Payload(Only(Taken(w, HomeWs(w, id)), id)))
      && (id in wire.dropped ==> Dead(w, id))
  }

  predicate JustTook(w: World, ws: R.Ws, frame: Frame)
    requires ws in w.wires
  {
    0 < w.wires[ws].taken <= |FromClient(w, ws)| && FromClient(w, ws)[w.wires[ws].taken - 1] == frame
  }

  predicate RightProxy(w: World, ws: R.Ws, p: Pid) { p in w.proxies && w.proxies[p].ws == ws }

  /** What the handler may rely on at each point, whatever happened since it looked. */
  predicate HandlerOk(w: World, ws: R.Ws)
    requires ws in w.wires
  {
    var wire := w.wires[ws];
    match wire.handler
    case Took(frame) => JustTook(w, ws, frame)
    case Routed(p, frame) =>
      && RightProxy(w, ws, p) && (frame.Data? || frame.Close?) && JustTook(w, ws, frame)
      && (frame.id in w.home && w.home[frame.id] == p && frame.id in wire.dropped ==>
            P.Delisted(w.proxies[p], frame.id) || !w.proxies[p].stop.Running?)
      && (frame.id in w.home && w.home[frame.id] != p ==> !R.RoutedTo(w.registry, ws, w.home[frame.id]))
    case Located(p, id, _) =>
      RightProxy(w, ws, p) && id in w.proxies[p].sockets && (id in wire.dropped ==> !w.proxies[p].stop.Running?)
    case Writing(p, id, _) => RightProxy(w, ws, p) && id in w.proxies[p].sockets && id !in wire.dropped
    case _ => true
  }

  predicate DroppedOk(w: World, ws: R.Ws)
    requires ws in w.wires
  {
    w.wires[ws].dropped <= w.home.Keys
  }

  ghost predicate Upstream(w: World) {
    && (forall id :: UpOk(w, id))
    && (forall ws {:trigger HandlerOk(w, ws)} :: ws in w.wires ==> HandlerOk(w, ws))
    && (forall ws {:trigger DroppedOk(w, ws)} :: ws in w.wires ==> DroppedOk(w, ws))
  }

  ghost predicate Inv(w: World) { Shape(w) && Parts(w) && Downstream(w) && Upstream(w) }

  // ---- Nothing goes back ---------------------------------------------------------------

  /** A proxy that `ws` is not routed to stays that way. */
  ghost predicate NoNewRoutes(r: R.Registry, r': R.Registry) {
    r.proxyCount <= r'.proxyCount
    && forall ws: R.Ws, p: Pid :: p < r.proxyCount && R.RoutedTo(r', ws, p) ==> R.RoutedTo(r, ws, p)
  }

  ghost predicate Later(w: World, w': World) {
    && (forall p :: p in w.proxies ==> p in w'.proxies && P.Evolves(w.proxies[p], w'.proxies[p]))
    && (forall id :: id in w.home ==> id in w'.home && w'.home[id] == w.home[id])
    && (forall ws :: ws in w.wires ==> ws in w'.wires && w'.wires[ws].owner == w.wires[ws].owner)
    && NoNewRoutes(w.registry, w'.registry)
  }

  lemma HomedStays(w: World, w': World, id: ConnId)
    requires Later(w, w') && Homed(w, id)
    ensures Homed(w', id) && HomeWs(w', id) == HomeWs(w, id) && w'.home[id] == w.home[id]
    ensures P.Evolves(HomeProxy(w, id), HomeProxy(w', id))
  {
  }

  lemma DeadStays(w: World, w': World, id: ConnId)
    requires Later(w, w') && Homed(w, id) && Dead(w, id) && PidOk(w, w.home[id])
    ensures Homed(w', id) && Dead(w', id)
  {
    HomedStays(w, w', id);
  }

  lemma SameEvolves(p: P.Proxy)
    ensures P.Evolves(p, p)
  {
  }

  /** Whatever the client wrote about a connection, the connection was accepted before. */
  ghost predicate SpokenHomed(w: World, ws: R.Ws) {
    forall f :: f in FromClient(w, ws) && !f.Other? ==> f.id in w.home
  }

  lemma SpeaksOfHomed(w: World, ws: R.Ws)
    requires ws in w.wires && w.wires[ws].owner in w.clients && C.SpeaksOf(w.clients[w.wires[ws].owner])
    requires forall id :: HeardAt(w, w.wires[ws].owner, id)
    ensures SpokenHomed(w, ws)
  {
    forall f | f in FromClient(w, ws) && !f.Other? ensures f.id in w.home {
      assert HeardAt(w, w.wires[ws].owner, f.id);
    }
  }

  lemma AllSpokenHomed(w: World)
    requires Inv(w)
    ensures forall v :: v in w.wires ==> SpokenHomed(w, v)
  {
    forall v | v in w.wires ensures SpokenHomed(w, v) {
      assert WireOk(w, v) && C.Inv(w.clients[w.wires[v].owner]);
      SpeaksOfHomed(w, v);
    }
  }

  /** A handler that did not move still has what it relies on. */
  lemma HandlerStays(w: World, w': World, ws: R.Ws)
    requires Later(w, w') && ws in w.wires && HandlerOk(w, ws) && SpokenHomed(w, ws)
    requires w'.wires[ws].handler == w.wires[ws].handler && w'.wires[ws].dropped == w.wires[ws].dropped
    requires w'.wires[ws].taken == w.wires[ws].taken && FromClient(w, ws) <= FromClient(w', ws)
    requires forall p {:trigger PidOk(w, p)} :: p in w.proxies ==> PidOk(w, p)
    requires forall id {:trigger Homed(w, id)} :: id in w.home ==> Homed(w, id)
    ensures HandlerOk(w', ws)
  {
    if w.wires[ws].handler.Routed? {
      var frame := w.wires[ws].handler.frame;
      assert frame in FromClient(w, ws);
      assert Homed(w, frame.id) && PidOk(w, w.home[frame.id]);
    }
  }

  /** What a client knows stays true while only others move. */
  lemma ClientSideStays(w: World, w': World, k: Cid, id: ConnId)
    requires Later(w, w') && k in w.clients && k in w'.clients && w'.clients[k] == w.clients[k]
    requires HeardAt(w, k, id) && KnownAt(w, k, id) && LocalAt(w, k, id)
    ensures HeardAt(w', k, id) && KnownAt(w', k, id) && LocalAt(w', k, id)
  {
    if Homed(w, id) { HomedStays(w, w', id); }
  }

  /** The stop lists play no part in this invariant. */
  lemma TasksDoNotMatter(w: World, tasks: map<TaskId, seq<Pid>>)
    requires Inv(w)
    ensures Inv(w.(tasks := tasks))
  {
    TasksAndShape(w, tasks);
    TasksAndTraffic(w, tasks);
  }

  lemma TasksAndShape(w: World, tasks: map<TaskId, seq<Pid>>)
    requires Shape(w)
    ensures Shape(w.(tasks := tasks))
  {
    var w' := w.(tasks := tasks);
    forall p | p in w'.proxies ensures PidOk(w', p) { assert PidOk(w, p); }
    forall port | port in w'.registry.proxies ensures RefOk(w', port) { assert RefOk(w, port); }
    forall ws | ws in w'.wires ensures WireOk(w', ws) { assert WireOk(w, ws); }
    forall k, ws | k in w'.clients ensures OwnerOk(w', k, ws) { assert OwnerOk(w, k, ws); }
    forall name | name in w'.registry.devices ensures DeviceWs(w', name) { assert DeviceWs(w, name); }
    forall id | id in w'.home ensures Homed(w', id) { assert Homed(w, id); }
    forall p, id | p in w'.proxies ensures SocketHome(w', p, id) { assert SocketHome(w, p, id); }
  }

  lemma TasksAndTraffic(w: World, tasks: map<TaskId, seq<Pid>>)
    requires Downstream(w) && Upstream(w)
    ensures Downstream(w.(tasks := tasks)) && Upstream(w.(tasks := tasks))
  {
    var w' := w.(tasks := tasks);
    forall ws | ws in w'.wires ensures HandlerOk(w', ws) && DroppedOk(w', ws) {
      assert HandlerOk(w, ws) && DroppedOk(w, ws);
    }
    forall ws, id | ws in w'.wires ensures OutOk(w', ws, id) { assert OutOk(w, ws, id); }
    forall k, id | k in w'.clients ensures HeardAt(w', k, id) && KnownAt(w', k, id) && LocalAt(w', k, id) {
      assert HeardAt(w, k, id) && KnownAt(w, k, id) && LocalAt(w, k, id);
    }
    forall id ensures UpOk(w', id) { assert UpOk(w, id); }
  }
}
