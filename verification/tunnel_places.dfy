/**
 No proxy is lost and no port has two listeners. Proxies leave the registry under the server
 lock and are stopped later, outside it (server.go:378-383, 546-551, 586-591); in between the
 port may be released, allocated again and enabled again.
 */
module TunnelPlaces {
  import opened Wrappers
  import opened Frames
  import opened Tunnel
  import opened TunnelInv
  import R = Registries
  import P = Proxies
  import C = Clients
  import TA = TunnelAdmin
  import D = Deadlines

  predicate InRegistry(w: World, p: Pid)
    requires p in w.proxies
  {
    var port := w.proxies[p].port;
    port in w.registry.proxies && w.registry.proxies[port].id == p
  }

  predicate InList(w: World, t: TaskId, p: Pid) { t in w.tasks && p in w.tasks[t] }

  /**
   A proxy that is not stopped is in the registry, where it runs, or in a stop list; and it is
   never in two places.
   */
  ghost predicate PlaceOk(w: World, p: Pid)
    requires p in w.proxies
  {
    && (InRegistry(w, p) ==> w.proxies[p].stop.Running?)
    && (InRegistry(w, p) || w.proxies[p].StopDone() || exists t :: InList(w, t, p))
    && (forall t :: InList(w, t, p) ==> !InRegistry(w, p))
    && (forall t, u :: InList(w, t, p) && InList(w, u, p) ==> t == u)
  }

  predicate ListOk(w: World, t: TaskId)
    requires t in w.tasks
  {
    && (forall p :: p in w.tasks[t] ==> p in w.proxies)
    && (forall i, j :: 0 <= i < j < |w.tasks[t]| ==> w.tasks[t][i] != w.tasks[t][j])
  }

  predicate OneListener(w: World, p: Pid, q: Pid)
    requires p in w.proxies && q in w.proxies
  {
    p != q && w.proxies[p].port == w.proxies[q].port ==> !(w.proxies[p].Bound() && w.proxies[q].Bound())
  }

  ghost predicate Places(w: World) {
    && (forall p {:trigger PlaceOk(w, p)} :: p in w.proxies ==> PlaceOk(w, p))
    && (forall t {:trigger ListOk(w, t)} :: t in w.tasks ==> ListOk(w, t))
    && (forall p, q {:trigger OneListener(w, p, q)} :: p in w.proxies && q in w.proxies ==> OneListener(w, p, q))
  }

  /**
   A handler that looked a proxy up for a connection it once dropped a frame of will find that
   connection closed.
   */
  predicate RoutedOk(w: World, ws: R.Ws)
    requires ws in w.wires
  {
    var wire := w.wires[ws];
    wire.handler.Routed? && wire.handler.frame.Close? && wire.handler.frame.id in wire.dropped
    && Homed(w, wire.handler.frame.id) && w.home[wire.handler.frame.id] == wire.handler.proxy ==>
      !HomeSocket(w, wire.handler.frame.id).open
  }

  /** The proxy a handler looked up and has not finished with. */
  function Target(h: Handler): Option<Pid> {
    match h
    case Routed(p, _) => Some(p)
    case Located(p, _, _) => Some(p)
    case Writing(p, _, _) => Some(p)
    case _ => None
  }

  /** From the lookup to the use, it is a proxy of the device registered on the handler's WebSocket. */
  predicate TargetOk(w: World, ws: R.Ws)
    requires ws in w.wires
  {
    var target := Target(w.wires[ws].handler);
    target.Some? ==>
      && target.value in w.proxies && R.Owner(w.registry, ws).Some?
      && R.Owner(w.registry, ws).value.id == w.proxies[target.value].device
  }

  ghost predicate Placed(w: World) {
    Places(w) && forall ws {:trigger RoutedOk(w, ws)} :: ws in w.wires ==> RoutedOk(w, ws)
  }

  ghost predicate Targets(w: World) { forall ws {:trigger TargetOk(w, ws)} :: ws in w.wires ==> TargetOk(w, ws) }

  ghost predicate Settled(w: World) { Placed(w) && Targets(w) }

  // ---- A proxy moves by itself ---------------------------------------------------------

  /** What a step may do to a proxy without `Stop` being called on it. */
  predicate Calm(p: P.Proxy, q: P.Proxy) {
    && q.port == p.port && q.device == p.device
    && (p.stop.Running? ==> q.stop.Running?) && (p.StopDone() ==> q.StopDone()) && (q.Bound() ==> p.Bound())
    && forall id :: id in p.sockets && !p.sockets[id].open ==> id in q.sockets && !q.sockets[id].open
  }

  lemma EventIsCalm(p: P.Proxy, e: P.Event)
    requires P.Can(p, e) && !e.StopFlag?
    ensures Calm(p, P.Do(p, e))
  {
    var q := P.Do(p, e);
    forall id | id in p.sockets && !p.sockets[id].open ensures id in q.sockets && !q.sockets[id].open {
      P.SocketStepEvolves(p, e, id);
    }
    if P.OfAcceptLoop(e) {} else if P.OfReadLoop(e) {} else if P.OfStop(e) {} else {}
  }

  ghost predicate AllCalm(w: World, w': World) {
    && w'.proxies.Keys == w.proxies.Keys
    && forall p :: p in w.proxies ==> Calm(w.proxies[p], w'.proxies[p])
  }

  lemma PlacesCarry(w: World, w': World)
    requires Places(w) && AllCalm(w, w') && w'.tasks == w.tasks && w'.registry.proxies == w.registry.proxies
    ensures Places(w')
  {
    forall p | p in w'.proxies ensures PlaceOk(w', p) {
      assert PlaceOk(w, p);
      if t :| InList(w, t, p) { assert InList(w', t, p); }
      forall t | InList(w', t, p) ensures InList(w, t, p) {}
    }
    forall t | t in w'.tasks ensures ListOk(w', t) { assert ListOk(w, t); }
    forall p, q | p in w'.proxies && q in w'.proxies ensures OneListener(w', p, q) { assert OneListener(w, p, q); }
  }

  /** A handler that did not just look a proxy up keeps what it knows. */
  lemma RoutedCarry(w: World, w': World, ws: R.Ws)
    requires ws in w.wires && ws in w'.wires && RoutedOk(w, ws)
    requires forall p :: p in w.proxies ==> p in w'.proxies && Calm(w.proxies[p], w'.proxies[p])
    requires forall id :: id in w.home ==> Homed(w, id) && id in w'.home && w'.home[id] == w.home[id]
    requires DroppedOk(w, ws)
    requires !w'.wires[ws].handler.Routed? ||
             (w'.wires[ws].handler == w.wires[ws].handler && w'.wires[ws].dropped == w.wires[ws].dropped)
    ensures RoutedOk(w', ws)
  {
  }

  // ---- Proxies are taken out of the registry -------------------------------------------

  /** `order` lists, in some order, exactly the proxies that left the registry. */
  ghost predicate TakenOut(w: World, w': World, task: TaskId, order: seq<Pid>) {
    && task !in w.tasks && w'.tasks == w.tasks[task := order] && w'.proxies == w.proxies
    && (forall p :: p in w.proxies && InRegistry(w', p) ==> InRegistry(w, p))
    && (forall p :: p in order <==> p in w.proxies && InRegistry(w, p) && !InRegistry(w', p))
    && forall i, j :: 0 <= i < j < |order| ==> order[i] != order[j]
  }

  lemma ListedStaysListed(w: World, w': World, task: TaskId, order: seq<Pid>, p: Pid)
    requires TakenOut(w, w', task, order) && p in w.proxies && PlaceOk(w, p)
    ensures PlaceOk(w', p)
  {
    forall t | InList(w', t, p) ensures if t == task then p in order else InList(w, t, p) {}
    if p in order { assert InList(w', task, p); }
    else if t :| InList(w, t, p) { assert InList(w', t, p); }
  }

  lemma PlacesAfterRemoval(w: World, w': World, task: TaskId, order: seq<Pid>)
    requires Places(w) && TakenOut(w, w', task, order)
    ensures Places(w')
  {
    forall p | p in w'.proxies ensures PlaceOk(w', p) {
      assert PlaceOk(w, p);
      ListedStaysListed(w, w', task, order, p);
    }
    forall t | t in w'.tasks ensures ListOk(w', t) { if t != task { assert ListOk(w, t); } }
    forall p, q | p in w'.proxies && q in w'.proxies ensures OneListener(w', p, q) { assert OneListener(w, p, q); }
  }

  /** A section that takes out at most the proxy on one port. */
  lemma RemovalOfOne(w: World, w': World, task: TaskId, port: int, proxy: Option<R.ProxyRef>)
    requires forall r {:trigger RefOk(w, r)} :: r in w.registry.proxies ==> RefOk(w, r)
    requires task !in w.tasks && w'.proxies == w.proxies
    requires w'.tasks == w.tasks[task := if proxy.Some? then [proxy.value.id] else []]
    requires w'.registry.proxies == w.registry.proxies - {port}
    requires proxy == if port in w.registry.proxies then Some(w.registry.proxies[port]) else None
    ensures exists order :: TakenOut(w, w', task, order)
  {
    if port in w.registry.proxies { assert RefOk(w, port); }
    assert TakenOut(w, w', task, if proxy.Some? then [proxy.value.id] else []);
  }

  lemma RemovalOfNone(w: World, w': World, task: TaskId)
    requires task !in w.tasks && w'.proxies == w.proxies && w'.tasks == w.tasks[task := []]
    requires w'.registry.proxies == w.registry.proxies
    ensures TakenOut(w, w', task, [])
  {
  }

  lemma RemovalBySweep(w: World, now: R.Time, order: seq<Pid>, task: TaskId)
    requires R.Consistent(w.registry) && task !in w.tasks && InOrder(w, now, order)
    requires forall r {:trigger RefOk(w, r)} :: r in w.registry.proxies ==> RefOk(w, r)
    ensures TakenOut(w, DoAdmin(w, Sweep(now, order), task), task, order)
  {
    var w' := DoAdmin(w, Sweep(now, order), task);
    D.SweepClearsExpired(w.registry, now);
    forall p ensures p in order <==> p in w.proxies && InRegistry(w, p) && !InRegistry(w', p) {
      if p in order {
        var ref :| ref in R.SweptProxies(w.registry, now) && ref.id == p;
        assert RefOk(w, ref.port);
      }
    }
  }

  // ---- A proxy is started --------------------------------------------------------------

  lemma PlacesAfterStart(w: World, w': World, p: Pid, q: P.Proxy, ref: R.ProxyRef)
    requires Places(w) && Shape(w) && p !in w.proxies && ref.id == p
    requires q.stop.Running? && PortUnbound(w, q.port) && q.port !in w.registry.proxies
    requires w'.proxies == w.proxies[p := q] && w'.tasks == w.tasks
    requires w'.registry.proxies == w.registry.proxies[q.port := ref]
    ensures Places(w')
  {
    forall r | r in w'.proxies ensures PlaceOk(w', r) {
      forall t | InList(w', t, r) ensures InList(w, t, r) && r in w.proxies { assert ListOk(w, t); }
      if r in w.proxies {
        assert PlaceOk(w, r);
        if t :| InList(w, t, r) { assert InList(w', t, r); }
      }
    }
    forall t | t in w'.tasks ensures ListOk(w', t) { assert ListOk(w, t); }
    forall r, s | r in w'.proxies && s in w'.proxies ensures OneListener(w', r, s) {
      if r in w.proxies && s in w.proxies { assert OneListener(w, r, s); }
    }
  }

  // ---- The stop lists are worked off ---------------------------------------------------

  lemma PlacesAfterFlag(w: World, t: TaskId)
    requires Places(w) && CanTask(w, t) && w.proxies[w.tasks[t][0]].stop.Running?
    ensures Places(DoTask(w, t))
  {
    var p := w.tasks[t][0];
    var w' := DoTask(w, t);
    forall r | r in w'.proxies ensures PlaceOk(w', r) {
      assert PlaceOk(w, r);
      if r == p { assert InList(w, t, p) && InList(w', t, p); }
      if u :| InList(w, u, r) { assert InList(w', u, r); }
      forall u | InList(w', u, r) ensures InList(w, u, r) {}
    }
    forall u | u in w'.tasks ensures ListOk(w', u) { assert ListOk(w, u); }
    forall r, s | r in w'.proxies && s in w'.proxies ensures OneListener(w', r, s) { assert OneListener(w, r, s); }
  }

  lemma PlacesAfterPop(w: World, t: TaskId)
    requires Places(w) && CanTask(w, t) && !w.proxies[w.tasks[t][0]].stop.Running?
    ensures Places(DoTask(w, t))
  {
    var p := w.tasks[t][0];
    var w' := DoTask(w, t);
    assert ListOk(w, t) && w.tasks[t] == [p] + w'.tasks[t];
    forall r | r in w'.proxies ensures PlaceOk(w', r) {
      assert PlaceOk(w, r);
      forall u | InList(w', u, r) ensures InList(w, u, r) {}
      if r != p { if u :| InList(w, u, r) { assert InList(w', u, r); } }
    }
    forall u | u in w'.tasks ensures ListOk(w', u) { assert ListOk(w, u); }
    forall r, s | r in w'.proxies && s in w'.proxies ensures OneListener(w', r, s) { assert OneListener(w, r, s); }
  }

  // ---- Every step ----------------------------------------------------------------------

  lemma PlacedCarry(w: World, w': World)
    requires Inv(w) && Placed(w) && Places(w') && w'.home == w.home
    requires forall p :: p in w.proxies ==> p in w'.proxies && Calm(w.proxies[p], w'.proxies[p])
    requires w'.wires.Keys == w.wires.Keys
    requires forall ws :: ws in w.wires ==>
               w'.wires[ws].handler == w.wires[ws].handler && w'.wires[ws].dropped == w.wires[ws].dropped
    ensures Placed(w')
  {
    forall ws | ws in w'.wires ensures RoutedOk(w', ws) {
      assert RoutedOk(w, ws) && DroppedOk(w, ws);
      forall id | id in w.home ensures Homed(w, id) {}
      RoutedCarry(w, w', ws);
    }
  }

  lemma PlacedOnProxy(w: World, p: Pid, e: P.Event, ok: bool)
    requires Inv(w) && Placed(w) && CanProxy(w, p, e, ok)
    ensures Placed(DoProxy(w, p, e, ok))
  {
    var w' := DoProxy(w, p, e, ok);
    CallIsCalm(w, p, e);
    PlacesCarry(w, w');
    ProxyLeaves(w, p, e, ok);
    forall ws | ws in w'.wires ensures RoutedOk(w', ws) {
      assert RoutedOk(w, ws) && DroppedOk(w, ws);
      forall id | id in w.home ensures Homed(w, id) {}
      RoutedCarry(w, w', ws);
    }
  }

  lemma ProxyLeaves(w: World, p: Pid, e: P.Event, ok: bool)
    requires CanProxy(w, p, e, ok)
    ensures var w' := DoProxy(w, p, e, ok);
      && (forall id :: id in w.home ==> id in w'.home && w'.home[id] == w.home[id])
      && w'.wires.Keys == w.wires.Keys
      && forall ws :: ws in w.wires ==>
           w'.wires[ws].handler == w.wires[ws].handler && w'.wires[ws].dropped == w.wires[ws].dropped
  {
  }

  lemma PlacedOnClient(w: World, k: Cid, e: C.Event)
    requires Inv(w) && Placed(w) && CanClient(w, k, e)
    ensures Placed(DoClient(w, k, e))
  {
    var w' := DoClient(w, k, e);
    PlacesCarry(w, w');
    forall ws | ws in w'.wires ensures RoutedOk(w', ws) {
      if ws in w.wires {
        assert RoutedOk(w, ws) && DroppedOk(w, ws);
        forall id | id in w.home ensures Homed(w, id) {}
        RoutedCarry(w, w', ws);
      }
    }
  }

  // ---- The message handlers ------------------------------------------------------------

  lemma HandlerLeaves(w: World, ws: R.Ws, h: Handling, task: TaskId)
    requires CanHandler(w, ws, h, task)
    ensures var w' := DoHandler(w, ws, h, task);
      && w'.home == w.home && w'.wires.Keys == w.wires.Keys
      && (!h.CloseConn? && !h.Write? ==> w'.proxies == w.proxies)
  {
    if h.Fail? || h.Take? || h.Check? || h.Insert? || h.Reply? {} else {}
  }

  lemma OtherWiresStay(w: World, ws: R.Ws, h: Handling, task: TaskId, v: R.Ws)
    requires CanHandler(w, ws, h, task) && v in w.wires && v != ws
    ensures v in DoHandler(w, ws, h, task).wires && DoHandler(w, ws, h, task).wires[v] == w.wires[v]
  {
  }

  lemma HandlerIsCalm(w: World, ws: R.Ws, h: Handling, task: TaskId)
    requires CanHandler(w, ws, h, task)
    ensures AllCalm(w, DoHandler(w, ws, h, task))
  {
    HandlerLeaves(w, ws, h, task);
    if h.CloseConn? {
      CallIsCalm(w, w.wires[ws].handler.proxy, P.CloseConn(w.wires[ws].handler.frame.id));
    } else if h.Write? {
      CallIsCalm(w, w.wires[ws].handler.proxy, P.Write(w.wires[ws].handler.id, w.wires[ws].handler.data, h.n, h.ok));
    } else {
      SameIsCalm(w);
    }
  }

  lemma CallIsCalm(w: World, p: Pid, e: P.Event)
    requires p in w.proxies && P.Can(w.proxies[p], e) && !e.StopFlag?
    ensures forall r :: r in w.proxies ==> Calm(w.proxies[r], w.proxies[p := P.Do(w.proxies[p], e)][r])
  {
    EventIsCalm(w.proxies[p], e);
    SameIsCalm(w);
  }

  lemma SameIsCalm(w: World)
    ensures forall r :: r in w.proxies ==> Calm(w.proxies[r], w.proxies[r])
  {
  }

  /** Only a handler that leaves takes proxies out. */
  lemma HandlerEffect(w: World, ws: R.Ws, h: Handling, task: TaskId)
    requires CanHandler(w, ws, h, task)
    ensures !h.Fail? ==> DoHandler(w, ws, h, task).tasks == w.tasks &&
                         DoHandler(w, ws, h, task).registry.proxies == w.registry.proxies
  {
  }

  lemma OnlyLookupsRoute(w: World, ws: R.Ws, h: Handling, task: TaskId)
    requires CanHandler(w, ws, h, task)
    ensures ws in DoHandler(w, ws, h, task).wires
    ensures DoHandler(w, ws, h, task).wires[ws].handler.Routed? ==> h.Route?
  {
  }

  lemma PlacesOnHandler(w: World, ws: R.Ws, h: Handling, task: TaskId)
    requires Inv(w) && Places(w) && CanHandler(w, ws, h, task)
    ensures Places(DoHandler(w, ws, h, task))
  {
    var w' := DoHandler(w, ws, h, task);
    HandlerIsCalm(w, ws, h, task);
    HandlerLeaves(w, ws, h, task);
    HandlerEffect(w, ws, h, task);
    if h.Fail? {
      LeavingTakesOut(w, ws, task);
      var order :| TakenOut(w, w', task, order);
      PlacesAfterRemoval(w, w', task, order);
    } else {
      PlacesCarry(w, w');
    }
  }

  lemma LeavingTakesOut(w: World, ws: R.Ws, task: TaskId)
    requires CanHandler(w, ws, Fail, task)
    requires forall r {:trigger RefOk(w, r)} :: r in w.registry.proxies ==> RefOk(w, r)
    ensures exists order :: TakenOut(w, DoHandler(w, ws, Fail, task), task, order)
  {
    var w' := DoHandler(w, ws, Fail, task);
    var owner := R.Owner(w.registry, ws);
    if owner.Some? {
      RemovalOfOne(w, w', task, owner.value.port, R.Disconnect(w.registry, ws).1);
    } else {
      RemovalOfNone(w, w', task);
    }
  }

  /**
   A frame is looked up for a proxy in the registry, which runs; so if a frame of its
   connection was dropped before, that connection has left the map, and is closed.
   */
  lemma RoutedFresh(w: World, ws: R.Ws)
    requires Inv(w) && Places(w) && CanHandler(w, ws, Route, 0)
    ensures RoutedOk(DoHandler(w, ws, Route, 0), ws)
  {
    var w' := DoHandler(w, ws, Route, 0);
    var id := w.wires[ws].handler.frame.id;
    var target := R.Route(w.registry, ws);
    if target.Some? && id in w.wires[ws].dropped && Homed(w, id) && w.home[id] == target.value.id {
      R.RouteStaysHome(w.registry, ws);
      RouteTarget(w, ws);
      var p := w.home[id];
      assert PlaceOk(w, p) && UpOk(w, id) && WireOk(w, HomeWs(w, id)) && HandlerOk(w, ws);
      assert P.Inv(w.proxies[p]) && P.SocketOk(w.proxies[p], id);
      assert R.RoutedTo(w.registry, ws, p);
      DeadIsClosed(w, id);
    }
  }

  /** While its proxy runs and is routed to, a connection is dead only because it is closed. */
  lemma DeadIsClosed(w: World, id: ConnId)
    requires Homed(w, id) && Dead(w, id) && HomeProxy(w, id).stop.Running?
    requires R.RoutedTo(w.registry, HomeWs(w, id), w.home[id]) && P.SocketOk(HomeProxy(w, id), id)
    ensures !HomeSocket(w, id).open
  {
  }

  lemma RouteTarget(w: World, ws: R.Ws)
    requires R.Consistent(w.registry) && R.Route(w.registry, ws).Some?
    requires forall r {:trigger RefOk(w, r)} :: r in w.registry.proxies ==> RefOk(w, r)
    ensures var p := R.Route(w.registry, ws).value.id; p in w.proxies && InRegistry(w, p) && w.proxies[p].ws == ws
  {
    R.RouteStaysHome(w.registry, ws);
    var port := R.Owner(w.registry, ws).value.port;
    assert RefOk(w, port);
  }

  lemma PlacedOnHandler(w: World, ws: R.Ws, h: Handling, task: TaskId)
    requires Inv(w) && Placed(w) && CanHandler(w, ws, h, task)
    ensures Placed(DoHandler(w, ws, h, task))
  {
    var w' := DoHandler(w, ws, h, task);
    PlacesOnHandler(w, ws, h, task);
    HandlerIsCalm(w, ws, h, task);
    HandlerLeaves(w, ws, h, task);
    OnlyLookupsRoute(w, ws, h, task);
    forall v | v in w'.wires ensures RoutedOk(w', v) {
      if v == ws && h.Route? {
        RoutedFresh(w, ws);
      } else {
        assert RoutedOk(w, v) && DroppedOk(w, v);
        forall id | id in w.home ensures Homed(w, id) {}
        if v != ws { OtherWiresStay(w, ws, h, task, v); }
        RoutedCarry(w, w', v);
      }
    }
  }

  // ---- Administration ------------------------------------------------------------------

  lemma PlacesOnAdmin(w: World, a: Admin, task: TaskId)
    requires Inv(w) && Places(w) && CanAdmin(w, a, task)
    ensures Places(DoAdmin(w, a, task))
  {
    var w' := DoAdmin(w, a, task);
    match a
    case Enable(name, duration, now, bound) => PlacesOnEnable(w, name, duration, now, bound, task);
    case Disable(name) =>
      DisablingTakesOut(w, name, task);
      var order :| TakenOut(w, w', task, order);
      PlacesAfterRemoval(w, w', task, order);
    case Sweep(now, order) =>
      RemovalBySweep(w, now, order, task);
      PlacesAfterRemoval(w, w', task, order);
    case CheckHeartbeats(now, timeout) => PlacesCarry(w, w');
  }

  lemma DisablingTakesOut(w: World, name: string, task: TaskId)
    requires task !in w.tasks
    requires forall r {:trigger RefOk(w, r)} :: r in w.registry.proxies ==> RefOk(w, r)
    ensures exists order :: TakenOut(w, DoAdmin(w, Disable(name), task), task, order)
  {
    var w' := DoAdmin(w, Disable(name), task);
    var (_, outcome, proxy) := R.Disable(w.registry, name);
    if outcome == R.Done { RemovalOfOne(w, w', task, w.registry.devices[name].port, proxy); }
    else { RemovalOfNone(w, w', task); }
  }

  lemma PlacesOnEnable(w: World, name: string, duration: R.Time, now: R.Time, bound: bool, task: TaskId)
    requires Inv(w) && Places(w) && CanAdmin(w, Enable(name, duration, now, bound), task)
    ensures Places(DoAdmin(w, Enable(name, duration, now, bound), task))
  {
    var w' := DoAdmin(w, Enable(name, duration, now, bound), task);
    R.EnableConsistent(w.registry, name, duration, now, bound);
    if R.Enable(w.registry, name, duration, now, bound).1 == R.Done {
      var p, device := w.registry.proxyCount, w.registry.devices[name];
      forall r | r in w.proxies ensures r < p { assert PidOk(w, r); }
      PlacesAfterStart(w, w', p, P.NewProxy(device.id, device.ws, device.port, w.maxConns),
                       R.ProxyRef(p, device.port, device.id, device.ws));
    } else {
      assert w' == w;
    }
  }

  lemma PlacedOnAdmin(w: World, a: Admin, task: TaskId)
    requires Inv(w) && Placed(w) && CanAdmin(w, a, task)
    ensures Placed(DoAdmin(w, a, task))
  {
    var w' := DoAdmin(w, a, task);
    PlacesOnAdmin(w, a, task);
    AdminLeaves(w, a, task);
    forall p | p in w.proxies ensures p < w.registry.proxyCount { assert PidOk(w, p); }
    PlacedCarry(w, w');
  }

  lemma AdminLeaves(w: World, a: Admin, task: TaskId)
    ensures var w' := DoAdmin(w, a, task);
      && w'.home == w.home && w'.wires.Keys == w.wires.Keys
      && (forall ws :: ws in w.wires ==>
            w'.wires[ws].handler == w.wires[ws].handler && w'.wires[ws].dropped == w.wires[ws].dropped)
      && (forall p :: p in w.proxies && p != w.registry.proxyCount ==> p in w'.proxies && w'.proxies[p] == w.proxies[p])
  {
  }

  lemma PlacedOnTask(w: World, t: TaskId)
    requires Inv(w) && Placed(w) && CanTask(w, t)
    ensures Placed(DoTask(w, t))
  {
    var w' := DoTask(w, t);
    if w.proxies[w.tasks[t][0]].stop.Running? { PlacesAfterFlag(w, t); } else { PlacesAfterPop(w, t); }
    forall ws | ws in w'.wires ensures RoutedOk(w', ws) { assert RoutedOk(w, ws); }
  }

  lemma StepPlaced(w: World, s: Step)
    requires Inv(w) && Placed(w) && Can(w, s)
    ensures Placed(Do(w, s))
  {
    match s
    case OfProxy(p, e, ok) => PlacedOnProxy(w, p, e, ok);
    case OfClient(k, e) => PlacedOnClient(w, k, e);
    case OfHandler(ws, h, task) => PlacedOnHandler(w, ws, h, task);
    case OfAdmin(a, task) => PlacedOnAdmin(w, a, task);
    case OfTask(t) => PlacedOnTask(w, t);
  }

  // ---- From the lookup to the use ------------------------------------------------------

  /** The device of a connection changes only when its own handler registers or disconnects. */
  lemma OwnerStays(r: R.Registry, e: R.Event, ws: R.Ws)
    requires R.Consistent(r) && R.Owner(r, ws).Some?
    requires !(e.ERegister? && e.ws == ws) && !(e.EDisconnect? && e.ws == ws)
    ensures R.Owner(R.Next(r, e), ws).Some? && R.Owner(R.Next(r, e), ws).value.id == R.Owner(r, ws).value.id
  {
    assert R.ConnOk(r, ws) && R.DeviceOk(r, r.conns[ws]);
    match e
    case EDisconnect(v) => if v in r.conns { assert R.ConnOk(r, v) && R.DeviceOk(r, r.conns[v]); }
    case _ =>
  }

  /** The registry moves on by events that are not about `ws`, or stays. */
  ghost predicate RegistryStep(r: R.Registry, r': R.Registry, ws: R.Ws) {
    || r' == r
    || exists e :: r' == R.Next(r, e) && !(e.ERegister? && e.ws == ws) && !(e.EDisconnect? && e.ws == ws)
  }

  lemma TargetCarry(w: World, w': World, ws: R.Ws)
    requires R.Consistent(w.registry) && ws in w.wires && ws in w'.wires && TargetOk(w, ws)
    requires Target(w'.wires[ws].handler).Some? ==> Target(w'.wires[ws].handler) == Target(w.wires[ws].handler)
    requires forall p :: p in w.proxies ==> p in w'.proxies && w'.proxies[p].device == w.proxies[p].device
    requires Target(w'.wires[ws].handler).Some? ==> RegistryStep(w.registry, w'.registry, ws)
    ensures TargetOk(w', ws)
  {
    if Target(w'.wires[ws].handler).Some? && w'.registry != w.registry {
      var e :| w'.registry == R.Next(w.registry, e) && !(e.ERegister? && e.ws == ws) && !(e.EDisconnect? && e.ws == ws);
      OwnerStays(w.registry, e, ws);
    }
  }

  lemma TargetsOnProxy(w: World, p: Pid, e: P.Event, ok: bool)
    requires Inv(w) && Targets(w) && CanProxy(w, p, e, ok)
    ensures Targets(DoProxy(w, p, e, ok))
  {
    var w' := DoProxy(w, p, e, ok);
    CallIsCalm(w, p, e);
    ProxyLeaves(w, p, e, ok);
    forall ws | ws in w'.wires ensures TargetOk(w', ws) { assert TargetOk(w, ws); TargetCarry(w, w', ws); }
  }

  lemma TargetsOnClient(w: World, k: Cid, e: C.Event)
    requires Inv(w) && Targets(w) && CanClient(w, k, e)
    ensures Targets(DoClient(w, k, e))
  {
    var w' := DoClient(w, k, e);
    forall ws | ws in w'.wires ensures TargetOk(w', ws) {
      if ws in w.wires {
        assert TargetOk(w, ws);
        TargetCarry(w, w', ws);
      }
    }
  }

  /** What a handler does to the registry: one event of its own WebSocket, or nothing. */
  lemma HandlerRegistry(w: World, ws: R.Ws, h: Handling, task: TaskId, v: R.Ws)
    requires CanHandler(w, ws, h, task) && v != ws
    ensures RegistryStep(w.registry, DoHandler(w, ws, h, task).registry, v)
  {
    match h
    case Insert(now) =>
      assert DoHandler(w, ws, h, task).registry ==
        R.Next(w.registry, R.ERegister(ws, w.wires[ws].handler.request, now));
    case Fail => assert DoHandler(w, ws, h, task).registry == R.Next(w.registry, R.EDisconnect(ws));
    case Beat(now) =>
      assert DoHandler(w, ws, h, task).registry ==
        R.Next(w.registry, R.EBeat(w.wires[ws].handler.device, now));
    case _ =>
  }

  lemma OwnTarget(w: World, ws: R.Ws, h: Handling, task: TaskId)
    requires CanHandler(w, ws, h, task) && !h.Route?
    ensures var w' := DoHandler(w, ws, h, task);
      && ws in w'.wires
      && (Target(w'.wires[ws].handler).Some? ==>
            Target(w'.wires[ws].handler) == Target(w.wires[ws].handler) && w'.registry == w.registry)
  {
  }

  lemma TargetFresh(w: World, ws: R.Ws)
    requires Inv(w) && CanHandler(w, ws, Route, 0)
    ensures TargetOk(DoHandler(w, ws, Route, 0), ws)
  {
    if R.Route(w.registry, ws).Some? {
      R.RouteStaysHome(w.registry, ws);
      assert RefOk(w, R.Owner(w.registry, ws).value.port);
    }
  }

  lemma TargetsOnHandler(w: World, ws: R.Ws, h: Handling, task: TaskId)
    requires Inv(w) && Targets(w) && CanHandler(w, ws, h, task)
    ensures Targets(DoHandler(w, ws, h, task))
  {
    var w' := DoHandler(w, ws, h, task);
    HandlerIsCalm(w, ws, h, task);
    HandlerLeaves(w, ws, h, task);
    forall v | v in w'.wires ensures TargetOk(w', v) {
      assert TargetOk(w, v);
      if v != ws {
        OtherWiresStay(w, ws, h, task, v);
        HandlerRegistry(w, ws, h, task, v);
        TargetCarry(w, w', v);
      } else if h.Route? {
        TargetFresh(w, ws);
      } else {
        OwnTarget(w, ws, h, task);
        TargetCarry(w, w', v);
      }
    }
  }

  lemma AdminRegistry(w: World, a: Admin, task: TaskId, ws: R.Ws)
    ensures RegistryStep(w.registry, DoAdmin(w, a, task).registry, ws)
  {
    match a
    case Enable(name, duration, now, bound) =>
      assert DoAdmin(w, a, task).registry == R.Next(w.registry, R.EEnable(name, duration, now, bound));
    case Disable(name) => assert DoAdmin(w, a, task).registry == R.Next(w.registry, R.EDisable(name));
    case Sweep(now, _) => assert DoAdmin(w, a, task).registry == R.Next(w.registry, R.ESweep(now));
    case CheckHeartbeats(_, _) =>
  }

  lemma TargetsOnAdmin(w: World, a: Admin, task: TaskId)
    requires Inv(w) && Targets(w) && CanAdmin(w, a, task)
    ensures Targets(DoAdmin(w, a, task))
  {
    var w' := DoAdmin(w, a, task);
    AdminLeaves(w, a, task);
    forall p | p in w.proxies ensures p < w.registry.proxyCount { assert PidOk(w, p); }
    forall ws | ws in w'.wires ensures TargetOk(w', ws) {
      assert TargetOk(w, ws);
      AdminRegistry(w, a, task, ws);
      TargetCarry(w, w', ws);
    }
  }

  lemma TargetsOnTask(w: World, t: TaskId)
    requires Inv(w) && Targets(w) && CanTask(w, t)
    ensures Targets(DoTask(w, t))
  {
    var w' := DoTask(w, t);
    forall ws | ws in w'.wires ensures TargetOk(w', ws) { assert TargetOk(w, ws); TargetCarry(w, w', ws); }
  }

  lemma StepTargets(w: World, s: Step)
    requires Inv(w) && Targets(w) && Can(w, s)
    ensures Targets(Do(w, s))
  {
    match s
    case OfProxy(p, e, ok) => TargetsOnProxy(w, p, e, ok);
    case OfClient(k, e) => TargetsOnClient(w, k, e);
    case OfHandler(ws, h, task) => TargetsOnHandler(w, ws, h, task);
    case OfAdmin(a, task) => TargetsOnAdmin(w, a, task);
    case OfTask(t) => TargetsOnTask(w, t);
  }

  lemma StepSettled(w: World, s: Step)
    requires Inv(w) && Settled(w) && Can(w, s)
    ensures Settled(Do(w, s))
  {
    StepPlaced(w, s);
    StepTargets(w, s);
  }

  lemma {:induction false} RunSettled(w: World, steps: seq<Step>)
    requires Inv(w) && Settled(w) && Allowed(w, steps)
    ensures Inv(After(w, steps)) && Settled(After(w, steps))
    decreases |steps|
  {
    if steps != [] {
      TA.StepInv(w, steps[0]);
      StepSettled(w, steps[0]);
      RunSettled(Do(w, steps[0]), steps[1..]);
    }
  }

  lemma ReachableSettled(w: World, steps: seq<Step>)
    requires Initial(w) && Allowed(w, steps)
    ensures Inv(After(w, steps)) && Settled(After(w, steps))
  {
    TA.InitialInv(w);
    RunSettled(w, steps);
  }
}
