/** Administration, the sweeps and the stop lists keep the tunnel's invariant; so every step does. */
module TunnelAdmin {
  import opened Wrappers
  import opened Frames
  import opened Tunnel
  import opened TunnelInv
  import TP = TunnelProxy
  import TC = TunnelClient
  import TH = TunnelHandler
  import R = Registries
  import P = Proxies
  import C = Clients

  // ---- The registry moves on, everything else stays ------------------------------------

  lemma RegistryKeeps(w: World, r: R.Registry)
    requires Inv(w) && TH.RegistryMoves(w, r)
    ensures Inv(w.(registry := r))
  {
    var w' := w.(registry := r);
    SamePlaceLater(w, w');
    forall p | p in w'.proxies ensures PidOk(w', p) { assert PidOk(w, p); }
    forall port | port in r.proxies ensures RefOk(w', port) { assert RefOk(w, port); }
    forall ws | ws in w'.wires ensures WireOk(w', ws) { assert WireOk(w, ws); }
    forall k, ws | k in w'.clients ensures OwnerOk(w', k, ws) { assert OwnerOk(w, k, ws); }
    forall name | name in r.devices ensures DeviceWs(w', name) {}
    forall id | id in w'.home ensures Homed(w', id) { assert Homed(w, id); }
    forall p, id | p in w'.proxies ensures SocketHome(w', p, id) { assert SocketHome(w, p, id); }
    StillDownstream(w, w');
    StillUpstream(w, w');
  }

  lemma SamePlaceLater(w: World, w': World)
    requires w'.proxies == w.proxies && w'.home == w.home && w'.wires == w.wires && NoNewRoutes(w.registry, w'.registry)
    ensures Later(w, w')
  {
    forall p | p in w.proxies ensures P.Evolves(w.proxies[p], w.proxies[p]) { SameEvolves(w.proxies[p]); }
  }

  /** No frame was added, no handler moved; WebSockets may have gone down and proxies been added. */
  ghost predicate SameTraffic(w: World, w': World) {
    && Later(w, w') && w'.home == w.home && w'.clients == w.clients && w'.wires.Keys == w.wires.Keys
    && (forall p :: p in w.proxies ==> w'.proxies[p] == w.proxies[p])
    && (forall ws :: ws in w.wires ==>
          && w'.wires[ws].out.log == w.wires[ws].out.log && (w.wires[ws].out.down ==> w'.wires[ws].out.down)
          && w'.wires[ws].owner == w.wires[ws].owner && w'.wires[ws].taken == w.wires[ws].taken
          && w'.wires[ws].handler == w.wires[ws].handler && w'.wires[ws].dropped == w.wires[ws].dropped)
  }

  lemma StillDownstream(w: World, w': World)
    requires Downstream(w) && SameTraffic(w, w')
    requires forall id {:trigger Homed(w, id)} :: id in w.home ==> Homed(w, id)
    ensures Downstream(w')
  {
    forall ws, id | ws in w'.wires ensures OutOk(w', ws, id) {
      assert OutOk(w, ws, id);
      if id in w.home { assert Homed(w, id); HomedStays(w, w', id); }
    }
    forall k, id | k in w'.clients ensures HeardAt(w', k, id) && KnownAt(w', k, id) && LocalAt(w', k, id) {
      assert HeardAt(w, k, id) && KnownAt(w, k, id) && LocalAt(w, k, id);
      ClientSideStays(w, w', k, id);
    }
  }

  lemma StillUpstream(w: World, w': World)
    requires Inv(w) && SameTraffic(w, w')
    ensures Upstream(w')
  {
    AllSpokenHomed(w);
    forall ws | ws in w'.wires ensures HandlerOk(w', ws) && DroppedOk(w', ws) {
      assert HandlerOk(w, ws) && DroppedOk(w, ws);
      StillHandler(w, w', ws);
    }
    forall id ensures UpOk(w', id) {
      assert UpOk(w, id);
      if id in w.home {
        assert Homed(w, id) && PidOk(w, w.home[id]) && WireOk(w, HomeWs(w, id));
        StillUp(w, w', id);
      }
    }
  }

  lemma StillHandler(w: World, w': World, ws: R.Ws)
    requires Shape(w) && SameTraffic(w, w') && ws in w.wires && HandlerOk(w, ws) && SpokenHomed(w, ws)
    ensures HandlerOk(w', ws)
  {
    forall p | p in w.proxies ensures PidOk(w, p) {}
    forall id | id in w.home ensures Homed(w, id) {}
    HandlerStays(w, w', ws);
  }

  lemma StillUp(w: World, w': World, id: ConnId)
    requires SameTraffic(w, w') && Homed(w, id) && PidOk(w, w.home[id]) && UpOk(w, id) && WireOk(w, HomeWs(w, id))
    ensures UpOk(w', id)
  {
    var ws := HomeWs(w, id);
    HomedStays(w, w', id);
    assert Taken(w', ws) == Taken(w, ws);
    if id in w.wires[ws].dropped { DeadStays(w, w', id); }
  }

  lemma RemovalMoves(w: World, e: R.Event)
    requires Inv(w) && !e.EEnable? && !e.ERegister?
    ensures TH.RegistryMoves(w, R.Next(w.registry, e))
  {
    forall name | name in w.registry.devices ensures w.registry.devices[name].ws in w.wires {
      assert DeviceWs(w, name);
    }
    TH.EventMoves(w, e);
  }

  // ---- Enabling a device starts a proxy ------------------------------------------------

  lemma EnableKeeps(w: World, name: string, duration: R.Time, now: R.Time, task: TaskId)
    requires Inv(w) && R.Enable(w.registry, name, duration, now, true).1 == R.Done
    ensures Inv(DoAdmin(w, Enable(name, duration, now, true), task))
  {
    var w' := DoAdmin(w, Enable(name, duration, now, true), task);
    var device := w.registry.devices[name];
    EnableStarts(w, name, duration, now, task);
    EnableParts(w, w', device);
    EnableShape(w, w', device);
    EnableTraffic(w, w', device);
    StillDownstream(w, w');
    StillUpstream(w, w');
  }

  lemma EnableStarts(w: World, name: string, duration: R.Time, now: R.Time, task: TaskId)
    requires Shape(w) && R.Enable(w.registry, name, duration, now, true).1 == R.Done
    ensures Started(w, DoAdmin(w, Enable(name, duration, now, true), task), w.registry.devices[name])
  {
    R.EnableConsistent(w.registry, name, duration, now, true);
    TH.EventRoutes(w.registry, R.EEnable(name, duration, now, true));
    assert DeviceWs(w, name);
    forall p | p in w.proxies ensures p < w.registry.proxyCount { assert PidOk(w, p); }
  }

  /** The world before and after `device` got a proxy. */
  ghost predicate Started(w: World, w': World, device: R.Device) {
    && device.ws in w.wires
    && w.registry.proxyCount !in w.proxies && R.Consistent(w'.registry) && NoNewRoutes(w.registry, w'.registry)
    && w'.proxies == w.proxies[w.registry.proxyCount := P.NewProxy(device.id, device.ws, device.port, w.maxConns)]
    && w'.registry.proxyCount == w.registry.proxyCount + 1
    && w'.registry.proxies ==
        w.registry.proxies[device.port := R.ProxyRef(w.registry.proxyCount, device.port, device.id, device.ws)]
    && w'.registry.devices.Keys == w.registry.devices.Keys
    && (forall n :: n in w.registry.devices ==> w'.registry.devices[n].ws == w.registry.devices[n].ws)
    && w'.wires == w.wires && w'.clients == w.clients && w'.home == w.home
  }

  lemma EnableShape(w: World, w': World, device: R.Device)
    requires Shape(w) && Started(w, w', device)
    ensures Shape(w')
  {
    EnableProxies(w, w', device);
    forall ws | ws in w'.wires ensures WireOk(w', ws) { assert WireOk(w, ws); }
    forall k, ws | k in w'.clients ensures OwnerOk(w', k, ws) { assert OwnerOk(w, k, ws); }
    forall n | n in w'.registry.devices ensures DeviceWs(w', n) { assert DeviceWs(w, n); }
  }

  lemma EnableParts(w: World, w': World, device: R.Device)
    requires Parts(w) && Started(w, w', device)
    ensures Parts(w')
  {
    P.NewInv(device.id, device.ws, device.port, w.maxConns);
    forall p | p in w'.proxies ensures P.Inv(w'.proxies[p]) { if p in w.proxies { assert P.Inv(w.proxies[p]); } }
    forall k | k in w'.clients ensures C.Inv(w'.clients[k]) { assert C.Inv(w.clients[k]); }
  }

  lemma EnableTraffic(w: World, w': World, device: R.Device)
    requires Started(w, w', device)
    ensures SameTraffic(w, w')
  {
    forall p | p in w.proxies ensures P.Evolves(w.proxies[p], w.proxies[p]) { SameEvolves(w.proxies[p]); }
  }

  lemma EnableProxies(w: World, w': World, device: R.Device)
    requires Started(w, w', device)
    requires forall p {:trigger PidOk(w, p)} :: p in w.proxies ==> PidOk(w, p)
    requires forall port {:trigger RefOk(w, port)} :: port in w.registry.proxies ==> RefOk(w, port)
    requires forall id {:trigger Homed(w, id)} :: id in w.home ==> Homed(w, id)
    requires forall p, id {:trigger SocketHome(w, p, id)} :: p in w.proxies ==> SocketHome(w, p, id)
    ensures forall p {:trigger PidOk(w', p)} :: p in w'.proxies ==> PidOk(w', p)
    ensures forall port {:trigger RefOk(w', port)} :: port in w'.registry.proxies ==> RefOk(w', port)
    ensures forall id {:trigger Homed(w', id)} :: id in w'.home ==> Homed(w', id)
    ensures forall p, id {:trigger SocketHome(w', p, id)} :: p in w'.proxies ==> SocketHome(w', p, id)
  {
    forall p | p in w'.proxies ensures PidOk(w', p) { if p in w.proxies { assert PidOk(w, p); } }
    forall port | port in w'.registry.proxies ensures RefOk(w', port) {
      if port != device.port {
        assert RefOk(w, port);
      }
    }
    forall id | id in w'.home ensures Homed(w', id) { assert Homed(w, id); }
    forall p, id | p in w'.proxies ensures SocketHome(w', p, id) { if p in w.proxies { assert SocketHome(w, p, id); } }
  }

  // ---- The heartbeat sweep closes WebSockets -------------------------------------------

  lemma CheckKeeps(w: World, now: R.Time, timeout: R.Time, task: TaskId)
    requires Inv(w)
    ensures Inv(DoAdmin(w, CheckHeartbeats(now, timeout), task))
  {
    CheckTraffic(w, now, timeout, task);
    CheckShape(w, now, timeout, task);
    StillDownstream(w, DoAdmin(w, CheckHeartbeats(now, timeout), task));
    StillUpstream(w, DoAdmin(w, CheckHeartbeats(now, timeout), task));
  }

  lemma CheckShape(w: World, now: R.Time, timeout: R.Time, task: TaskId)
    requires Shape(w)
    ensures Shape(DoAdmin(w, CheckHeartbeats(now, timeout), task))
  {
    var w' := DoAdmin(w, CheckHeartbeats(now, timeout), task);
    forall p | p in w'.proxies ensures PidOk(w', p) { assert PidOk(w, p); }
    forall port | port in w'.registry.proxies ensures RefOk(w', port) { assert RefOk(w, port); }
    forall ws | ws in w'.wires ensures WireOk(w', ws) { assert WireOk(w, ws); }
    forall k, ws | k in w'.clients ensures OwnerOk(w', k, ws) { assert OwnerOk(w, k, ws); }
    forall name | name in w'.registry.devices ensures DeviceWs(w', name) { assert DeviceWs(w, name); }
    forall id | id in w'.home ensures Homed(w', id) { assert Homed(w, id); }
    forall p, id | p in w'.proxies ensures SocketHome(w', p, id) { assert SocketHome(w, p, id); }
  }

  lemma CheckTraffic(w: World, now: R.Time, timeout: R.Time, task: TaskId)
    ensures SameTraffic(w, DoAdmin(w, CheckHeartbeats(now, timeout), task))
  {
    forall p | p in w.proxies ensures P.Evolves(w.proxies[p], w.proxies[p]) { SameEvolves(w.proxies[p]); }
  }

  // ---- Any step ------------------------------------------------------------------------

  lemma AdminKeeps(w: World, a: Admin, task: TaskId)
    requires Inv(w) && CanAdmin(w, a, task)
    ensures Inv(DoAdmin(w, a, task))
  {
    match a
    case Enable(name, duration, now, bound) =>
      var outcome := R.Enable(w.registry, name, duration, now, bound).1;
      if outcome == R.Done { EnableKeeps(w, name, duration, now, task); }
      else { R.EnableConsistent(w.registry, name, duration, now, bound); }
    case Disable(name) =>
      RemovalMoves(w, R.EDisable(name));
      RegistryKeeps(w, R.Disable(w.registry, name).0);
      TasksDoNotMatter(w.(registry := R.Disable(w.registry, name).0), DoAdmin(w, a, task).tasks);
    case Sweep(now, order) =>
      RemovalMoves(w, R.ESweep(now));
      RegistryKeeps(w, R.Sweep(w.registry, now));
      TasksDoNotMatter(w.(registry := R.Sweep(w.registry, now)), DoAdmin(w, a, task).tasks);
    case CheckHeartbeats(now, timeout) => CheckKeeps(w, now, timeout, task);
  }

  lemma TaskKeeps(w: World, t: TaskId)
    requires Inv(w) && CanTask(w, t)
    ensures Inv(DoTask(w, t))
  {
    var p := w.tasks[t][0];
    if w.proxies[p].stop.Running? {
      assert P.Inv(w.proxies[p]);
      TP.ProxyFollows(w.proxies[p], P.StopFlag);
      TP.MovesAs(w, p, P.Do(w.proxies[p], P.StopFlag), None, None, false);
      assert PutProxy(w, p, P.Do(w.proxies[p], P.StopFlag), None, None, false) == DoTask(w, t);
    } else {
      TasksDoNotMatter(w, w.tasks[t := w.tasks[t][1..]]);
    }
  }

  lemma StepInv(w: World, s: Step)
    requires Inv(w) && Can(w, s)
    ensures Inv(Do(w, s))
  {
    match s
    case OfProxy(p, e, ok) => TP.ProxyKeeps(w, p, e, ok);
    case OfClient(k, e) => TC.ClientKeeps(w, k, e);
    case OfHandler(ws, h, task) => TH.HandlerKeeps(w, ws, h, task);
    case OfAdmin(a, task) => AdminKeeps(w, a, task);
    case OfTask(t) => TaskKeeps(w, t);
  }

  lemma InitialInv(w: World)
    requires Initial(w)
    ensures Inv(w)
  {
    R.NewConsistent(w.registry.pool.start, w.registry.pool.end);
    C.NewInv();
  }

  lemma {:induction false} RunInv(w: World, steps: seq<Step>)
    requires Inv(w) && Allowed(w, steps)
    ensures Inv(After(w, steps))
    decreases |steps|
  {
    if steps != [] {
      StepInv(w, steps[0]);
      RunInv(Do(w, steps[0]), steps[1..]);
    }
  }
}
