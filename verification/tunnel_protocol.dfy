/**
 The protocol of the whole tunnel: each WebSocket carries one registration at most, so it has one
 device at most; nobody sends what the other side does not know; and a WebSocket whose handler
 has ended has no device left.
 */
module TunnelProtocol {
  import opened Wrappers
  import opened Frames
  import opened Tunnel
  import opened TunnelInv
  import opened TunnelOrigins
  import TA = TunnelAdmin
  import TP = TunnelPlaces
  import TT = TunnelTheorems
  import CS = ClientSessions
  import S = Sections
  import R = Registries
  import P = Proxies
  import C = Clients

  /** The handler has a registration in its hands. */
  predicate Registering(handler: Handler) {
    handler.Checked? || (handler.Took? && CS.IsRegister(handler.frame))
  }

  /** How many of the client's frames are dealt with, as far as registrations go. */
  function Settled(wire: Wire): int { if Registering(wire.handler) then wire.taken - 1 else wire.taken }

  ghost predicate RegisteredBefore(w: World, ws: R.Ws)
    requires ws in w.wires
  {
    exists i :: 0 <= i < Settled(w.wires[ws]) && i < |FromClient(w, ws)| && CS.IsRegister(FromClient(w, ws)[i])
  }

  /** A device is the one of its WebSocket, where its registration came. */
  ghost predicate OwnWs(w: World, name: string)
    requires name in w.registry.devices
  {
    var ws := w.registry.devices[name].ws;
    ws in w.wires && ws in w.registry.conns && w.registry.conns[ws] == name && RegisteredBefore(w, ws)
  }

  predicate HandlerSays(w: World, ws: R.Ws)
    requires ws in w.wires
  {
    match w.wires[ws].handler
    case Checked(_) =>
      && 0 < w.wires[ws].taken <= |FromClient(w, ws)|
      && CS.IsRegister(FromClient(w, ws)[w.wires[ws].taken - 1])
    case Replying(reply) => CS.ServerSays(Other(reply))
    case Leaving => ws !in w.registry.conns
    case Gone => ws !in w.registry.conns && w.wires[ws].out.down
    case _ => true
  }

  ghost predicate LogSays(w: World, ws: R.Ws)
    requires ws in w.wires
  {
    forall f :: f in w.wires[ws].out.log ==> CS.ServerSays(f)
  }

  ghost predicate Speaks(w: World) {
    && (forall k {:trigger CS.Talks(w.clients[k])} :: k in w.clients ==> CS.Talks(w.clients[k]))
    && (forall ws {:trigger HandlerSays(w, ws)} :: ws in w.wires ==> HandlerSays(w, ws))
    && (forall ws {:trigger LogSays(w, ws)} :: ws in w.wires ==> LogSays(w, ws))
    && (forall name {:trigger OwnWs(w, name)} :: name in w.registry.devices ==> OwnWs(w, name))
  }

  // ---- What carries over ---------------------------------------------------------------

  /** Nothing about the registrations of `ws` is undone. */
  predicate SettledGrows(w: World, w': World, ws: R.Ws) {
    ws in w.wires ==> ws in w'.wires && Settled(w.wires[ws]) <= Settled(w'.wires[ws])
  }

  lemma BeforeStays(w: World, w': World, ws: R.Ws)
    requires ws in w.wires && RegisteredBefore(w, ws) && GrownAt(w, w', ws) && SettledGrows(w, w', ws)
    ensures RegisteredBefore(w', ws)
  {
    var i :| 0 <= i < Settled(w.wires[ws]) && i < |FromClient(w, ws)| && CS.IsRegister(FromClient(w, ws)[i]);
    assert FromClient(w', ws)[i] == FromClient(w, ws)[i];
  }

  lemma OwnWsStays(w: World, w': World, name: string)
    requires name in w.registry.devices && OwnWs(w, name) && name in w'.registry.devices
    requires var ws := w.registry.devices[name].ws;
      && w'.registry.devices[name].ws == ws && ws in w'.registry.conns && w'.registry.conns[ws] == name
      && GrownAt(w, w', ws) && SettledGrows(w, w', ws)
    ensures OwnWs(w', name)
  {
    BeforeStays(w, w', w.registry.devices[name].ws);
  }

  /** The handler of `ws` did not move, and no device came or went on its WebSocket. */
  lemma HandlerSaysStays(w: World, w': World, ws: R.Ws)
    requires ws in w.wires && HandlerSays(w, ws) && GrownAt(w, w', ws)
    requires w'.wires[ws].handler == w.wires[ws].handler && w'.wires[ws].taken == w.wires[ws].taken
    requires w.wires[ws].out.down ==> w'.wires[ws].out.down
    requires ws in w'.registry.conns ==> ws in w.registry.conns || w.wires[ws].handler.Checked?
    ensures HandlerSays(w', ws)
  {
  }

  /** The devices and their WebSockets are as they were. */
  ghost predicate SameDevices(w: World, w': World) { SameIn(w.registry, w'.registry) }

  ghost predicate SameIn(r: R.Registry, r': R.Registry) {
    && r'.conns == r.conns && r'.devices.Keys == r.devices.Keys
    && forall name :: name in r.devices ==> r'.devices[name].ws == r.devices[name].ws
  }

  /** A step that leaves the handlers and the devices where they are. */
  lemma SpeaksCarry(w: World, w': World)
    requires Speaks(w) && Grown(w, w') && SameDevices(w, w')
    requires forall k {:trigger CS.Talks(w'.clients[k])} :: k in w'.clients ==> CS.Talks(w'.clients[k])
    requires forall ws {:trigger LogSays(w', ws)} :: ws in w'.wires ==> LogSays(w', ws)
    requires forall ws :: ws in w.wires ==>
               && ws in w'.wires && w'.wires[ws].handler == w.wires[ws].handler
               && w'.wires[ws].taken == w.wires[ws].taken
               && (w.wires[ws].out.down ==> w'.wires[ws].out.down)
    requires forall ws :: ws in w'.wires && ws !in w.wires ==> w'.wires[ws].handler == Idle
    ensures Speaks(w')
  {
    forall ws | ws in w'.wires ensures HandlerSays(w', ws) {
      if ws in w.wires {
        assert HandlerSays(w, ws) && GrownAt(w, w', ws);
        HandlerSaysStays(w, w', ws);
      }
    }
    forall name | name in w'.registry.devices ensures OwnWs(w', name) {
      assert OwnWs(w, name) && GrownAt(w, w', w.registry.devices[name].ws);
      OwnWsStays(w, w', name);
    }
  }

  // ---- The steps -----------------------------------------------------------------------

  lemma LogOnProxy(w: World, p: Pid, e: P.Event, ok: bool, ws: R.Ws)
    requires CanProxy(w, p, e, ok) && ws in w.wires && LogSays(w, ws)
    ensures var w' := DoProxy(w, p, e, ok);
      && ws in w'.wires && LogSays(w', ws) && w'.wires[ws].handler == w.wires[ws].handler
      && w'.wires[ws].taken == w.wires[ws].taken && w'.wires.Keys == w.wires.Keys
      && (w.wires[ws].out.down ==> w'.wires[ws].out.down)
  {
    var sent := P.Sends(w.proxies[p], e);
    if sent.Some? && ok && w.proxies[p].ws == ws { AppendSays(w.wires[w.proxies[p].ws].out, sent.value); }
  }

  lemma AppendSays(out: C.Outgoing, frame: Frame)
    requires CS.ServerSays(frame) && forall f :: f in out.log ==> CS.ServerSays(f)
    ensures forall f :: f in (out.log + [frame]) ==> CS.ServerSays(f)
  {
  }

  lemma SpeaksOnProxy(w: World, p: Pid, e: P.Event, ok: bool)
    requires Inv(w) && Speaks(w) && CanProxy(w, p, e, ok)
    ensures Speaks(DoProxy(w, p, e, ok))
  {
    var w' := DoProxy(w, p, e, ok);
    forall ws ensures GrownAt(w, w', ws) { if ws in w.wires { assert WireOk(w, ws); } }
    forall ws | ws in w.wires
      ensures ws in w'.wires && LogSays(w', ws) && w'.wires[ws].handler == w.wires[ws].handler
      ensures w'.wires[ws].taken == w.wires[ws].taken && w'.wires.Keys == w.wires.Keys
      ensures w.wires[ws].out.down ==> w'.wires[ws].out.down
    {
      assert LogSays(w, ws);
      LogOnProxy(w, p, e, ok, ws);
    }
    assert w.proxies[p].ws in w.wires;
    SpeaksCarry(w, w');
  }

  lemma SpeaksOnClient(w: World, k: Cid, e: C.Event)
    requires Inv(w) && Speaks(w) && CanClient(w, k, e)
    ensures Speaks(DoClient(w, k, e))
  {
    var w' := DoClient(w, k, e);
    assert C.Inv(w.clients[k]) && CS.Talks(w.clients[k]);
    CS.StepTalks(w.clients[k], e);
    forall ws ensures GrownAt(w, w', ws) { if ws in w.wires { assert WireOk(w, ws); ClientGrows(w, k, e, ws); } }
    forall c | c in w'.clients ensures CS.Talks(w'.clients[c]) { if c != k { assert CS.Talks(w.clients[c]); } }
    forall ws | ws in w'.wires ensures LogSays(w', ws) { if ws in w.wires { assert LogSays(w, ws); } }
    SpeaksCarry(w, w');
  }

  lemma SpeaksOnTask(w: World, t: TaskId)
    requires Inv(w) && Speaks(w) && CanTask(w, t)
    ensures Speaks(DoTask(w, t))
  {
    var w' := DoTask(w, t);
    forall ws ensures GrownAt(w, w', ws) { if ws in w.wires { assert WireOk(w, ws); } }
    forall ws | ws in w'.wires ensures LogSays(w', ws) { assert LogSays(w, ws); }
    forall k | k in w'.clients ensures CS.Talks(w'.clients[k]) { assert CS.Talks(w.clients[k]); }
    SpeaksCarry(w, w');
  }

  lemma AdminDevices(w: World, a: Admin, task: TaskId)
    requires R.Consistent(w.registry)
    ensures SameDevices(w, DoAdmin(w, a, task))
  {
    match a
    case Enable(name, duration, now, bound) => EnableSame(w.registry, name, duration, now, bound);
    case Disable(name) => DisableSame(w.registry, name);
    case Sweep(now, _) => SweepSame(w.registry, now);
    case CheckHeartbeats(_, _) =>
  }

  lemma EnableSame(r: R.Registry, name: string, duration: R.Time, now: R.Time, bound: bool)
    requires R.Consistent(r)
    ensures SameIn(r, R.Enable(r, name, duration, now, bound).0)
  {
    S.EnableExactly(r, name, duration, now, bound);
  }

  lemma DisableSame(r: R.Registry, name: string)
    requires R.Consistent(r)
    ensures SameIn(r, R.Disable(r, name).0)
  {
    S.DisableExactly(r, name);
  }

  lemma SweepSame(r: R.Registry, now: R.Time)
    ensures SameIn(r, R.Sweep(r, now))
  {
  }

  lemma AdminWires(w: World, a: Admin, task: TaskId, ws: R.Ws)
    requires ws in w.wires
    ensures var w' := DoAdmin(w, a, task);
      && ws in w'.wires && w'.wires[ws].out.log == w.wires[ws].out.log
      && (w.wires[ws].out.down ==> w'.wires[ws].out.down)
  {
  }

  lemma SpeaksOnAdmin(w: World, a: Admin, task: TaskId)
    requires Inv(w) && Speaks(w) && CanAdmin(w, a, task)
    ensures Speaks(DoAdmin(w, a, task))
  {
    var w' := DoAdmin(w, a, task);
    TP.AdminLeaves(w, a, task);
    TT.ClientsStay(w, OfAdmin(a, task));
    AdminDevices(w, a, task);
    forall ws | ws in w.wires
      ensures w'.wires[ws].taken == w.wires[ws].taken && w'.wires[ws].out.log == w.wires[ws].out.log
      ensures w.wires[ws].out.down ==> w'.wires[ws].out.down
      ensures GrownAt(w, w', ws) && LogSays(w', ws)
    {
      assert WireOk(w, ws) && LogSays(w, ws);
      AdminTaken(w, a, task, ws);
      AdminWires(w, a, task, ws);
    }
    forall k | k in w'.clients ensures CS.Talks(w'.clients[k]) { assert CS.Talks(w.clients[k]); }
    SpeaksCarry(w, w');
  }

  // ---- The handler ---------------------------------------------------------------------

  /** What the handler itself says next, and that it forgets no registration. */
  lemma OwnHandlerSays(w: World, ws: R.Ws, h: Handling, task: TaskId)
    requires CanHandler(w, ws, h, task) && HandlerSays(w, ws) && HandlerOk(w, ws) && WireOk(w, ws)
    requires R.Consistent(w.registry)
    ensures ws in DoHandler(w, ws, h, task).wires && HandlerSays(DoHandler(w, ws, h, task), ws)
  {
    TT.ClientsStay(w, OfHandler(ws, h, task));
    OwnTaken(w, ws, h, task);
    if h.Fail? { S.DisconnectExactly(w.registry, ws); }
    match h
    case Leave => LeaveSays(w, ws, task);
    case _ =>
  }

  lemma LeaveSays(w: World, ws: R.Ws, task: TaskId)
    requires CanHandler(w, ws, Leave, task) && HandlerSays(w, ws)
    ensures HandlerSays(DoHandler(w, ws, Leave, task), ws)
  {
  }

  lemma OwnLogSays(w: World, ws: R.Ws, h: Handling, task: TaskId)
    requires CanHandler(w, ws, h, task) && HandlerSays(w, ws) && LogSays(w, ws)
    ensures ws in DoHandler(w, ws, h, task).wires && LogSays(DoHandler(w, ws, h, task), ws)
  {
    match h
    case Reply(ok) => if ok { AppendSays(w.wires[ws].out, Other(w.wires[ws].handler.reply)); }
    case _ =>
  }

  lemma OwnSettled(w: World, ws: R.Ws, h: Handling, task: TaskId)
    requires CanHandler(w, ws, h, task)
    ensures SettledGrows(w, DoHandler(w, ws, h, task), ws)
  {
  }

  /** Only insertion and disconnection touch the devices ... */
  lemma HandlerDevices(w: World, ws: R.Ws, h: Handling, task: TaskId)
    requires R.Consistent(w.registry) && CanHandler(w, ws, h, task) && !h.Insert? && !h.Fail?
    ensures SameDevices(w, DoHandler(w, ws, h, task))
  {
    if h.Beat? { BeatRegistry(w, ws, h.now, task); BeatSame(w.registry, w.wires[ws].handler.device, h.now); }
    else { RegistryStays(w, ws, h, task); }
  }

  lemma RegistryStays(w: World, ws: R.Ws, h: Handling, task: TaskId)
    requires CanHandler(w, ws, h, task) && !h.Insert? && !h.Fail? && !h.Beat?
    ensures DoHandler(w, ws, h, task).registry == w.registry
  {
  }

  lemma BeatRegistry(w: World, ws: R.Ws, now: R.Time, task: TaskId)
    requires CanHandler(w, ws, Beat(now), task)
    ensures DoHandler(w, ws, Beat(now), task).registry == R.Beat(w.registry, w.wires[ws].handler.device, now)
  {
  }

  lemma BeatSame(r: R.Registry, device: R.Device, now: R.Time)
    requires R.Consistent(r)
    ensures SameIn(r, R.Beat(r, device, now))
  {
    S.BeatExactly(r, device, now);
  }

  /** ... and only those of the handler's WebSocket. */
  lemma OtherConnsStay(w: World, ws: R.Ws, h: Handling, task: TaskId, v: R.Ws)
    requires R.Consistent(w.registry) && CanHandler(w, ws, h, task) && v != ws
    ensures v in DoHandler(w, ws, h, task).registry.conns <==> v in w.registry.conns
  {
    match h
    case Insert(now) => InsertConns(w.registry, ws, w.wires[ws].handler.request, now, v);
    case Fail => FailConns(w.registry, ws, v);
    case _ => HandlerDevices(w, ws, h, task);
  }

  lemma InsertConns(r: R.Registry, ws: R.Ws, request: R.Request, now: R.Time, v: R.Ws)
    requires R.Consistent(r) && v != ws
    ensures v in R.Register(r, ws, request, now).0.conns <==> v in r.conns
  {
    S.RegisterExactly(r, ws, request, now);
  }

  lemma FailConns(r: R.Registry, ws: R.Ws, v: R.Ws)
    requires R.Consistent(r) && v != ws
    ensures v in R.Disconnect(r, ws).0.conns <==> v in r.conns
  {
    S.DisconnectExactly(r, ws);
  }

  /** A handler that has dealt with a registration is not about to insert another. */
  lemma NotChecked(w: World, ws: R.Ws)
    requires ws in w.wires && RegisteredBefore(w, ws) && HandlerSays(w, ws) && CS.AtMostOnce(FromClient(w, ws))
    ensures !w.wires[ws].handler.Checked?
  {
    var i :| 0 <= i < Settled(w.wires[ws]) && i < |FromClient(w, ws)| && CS.IsRegister(FromClient(w, ws)[i]);
  }

  /** So one that is about to insert has no device yet. */
  lemma NoDeviceYet(w: World, ws: R.Ws, name: string)
    requires Inv(w) && Speaks(w) && ws in w.wires && w.wires[ws].handler.Checked? && name in w.registry.devices
    ensures w.registry.devices[name].ws != ws
  {
    var v := w.registry.devices[name].ws;
    assert OwnWs(w, name) && HandlerSays(w, v) && WireOk(w, v);
    assert CS.Talks(w.clients[w.wires[v].owner]) && CS.LogTalks(w.clients[w.wires[v].owner], v);
    NotChecked(w, v);
  }

  lemma OwnWsOnInsert(w: World, ws: R.Ws, now: R.Time, task: TaskId, name: string)
    requires Inv(w) && Speaks(w) && CanHandler(w, ws, Insert(now), task)
    requires name in DoHandler(w, ws, Insert(now), task).registry.devices
    requires Grown(w, DoHandler(w, ws, Insert(now), task))
    ensures OwnWs(DoHandler(w, ws, Insert(now), task), name)
  {
    var w' := DoHandler(w, ws, Insert(now), task);
    S.RegisterExactly(w.registry, ws, w.wires[ws].handler.request, now);
    OwnSettled(w, ws, Insert(now), task);
    if name in w.registry.devices {
      NoDeviceYet(w, ws, name);
      var v := w.registry.devices[name].ws;
      assert OwnWs(w, name) && GrownAt(w, w', v);
      TP.OtherWiresStay(w, ws, Insert(now), task, v);
      OwnWsStays(w, w', name);
    } else {
      assert HandlerSays(w, ws);
      InsertIsBehind(w, ws, now, task);
    }
  }

  /** The registration that was just entered is dealt with. */
  lemma InsertIsBehind(w: World, ws: R.Ws, now: R.Time, task: TaskId)
    requires CanHandler(w, ws, Insert(now), task) && HandlerSays(w, ws)
    ensures ws in DoHandler(w, ws, Insert(now), task).wires
    ensures RegisteredBefore(DoHandler(w, ws, Insert(now), task), ws)
  {
    var w' := DoHandler(w, ws, Insert(now), task);
    var last := w.wires[ws].taken - 1;
    assert FromClient(w', ws) == FromClient(w, ws);
    assert CS.IsRegister(FromClient(w', ws)[last]) && last < Settled(w'.wires[ws]);
  }

  lemma OwnWsOnFail(w: World, ws: R.Ws, task: TaskId, name: string)
    requires Inv(w) && Speaks(w) && CanHandler(w, ws, Fail, task)
    requires name in DoHandler(w, ws, Fail, task).registry.devices
    requires Grown(w, DoHandler(w, ws, Fail, task))
    ensures OwnWs(DoHandler(w, ws, Fail, task), name)
  {
    var w' := DoHandler(w, ws, Fail, task);
    S.DisconnectExactly(w.registry, ws);
    assert name in w.registry.devices && OwnWs(w, name);
    var v := w.registry.devices[name].ws;
    assert GrownAt(w, w', v) && R.DeviceOk(w.registry, name);
    TP.OtherWiresStay(w, ws, Fail, task, v);
    OwnSettled(w, ws, Fail, task);
    OwnWsStays(w, w', name);
  }

  lemma OwnWsOnHandler(w: World, ws: R.Ws, h: Handling, task: TaskId, name: string)
    requires Inv(w) && Speaks(w) && CanHandler(w, ws, h, task) && Grown(w, DoHandler(w, ws, h, task))
    requires name in DoHandler(w, ws, h, task).registry.devices
    ensures OwnWs(DoHandler(w, ws, h, task), name)
  {
    if h.Insert? { OwnWsOnInsert(w, ws, h.now, task, name); }
    else if h.Fail? { OwnWsOnFail(w, ws, task, name); }
    else {
      HandlerDevices(w, ws, h, task);
      OwnSettled(w, ws, h, task);
      var v := w.registry.devices[name].ws;
      assert OwnWs(w, name) && GrownAt(w, DoHandler(w, ws, h, task), v);
      if v != ws { TP.OtherWiresStay(w, ws, h, task, v); }
      OwnWsStays(w, DoHandler(w, ws, h, task), name);
    }
  }

  lemma HandlerSaysOnHandler(w: World, ws: R.Ws, h: Handling, task: TaskId, v: R.Ws)
    requires Inv(w) && Speaks(w) && CanHandler(w, ws, h, task) && v in w.wires
    requires GrownAt(w, DoHandler(w, ws, h, task), v)
    ensures HandlerSays(DoHandler(w, ws, h, task), v) && LogSays(DoHandler(w, ws, h, task), v)
  {
    assert HandlerSays(w, v) && LogSays(w, v) && HandlerOk(w, v) && WireOk(w, v);
    if v == ws {
      OwnHandlerSays(w, ws, h, task);
      OwnLogSays(w, ws, h, task);
    } else {
      TP.OtherWiresStay(w, ws, h, task, v);
      OtherConnsStay(w, ws, h, task, v);
      HandlerSaysStays(w, DoHandler(w, ws, h, task), v);
    }
  }

  lemma SpeaksOnHandler(w: World, ws: R.Ws, h: Handling, task: TaskId)
    requires Inv(w) && Speaks(w) && CanHandler(w, ws, h, task)
    ensures Speaks(DoHandler(w, ws, h, task))
  {
    var w' := DoHandler(w, ws, h, task);
    TP.HandlerLeaves(w, ws, h, task);
    TT.ClientsStay(w, OfHandler(ws, h, task));
    forall v ensures GrownAt(w, w', v) { if v in w.wires { assert WireOk(w, v); HandlerGrows(w, ws, h, task, v); } }
    forall v | v in w'.wires ensures HandlerSays(w', v) && LogSays(w', v) {
      assert GrownAt(w, w', v);
      HandlerSaysOnHandler(w, ws, h, task, v);
    }
    forall name | name in w'.registry.devices ensures OwnWs(w', name) { OwnWsOnHandler(w, ws, h, task, name); }
    forall k | k in w'.clients ensures CS.Talks(w'.clients[k]) { assert CS.Talks(w.clients[k]); }
  }

  lemma StepSpeaks(w: World, s: Step)
    requires Inv(w) && Speaks(w) && Can(w, s)
    ensures Speaks(Do(w, s))
  {
    match s
    case OfProxy(p, e, ok) => SpeaksOnProxy(w, p, e, ok);
    case OfClient(k, e) => SpeaksOnClient(w, k, e);
    case OfHandler(ws, h, task) => SpeaksOnHandler(w, ws, h, task);
    case OfAdmin(a, task) => SpeaksOnAdmin(w, a, task);
    case OfTask(t) => SpeaksOnTask(w, t);
  }

  lemma {:induction false} RunSpeaks(w: World, steps: seq<Step>)
    requires Inv(w) && Speaks(w) && Allowed(w, steps)
    ensures Inv(After(w, steps)) && Speaks(After(w, steps))
    decreases |steps|
  {
    if steps != [] {
      TA.StepInv(w, steps[0]);
      StepSpeaks(w, steps[0]);
      RunSpeaks(Do(w, steps[0]), steps[1..]);
    }
  }

  lemma ReachableSpeaks(w: World)
    requires TT.Reachable(w)
    ensures Inv(w) && Speaks(w)
  {
    var start, steps :| Initial(start) && Allowed(start, steps) && w == After(start, steps);
    TA.InitialInv(start);
    forall k | k in start.clients ensures CS.Talks(start.clients[k]) { CS.NewTalks(); }
    RunSpeaks(start, steps);
  }

  // ---- The promises --------------------------------------------------------------------

  /** In every reachable state a device is the only one of its WebSocket, and is found there. */
  lemma OneDevicePerWebSocket(w: World, name: string, other: string)
    requires TT.Reachable(w) && name in w.registry.devices && other in w.registry.devices
    ensures var ws := w.registry.devices[name].ws; ws in w.registry.conns && w.registry.conns[ws] == name
    ensures w.registry.devices[name].ws == w.registry.devices[other].ws ==> name == other
  {
    ReachableSpeaks(w);
    assert OwnWs(w, name) && OwnWs(w, other);
  }

  lemma HandlerSpeaks(w: World, ws: R.Ws)
    requires TT.Reachable(w) && ws in w.wires
    ensures HandlerSays(w, ws)
  {
    ReachableSpeaks(w);
  }

  /** A WebSocket whose handler has seen the read fail has no device, and in the end is closed. */
  lemma ClosedMeansUnregistered(w: World, ws: R.Ws)
    requires TT.Reachable(w) && ws in w.wires && (w.wires[ws].handler.Leaving? || w.wires[ws].handler.Gone?)
    ensures forall name :: name in w.registry.devices ==> w.registry.devices[name].ws != ws
    ensures w.wires[ws].handler.Gone? ==> w.wires[ws].out.down
  {
    HandlerSpeaks(w, ws);
    forall name | name in w.registry.devices ensures w.registry.devices[name].ws != ws {
      OneDevicePerWebSocket(w, name, name);
    }
  }

  /** No message is ever skipped: the server takes what it handles, and so do the clients. */
  lemma NothingSkipped(w: World, ws: R.Ws, task: TaskId)
    requires TT.Reachable(w) && ws in w.wires
    ensures !CanHandler(w, ws, Skip, task)
    ensures forall f :: f in FromClient(w, ws) ==> CS.ClientSays(f)
    ensures forall f :: f in w.wires[ws].out.log ==> CS.ServerSays(f)
  {
    ReachableSpeaks(w);
    assert WireOk(w, ws) && HandlerOk(w, ws) && LogSays(w, ws);
    assert CS.Talks(w.clients[w.wires[ws].owner]) && CS.LogTalks(w.clients[w.wires[ws].owner], ws);
    TakenIsSaid(w, ws);
  }

  lemma TakenIsSaid(w: World, ws: R.Ws)
    requires ws in w.wires && HandlerOk(w, ws) && forall f :: f in FromClient(w, ws) ==> CS.ClientSays(f)
    ensures w.wires[ws].handler.Took? ==> CS.ClientSays(w.wires[ws].handler.frame)
  {
    if w.wires[ws].handler.Took? {
      assert FromClient(w, ws)[w.wires[ws].taken - 1] == w.wires[ws].handler.frame;
    }
  }

  /**
   A client serves a session only after `assigned` was the first thing it received there, whatever
   it receives earlier ends the session; and it stops for good only when it was told to.
   */
  lemma AssignedFirst(w: World, c: Cid, ws: R.Ws)
    requires TT.Reachable(w) && c in w.clients
    ensures var k := w.clients[c];
      && (CS.InSession(k.main) ==>
            k.session.Some? && k.session.value in k.rx && |k.rx[k.session.value]| > 0
            && CS.IsAssigned(k.rx[k.session.value][0]))
      && (ws in k.rx && |k.rx[ws]| > 1 ==> CS.IsAssigned(k.rx[ws][0]))
      && (k.main.Over? ==> k.stopping)
  {
    ReachableSpeaks(w);
    assert CS.Talks(w.clients[c]) && CS.RxGreeted(w.clients[c], ws);
  }
}
