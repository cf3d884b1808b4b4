/**
 Where devices and limits come from: every registered device stems from a register message with
 the right token, a name and a port, and every proxy has the limit that was configured.
 */
module TunnelOrigins {
  import opened Wrappers
  import opened Frames
  import opened Sections
  import opened Tunnel
  import opened TunnelInv
  import TA = TunnelAdmin
  import TC = TunnelClient
  import TP = TunnelPlaces
  import TT = TunnelTheorems
  import R = Registries
  import P = Proxies
  import PS = ProxyStop
  import C = Clients

  /** The frames the handler has taken off a WebSocket, as far as they are known to have been written. */
  function TakenFrames(w: World, ws: R.Ws): seq<Frame>
    requires ws in w.wires
  {
    if w.wires[ws].taken <= |FromClient(w, ws)| then FromClient(w, ws)[..w.wires[ws].taken] else []
  }

  /** A register message for this request, with the right token, was taken off `ws`; and it is complete. */
  predicate Stems(w: World, ws: R.Ws, request: R.Request) {
    && ws in w.wires && Other(Register(request, true)) in TakenFrames(w, ws)
    && request.name != "" && request.localPort > 0
  }

  /** So it is for a handler that has passed the checks ... */
  predicate CheckedOk(w: World, ws: R.Ws)
    requires ws in w.wires
  {
    w.wires[ws].handler.Checked? ==> Stems(w, ws, w.wires[ws].handler.request)
  }

  /** ... and for a registered device. */
  predicate DeviceStems(w: World, name: string)
    requires name in w.registry.devices
  {
    Stems(w, w.registry.devices[name].ws, RequestOf(w.registry.devices[name]))
  }

  predicate LimitOk(w: World, p: Pid)
    requires p in w.proxies
  {
    w.proxies[p].maxConns == PS.Limit(w.maxConns)
  }

  ghost predicate Origins(w: World) {
    && (forall ws {:trigger CheckedOk(w, ws)} :: ws in w.wires ==> CheckedOk(w, ws))
    && (forall name {:trigger DeviceStems(w, name)} :: name in w.registry.devices ==> DeviceStems(w, name))
    && (forall p {:trigger LimitOk(w, p)} :: p in w.proxies ==> LimitOk(w, p))
  }

  // ---- What was taken stays taken ------------------------------------------------------

  predicate GrownAt(w: World, w': World, ws: R.Ws) {
    ws in w.wires ==>
      && ws in w'.wires && w.wires[ws].taken <= w'.wires[ws].taken <= |FromClient(w', ws)|
      && FromClient(w, ws) <= FromClient(w', ws)
  }

  lemma StemsStay(w: World, w': World, ws: R.Ws, request: R.Request)
    requires Stems(w, ws, request) && GrownAt(w, w', ws)
    ensures Stems(w', ws, request)
  {
    assert TakenFrames(w, ws) <= TakenFrames(w', ws);
  }

  ghost predicate Grown(w: World, w': World) { forall ws {:trigger GrownAt(w, w', ws)} :: GrownAt(w, w', ws) }

  /** A new record stems from the request that was just entered, an old one from what it did. */
  predicate RecordOk(w: World, w': World, name: string)
    requires name in w'.registry.devices
  {
    RecordIn(w, w'.registry.devices[name], name)
  }

  predicate RecordIn(w: World, d': R.Device, name: string) {
    || (name in w.registry.devices && RequestOf(d') == RequestOf(w.registry.devices[name])
        && d'.ws == w.registry.devices[name].ws)
    || Stems(w, d'.ws, RequestOf(d'))
  }

  lemma OriginsCarry(w: World, w': World)
    requires Origins(w) && Grown(w, w') && w'.maxConns == w.maxConns
    requires forall ws :: ws in w'.wires && w'.wires[ws].handler.Checked? ==>
               && ws in w.wires
               && (w'.wires[ws].handler == w.wires[ws].handler || Stems(w, ws, w'.wires[ws].handler.request))
    requires forall name {:trigger RecordOk(w, w', name)} :: name in w'.registry.devices ==> RecordOk(w, w', name)
    requires forall p :: p in w'.proxies ==>
               if p in w.proxies then w'.proxies[p].maxConns == w.proxies[p].maxConns
               else w'.proxies[p].maxConns == PS.Limit(w.maxConns)
    ensures Origins(w')
  {
    forall ws | ws in w'.wires ensures CheckedOk(w', ws) {
      if w'.wires[ws].handler.Checked? {
        assert CheckedOk(w, ws) && GrownAt(w, w', ws);
        StemsStay(w, w', ws, w'.wires[ws].handler.request);
      }
    }
    forall name | name in w'.registry.devices ensures DeviceStems(w', name) {
      assert RecordOk(w, w', name);
      var d' := w'.registry.devices[name];
      if name in w.registry.devices { assert DeviceStems(w, name); }
      assert GrownAt(w, w', d'.ws);
      StemsStay(w, w', d'.ws, RequestOf(d'));
    }
    forall p | p in w'.proxies ensures LimitOk(w', p) { if p in w.proxies { assert LimitOk(w, p); } }
  }

  // ---- The steps -----------------------------------------------------------------------

  lemma OriginsOnProxy(w: World, p: Pid, e: P.Event, ok: bool)
    requires Inv(w) && Origins(w) && CanProxy(w, p, e, ok)
    ensures Origins(DoProxy(w, p, e, ok))
  {
    var w' := DoProxy(w, p, e, ok);
    PS.StepKeepsLimit(w.proxies[p], e);
    forall ws ensures GrownAt(w, w', ws) { if ws in w.wires { assert WireOk(w, ws); } }
    forall name | name in w'.registry.devices ensures RecordOk(w, w', name) {}
    OriginsCarry(w, w');
  }

  lemma OriginsOnClient(w: World, k: Cid, e: C.Event)
    requires Inv(w) && Origins(w) && CanClient(w, k, e)
    ensures Origins(DoClient(w, k, e))
  {
    var w' := DoClient(w, k, e);
    forall ws ensures GrownAt(w, w', ws) { if ws in w.wires { assert WireOk(w, ws); ClientGrows(w, k, e, ws); } }
    forall name | name in w'.registry.devices ensures RecordOk(w, w', name) {}
    OriginsCarry(w, w');
  }

  lemma ClientGrows(w: World, k: Cid, e: C.Event, ws: R.Ws)
    requires Parts(w) && CanClient(w, k, e) && ws in w.wires && WireOk(w, ws)
    ensures GrownAt(w, DoClient(w, k, e), ws)
  {
    assert C.Inv(w.clients[k]);
    TC.ClientFollows(w.clients[k], e);
  }

  /** The check lets a handler pass exactly when token, name and port are right and the limit is not reached. */
  lemma PassesCheck(w: World, ws: R.Ws)
    requires CanHandler(w, ws, Check, 0)
    ensures var c := w.wires[ws].handler.frame.control; var w' := DoHandler(w, ws, Check, 0);
      && ws in w'.wires && w'.registry == w.registry
      && (w'.wires[ws].handler == Checked(c.request) <==>
            && c.authorised && |c.request.name| > 0 && c.request.localPort >= 1
            && (w.maxDevices <= 0 || |w.registry.devices| < w.maxDevices))
      && (w'.wires[ws].handler.Checked? || w'.wires[ws].handler == Replying(Error))
  {
    var c := w.wires[ws].handler.frame.control;
    RefusesExactly(w.registry, w.maxDevices, c.request, c.authorised);
  }

  lemma CheckedStems(w: World, ws: R.Ws)
    requires CanHandler(w, ws, Check, 0) && HandlerOk(w, ws)
    ensures var w' := DoHandler(w, ws, Check, 0);
            w'.wires[ws].handler.Checked? ==> Stems(w, ws, w'.wires[ws].handler.request)
  {
    PassesCheck(w, ws);
    var taken := w.wires[ws].taken;
    assert FromClient(w, ws)[taken - 1] == w.wires[ws].handler.frame;
    assert TakenFrames(w, ws)[taken - 1] == w.wires[ws].handler.frame;
  }

  /** The handler moves; its frames and those of others stay taken. */
  lemma HandlerGrows(w: World, ws: R.Ws, h: Handling, task: TaskId, v: R.Ws)
    requires CanHandler(w, ws, h, task) && v in w.wires && WireOk(w, v)
    ensures GrownAt(w, DoHandler(w, ws, h, task), v)
  {
    TT.ClientsStay(w, OfHandler(ws, h, task));
    OwnTaken(w, ws, h, task);
    if v != ws { TP.OtherWiresStay(w, ws, h, task, v); }
  }

  lemma OwnTaken(w: World, ws: R.Ws, h: Handling, task: TaskId)
    requires CanHandler(w, ws, h, task)
    ensures ws in DoHandler(w, ws, h, task).wires
    ensures var wire, wire' := w.wires[ws], DoHandler(w, ws, h, task).wires[ws];
            wire'.owner == wire.owner && wire'.taken == wire.taken + if h.Take? then 1 else 0
  {
  }

  lemma OnlyCheckPasses(w: World, ws: R.Ws, h: Handling, task: TaskId)
    requires CanHandler(w, ws, h, task)
    ensures ws in DoHandler(w, ws, h, task).wires
    ensures DoHandler(w, ws, h, task).wires[ws].handler.Checked? ==> h.Check?
  {
  }

  /** Only an insertion by a handler that has passed the checks adds a record. */
  lemma HandlerRecords(w: World, ws: R.Ws, h: Handling, task: TaskId, name: string)
    requires R.Consistent(w.registry) && CanHandler(w, ws, h, task) && CheckedOk(w, ws)
    requires name in DoHandler(w, ws, h, task).registry.devices
    ensures RecordOk(w, DoHandler(w, ws, h, task), name)
  {
    HandlerEvents(w, ws, h, task);
    if DoHandler(w, ws, h, task).registry != w.registry {
      var e :| DoHandler(w, ws, h, task).registry == R.Next(w.registry, e) && Entering(w.wires[ws].handler, ws, e);
      EventRecord(w, e, name);
    }
  }

  /** A handler only enters the request it has checked, for its own WebSocket. */
  predicate Entering(handler: Handler, ws: R.Ws, e: R.Event) {
    e.ERegister? ==> e.ws == ws && handler == Checked(e.request)
  }

  lemma HandlerEvents(w: World, ws: R.Ws, h: Handling, task: TaskId)
    requires CanHandler(w, ws, h, task)
    ensures || DoHandler(w, ws, h, task).registry == w.registry
            || exists e ::
                 DoHandler(w, ws, h, task).registry == R.Next(w.registry, e) && Entering(w.wires[ws].handler, ws, e)
  {
    match h
    case Insert(now) =>
      assert Entering(w.wires[ws].handler, ws, R.ERegister(ws, w.wires[ws].handler.request, now));
    case Fail => assert Entering(w.wires[ws].handler, ws, R.EDisconnect(ws));
    case Beat(now) => assert Entering(w.wires[ws].handler, ws, R.EBeat(w.wires[ws].handler.device, now));
    case _ =>
  }

  lemma EventRecord(w: World, e: R.Event, name: string)
    requires R.Consistent(w.registry) && (e.ERegister? ==> Stems(w, e.ws, e.request))
    requires name in R.Next(w.registry, e).devices
    ensures RecordIn(w, R.Next(w.registry, e).devices[name], name)
  {
    RecordsKept(w.registry, e, name);
  }

  lemma CallsKeepLimits(w: World, ws: R.Ws, h: Handling, task: TaskId)
    requires CanHandler(w, ws, h, task)
    ensures var w' := DoHandler(w, ws, h, task);
      && w'.maxConns == w.maxConns && w'.proxies.Keys == w.proxies.Keys
      && forall p :: p in w.proxies ==> w'.proxies[p].maxConns == w.proxies[p].maxConns
  {
    TP.HandlerLeaves(w, ws, h, task);
    if h.CloseConn? {
      PS.StepKeepsLimit(w.proxies[w.wires[ws].handler.proxy], P.CloseConn(w.wires[ws].handler.frame.id));
    } else if h.Write? {
      PS.StepKeepsLimit(w.proxies[w.wires[ws].handler.proxy],
                        P.Write(w.wires[ws].handler.id, w.wires[ws].handler.data, h.n, h.ok));
    }
  }

  lemma OriginsOnHandler(w: World, ws: R.Ws, h: Handling, task: TaskId)
    requires Inv(w) && Origins(w) && CanHandler(w, ws, h, task)
    ensures Origins(DoHandler(w, ws, h, task))
  {
    var w' := DoHandler(w, ws, h, task);
    assert HandlerOk(w, ws) && CheckedOk(w, ws);
    TP.HandlerLeaves(w, ws, h, task);
    CallsKeepLimits(w, ws, h, task);
    OnlyCheckPasses(w, ws, h, task);
    if h.Check? { CheckedStems(w, ws); }
    forall v ensures GrownAt(w, w', v) { if v in w.wires { assert WireOk(w, v); HandlerGrows(w, ws, h, task, v); } }
    forall v | v in w.wires && v != ws ensures w'.wires[v] == w.wires[v] { TP.OtherWiresStay(w, ws, h, task, v); }
    forall name | name in w'.registry.devices ensures RecordOk(w, w', name) { HandlerRecords(w, ws, h, task, name); }
    OriginsCarry(w, w');
  }

  lemma AdminRecords(w: World, a: Admin, task: TaskId, name: string)
    requires R.Consistent(w.registry) && name in DoAdmin(w, a, task).registry.devices
    ensures RecordOk(w, DoAdmin(w, a, task), name)
  {
    AdminEvents(w, a, task);
    if DoAdmin(w, a, task).registry != w.registry {
      var e :| DoAdmin(w, a, task).registry == R.Next(w.registry, e) && !e.ERegister?;
      EventRecord(w, e, name);
    }
  }

  lemma AdminEvents(w: World, a: Admin, task: TaskId)
    ensures || DoAdmin(w, a, task).registry == w.registry
            || exists e :: DoAdmin(w, a, task).registry == R.Next(w.registry, e) && !e.ERegister?
  {
    match a
    case Enable(name, duration, now, bound) =>
      assert DoAdmin(w, a, task).registry == R.Next(w.registry, R.EEnable(name, duration, now, bound));
    case Disable(name) => assert DoAdmin(w, a, task).registry == R.Next(w.registry, R.EDisable(name));
    case Sweep(now, _) => assert DoAdmin(w, a, task).registry == R.Next(w.registry, R.ESweep(now));
    case CheckHeartbeats(_, _) =>
  }

  lemma AdminTaken(w: World, a: Admin, task: TaskId, ws: R.Ws)
    requires ws in w.wires
    ensures ws in DoAdmin(w, a, task).wires
    ensures DoAdmin(w, a, task).wires[ws].taken == w.wires[ws].taken
    ensures DoAdmin(w, a, task).wires[ws].owner == w.wires[ws].owner
  {
  }

  /** A proxy that is started gets the configured limit. */
  lemma AdminLimits(w: World, a: Admin, task: TaskId, p: Pid)
    requires p in DoAdmin(w, a, task).proxies && w.registry.proxyCount !in w.proxies
    ensures var w' := DoAdmin(w, a, task);
      && w'.maxConns == w.maxConns
      && w'.proxies[p].maxConns == if p in w.proxies then w.proxies[p].maxConns else PS.Limit(w.maxConns)
  {
  }

  lemma OriginsOnAdmin(w: World, a: Admin, task: TaskId)
    requires Inv(w) && Origins(w) && CanAdmin(w, a, task)
    ensures Origins(DoAdmin(w, a, task))
  {
    var w' := DoAdmin(w, a, task);
    TP.AdminLeaves(w, a, task);
    TT.ClientsStay(w, OfAdmin(a, task));
    forall p | p in w.proxies ensures p < w.registry.proxyCount { assert PidOk(w, p); }
    forall ws ensures GrownAt(w, w', ws) { if ws in w.wires { assert WireOk(w, ws); AdminTaken(w, a, task, ws); } }
    forall name | name in w'.registry.devices ensures RecordOk(w, w', name) { AdminRecords(w, a, task, name); }
    AdminKeepsMaxConns(w, a, task);
    forall p | p in w'.proxies
      ensures w'.proxies[p].maxConns == if p in w.proxies then w.proxies[p].maxConns else PS.Limit(w.maxConns)
    { AdminLimits(w, a, task, p); }
    OriginsCarry(w, w');
  }

  lemma AdminKeepsMaxConns(w: World, a: Admin, task: TaskId)
    ensures DoAdmin(w, a, task).maxConns == w.maxConns
  {
  }

  lemma OriginsOnTask(w: World, t: TaskId)
    requires Inv(w) && Origins(w) && CanTask(w, t)
    ensures Origins(DoTask(w, t))
  {
    var w' := DoTask(w, t);
    if w.proxies[w.tasks[t][0]].stop.Running? { PS.StepKeepsLimit(w.proxies[w.tasks[t][0]], P.StopFlag); }
    forall ws ensures GrownAt(w, w', ws) { if ws in w.wires { assert WireOk(w, ws); } }
    forall name | name in w'.registry.devices ensures RecordOk(w, w', name) {}
    OriginsCarry(w, w');
  }

  lemma StepOrigins(w: World, s: Step)
    requires Inv(w) && Origins(w) && Can(w, s)
    ensures Origins(Do(w, s))
  {
    match s
    case OfProxy(p, e, ok) => OriginsOnProxy(w, p, e, ok);
    case OfClient(k, e) => OriginsOnClient(w, k, e);
    case OfHandler(ws, h, task) => OriginsOnHandler(w, ws, h, task);
    case OfAdmin(a, task) => OriginsOnAdmin(w, a, task);
    case OfTask(t) => OriginsOnTask(w, t);
  }

  lemma {:induction false} RunOrigins(w: World, steps: seq<Step>)
    requires Inv(w) && Origins(w) && Allowed(w, steps)
    ensures Inv(After(w, steps)) && Origins(After(w, steps))
    decreases |steps|
  {
    if steps != [] {
      TA.StepInv(w, steps[0]);
      StepOrigins(w, steps[0]);
      RunOrigins(Do(w, steps[0]), steps[1..]);
    }
  }

  lemma ReachableOrigins(w: World)
    requires TT.Reachable(w)
    ensures Inv(w) && Origins(w)
  {
    var start, steps :| Initial(start) && Allowed(start, steps) && w == After(start, steps);
    TA.InitialInv(start);
    RunOrigins(start, steps);
  }

  // ---- The promises --------------------------------------------------------------------

  /**
   In every reachable state each registered device was asked for by a register message that came
   on its WebSocket, with the right token, a name and a positive local port.
   */
  lemma OnlyAuthorisedDevices(w: World, name: string)
    requires TT.Reachable(w) && name in w.registry.devices
    ensures var d := w.registry.devices[name];
      && d.ws in w.wires && d.name == name && |name| > 0 && d.localPort >= 1
      && Other(Register(R.Request(name, d.localIP, d.localPort), true)) in FromClient(w, d.ws)
  {
    ReachableOrigins(w);
    assert DeviceStems(w, name) && R.DeviceOk(w.registry, name);
  }

  /** In every reachable state no proxy has more slots in use than the server was configured for. */
  lemma ProxiesRespectLimit(w: World, p: Pid)
    requires TT.Reachable(w) && p in w.proxies
    ensures |P.Holders(w.proxies[p])| <= if w.maxConns > 0 then w.maxConns else 10000
  {
    ReachableOrigins(w);
    assert LimitOk(w, p) && P.Inv(w.proxies[p]);
  }
}
