/**
 `Server` of server.go in the code's own form: maps and device records that the handlers
 change in place and sweeps that loop over them. Each method is proved against the registry
 function of `Registries` that it implements; what those functions keep is proved there.
 */
module ServerCode {
  import opened Wrappers
  import opened PortPools
  import opened Frames
  import opened Objects
  import opened ProxyCode
  import R = Registries
  import T = Tunnel

  /** The pool with device names in place of device records. */
  ghost function Named(p: Pool<DeviceRecord>): Pool<string> {
    Pool(p.start, p.end, p.used, map port | port in p.bindings :: p.bindings[port].name, p.next)
  }

  lemma {:induction false} ScanNamed(p: Pool<DeviceRecord>, d: int)
    ensures Scan(Named(p), d) == Scan(p, d)
    decreases p.Size() - d
  {
    if d < p.Size() { ScanNamed(p, d + 1); }
  }

  lemma AllocatedNamed(p: Pool<DeviceRecord>, device: DeviceRecord)
    ensures Allocated(Named(p), device.name) == (Named(Allocated(p, device).0), Allocated(p, device).1)
  {
    ScanNamed(p, 0);
    var (q, port) := Allocated(p, device);
    if port.Some? {
      assert Named(q).bindings == Named(p).bindings[port.value := device.name];
    }
  }

  lemma FirstFreeOf(p: Pool<string>, name: string)
    requires p.Valid()
    ensures Allocated(p, name).1.None? <==> p.Exhausted()
    ensures Allocated(p, name).1.None? ==> Allocated(p, name).0 == p
    ensures Allocated(p, name).1.Some? ==> p.FirstFree(Allocated(p, name).1.value)
  {
    AllocateFirstFree(p, name);
  }

  lemma ReleasedNamed(p: Pool<DeviceRecord>, port: int)
    ensures Released(Named(p), port) == Named(Released(p, port))
  {
    assert Named(Released(p, port)).bindings == Named(p).bindings - {port};
  }

  ghost function Ref(p: Proxy): R.ProxyRef { R.ProxyRef(p.id, p.port, p.device.id, p.device.conn.id) }

  // ---- The expiry sweep, device by device ----------------------------------------------

  /** The sweep has looked at the devices `done`. */
  function SweptAmong(r: R.Registry, now: R.Time, done: set<string>): R.Registry {
    r.(proxies := r.proxies -
         (set name | name in r.devices && name in done && R.Expired(r.devices[name], now) :: r.devices[name].port),
       devices := map name | name in r.devices ::
                    if name in done && R.Expired(r.devices[name], now) then R.Disabled(r.devices[name])
                    else r.devices[name])
  }

  lemma SweepNone(r: R.Registry, now: R.Time)
    ensures SweptAmong(r, now, {}) == r
  {
    assert SweptAmong(r, now, {}).devices == r.devices;
  }

  lemma SweepOne(r: R.Registry, now: R.Time, done: set<string>, name: string)
    requires name in r.devices && name !in done && r.devices[name].name == name
    ensures SweptAmong(r, now, done).devices[name] == r.devices[name]
    ensures SweptAmong(r, now, done + {name}) ==
            if R.Expired(r.devices[name], now) then R.Without(SweptAmong(r, now, done), name)
            else SweptAmong(r, now, done)
  {
    var before, after := SweptAmong(r, now, done), SweptAmong(r, now, done + {name});
    if R.Expired(r.devices[name], now) {
      assert after.devices == before.devices[name := R.Disabled(r.devices[name])];
      assert after.proxies == before.proxies - {r.devices[name].port};
    } else {
      assert after.devices == before.devices;
      assert after.proxies == before.proxies;
    }
  }

  /** The devices named in `order` are looked at one after the other. */
  function SweptIn(r: R.Registry, now: R.Time, order: seq<string>): R.Registry
    decreases |order|
  {
    if order == [] then r
    else SweptOne(SweptIn(r, now, order[..|order| - 1]), now, order[|order| - 1])
  }

  function SweptOne(r: R.Registry, now: R.Time, name: string): R.Registry {
    if name in r.devices && R.Expired(r.devices[name], now) then R.Without(r, name) else r
  }

  predicate Distinct(order: seq<string>) { forall i, j :: 0 <= i < j < |order| ==> order[i] != order[j] }

  lemma {:induction false} SweptInIsSweptAmong(r: R.Registry, now: R.Time, order: seq<string>)
    requires Distinct(order) && forall name :: name in order ==> name in r.devices && r.devices[name].name == name
    ensures SweptIn(r, now, order) == SweptAmong(r, now, (set name | name in order))
    decreases |order|
  {
    if order == [] {
      SweepNone(r, now);
    } else {
      var front, last := order[..|order| - 1], order[|order| - 1];
      SweptInIsSweptAmong(r, now, front);
      SweepOne(r, now, (set name | name in front), last);
      assert (set name | name in order) == (set name | name in front) + {last};
    }
  }

  lemma NextInOrder(r: R.Registry, now: R.Time, order: seq<string>, name: string)
    ensures SweptIn(r, now, order + [name]) == SweptOne(SweptIn(r, now, order), now, name)
    ensures Distinct(order) && name !in order ==> Distinct(order + [name])
  {
    assert (order + [name])[..|order|] == order;
  }

  /** Whatever order the devices are looked at in, the outcome is the sweep. */
  lemma OrderDoesNotMatter(r: R.Registry, now: R.Time, order: seq<string>)
    requires Distinct(order) && (set name | name in order) == r.devices.Keys
    requires forall name :: name in r.devices ==> r.devices[name].name == name
    ensures SweptIn(r, now, order) == R.Sweep(r, now)
  {
    forall name | name in order ensures name in r.devices { assert name in (set n | n in order); }
    SweptInIsSweptAmong(r, now, order);
    assert SweptAmong(r, now, r.devices.Keys).devices == R.Sweep(r, now).devices;
    assert SweptAmong(r, now, r.devices.Keys).proxies == R.Sweep(r, now).proxies;
  }

  /** The sweep disables a device, and takes its proxy out, exactly when its time has passed. */
  lemma SweptFields(r: R.Registry, now: R.Time, name: string)
    requires name in r.devices
    ensures var d := r.devices[name];
      && name in R.Sweep(r, now).devices
      && var d' := R.Sweep(r, now).devices[name];
         if d.enabled && d.expire.Some? && now > d.expire.value
         then d' == d.(enabled := false, expire := None) && d.port !in R.Sweep(r, now).proxies
         else d' == d
  {
  }

  lemma SweptPort(r: R.Registry, now: R.Time, port: int)
    requires port in r.proxies && port !in R.Sweep(r, now).proxies
    ensures exists name ::
      && name in r.devices && r.devices[name].port == port
      && r.devices[name].enabled && r.devices[name].expire.Some? && now > r.devices[name].expire.value
  {
  }

  /** `list` holds exactly the proxies that are no longer in the map, each of them once. */
  ghost predicate ListsRemoved(list: seq<Proxy>, all: map<int, Proxy>, proxies: map<int, Proxy>) {
    && (forall port :: port in all ==> all[port].port == port)
    && (forall port :: port in proxies ==> port in all && proxies[port] == all[port])
    && (forall i :: 0 <= i < |list| ==>
          var port := list[i].port; port in all && all[port] == list[i] && port !in proxies)
    && (forall port :: port in all && port !in proxies ==> all[port] in list)
    && forall i, j :: 0 <= i < j < |list| ==> list[i] != list[j]
  }

  class Server {
    const maxDevices: int
    const maxConnsPerProxy: int
    const heartbeatTimeout: R.Time
    const portPool: PortPool<DeviceRecord>
    var devices: map<string, DeviceRecord>
    var conns: map<R.Ws, DeviceRecord>
    var proxies: map<int, Proxy>
    ghost var model: R.Registry

    ghost predicate Valid()
      reads this, portPool, devices.Values
    {
      && portPool.Valid() && model.pool == Named(portPool.Abs())
      && devices.Keys == model.devices.Keys && conns.Keys == model.conns.Keys && proxies.Keys == model.proxies.Keys
      && (forall name {:trigger DeviceShown(name)} :: name in devices ==> DeviceShown(name))
      && (forall ws {:trigger ConnShown(ws)} :: ws in conns ==> ConnShown(ws))
      && (forall port {:trigger ProxyShown(port)} :: port in proxies ==> ProxyShown(port))
    }

    ghost predicate DeviceShown(name: string)
      requires name in devices && name in model.devices
      reads this, devices[name]
    {
      devices[name].name == name && devices[name].Abs() == model.devices[name]
    }

    /** The device of a connection is the one of that name. */
    ghost predicate ConnShown(ws: R.Ws)
      requires ws in conns && ws in model.conns
      reads this
    {
      && conns[ws].name == model.conns[ws] && conns[ws].conn.id == ws && conns[ws].name in devices
      && devices[conns[ws].name] == conns[ws]
    }

    ghost predicate ProxyShown(port: int)
      requires port in proxies && port in model.proxies
      reads this
    {
      proxies[port].port == port && Ref(proxies[port]) == model.proxies[port]
    }

    constructor (portStart: int, portEnd: int, maxDevices: int, maxConnsPerProxy: int, heartbeatTimeout: R.Time)
      ensures Valid() && model == R.NewRegistry(portStart, portEnd)
      ensures this.maxDevices == maxDevices && this.maxConnsPerProxy == maxConnsPerProxy
      ensures this.heartbeatTimeout == heartbeatTimeout
      ensures devices == map[] && conns == map[] && proxies == map[]
    {
      this.maxDevices, this.maxConnsPerProxy, this.heartbeatTimeout := maxDevices, maxConnsPerProxy, heartbeatTimeout;
      portPool := new PortPool(portStart, portEnd);
      devices, conns, proxies := map[], map[], map[];
      model := R.NewRegistry(portStart, portEnd);
    }

    // ---- Registration and disconnection ----------------------------------------------

    /** The read section: the device limit. */
    method LimitReached() returns (full: bool)
      requires Valid()
      ensures full == R.Full(model, maxDevices)
      ensures full <==> maxDevices > 0 && |devices| >= maxDevices
    {
      assert |devices| == |devices.Keys| && |model.devices| == |model.devices.Keys|;
      full := maxDevices > 0 && |devices| >= maxDevices;
    }

    /** The device requested is in both maps with this port, and nothing else changed there. */
    ghost predicate Entered(before: map<string, DeviceRecord>, connsBefore: map<R.Ws, DeviceRecord>,
                            conn: WebSocket, request: R.Request, now: R.Time, port: int)
      reads this, devices.Values
    {
      && request.name in devices
      && var d := devices[request.name];
         && devices == before[request.name := d] && conns == connsBefore[conn.id := d]
         && d.localIP == request.localIP && d.localPort == request.localPort && d.conn == conn
         && d.remotePort == port && d.lastHeartbeat == now && !d.enabled && d.expireAt.None?
    }

    /** The write section: name check, port, the two maps. */
    method Insert(conn: WebSocket, request: R.Request, now: R.Time) returns (outcome: R.Outcome, port: int)
      requires Valid()
      modifies this, portPool
      ensures Valid()
      ensures (model, outcome) == R.Register(old(model), conn.id, request, now)
      ensures outcome == R.NameTaken <==> request.name in old(devices)
      ensures outcome == R.NoPort <==> request.name !in old(devices) && old(model).pool.Exhausted()
      ensures outcome != R.Done ==> devices == old(devices) && conns == old(conns) && model == old(model)
      ensures outcome == R.Done ==> Entered(old(devices), old(conns), conn, request, now, port)
      ensures outcome == R.Done ==> fresh(devices[request.name]) && old(model).pool.FirstFree(port)
    {
      if request.name in devices { return R.NameTaken, 0; }
      var device := new DeviceRecord(model.deviceCount, request, conn, now);
      var allotted := Allot(device);
      if allotted.None? { return R.NoPort, 0; }
      device.remotePort := allotted.value;
      Enter(device);
      return R.Done, allotted.value;
    }

    /** Only the pool moved. */
    twostate lemma OtherViewsStay()
      requires old(Valid()) && devices == old(devices) && conns == old(conns) && proxies == old(proxies)
      requires model == old(model).(pool := model.pool)
      requires forall n :: n in devices ==> devices[n].Abs() == old(devices[n].Abs())
      ensures forall n {:trigger DeviceShown(n)} :: n in devices ==> DeviceShown(n)
      ensures forall ws {:trigger ConnShown(ws)} :: ws in conns ==> ConnShown(ws)
      ensures forall port {:trigger ProxyShown(port)} :: port in proxies ==> ProxyShown(port)
    {
      forall n | n in devices ensures DeviceShown(n) { assert old(DeviceShown(n)); }
      forall ws | ws in conns ensures ConnShown(ws) { assert old(ConnShown(ws)); }
      forall port | port in proxies ensures ProxyShown(port) { assert old(ProxyShown(port)); }
    }

    method Allot(device: DeviceRecord) returns (port: Option<int>)
      requires Valid()
      modifies portPool, this`model
      ensures Valid()
      ensures model == old(model).(pool := Allocated(old(model).pool, device.name).0)
      ensures port == Allocated(old(model).pool, device.name).1
      ensures port.None? ==> old(model).pool.Exhausted() && model == old(model)
      ensures port.Some? ==> old(model).pool.FirstFree(port.value)
    {
      FirstFreeOf(model.pool, device.name);
      AllocatedNamed(portPool.Abs(), device);
      port := portPool.Allocate(device);
      model := model.(pool := Named(portPool.Abs()));
      OtherViewsStay();
    }

    method Enter(device: DeviceRecord)
      requires Valid() && device.name !in devices
      modifies this`devices, this`conns, this`model
      ensures Valid() && model == R.Entered(old(model), device.Abs())
      ensures devices == old(devices)[device.name := device] && conns == old(conns)[device.conn.id := device]
    {
      devices := devices[device.name := device];
      conns := conns[device.conn.id := device];
      model := R.Entered(model, device.Abs());
      forall n | n in devices ensures DeviceShown(n) { if n != device.name { assert old(DeviceShown(n)); } }
      forall ws | ws in conns ensures ConnShown(ws) { if ws != device.conn.id { assert old(ConnShown(ws)); } }
      forall port | port in proxies ensures ProxyShown(port) { assert old(ProxyShown(port)); }
    }

    /** What a registration does to the maps, which reply it gets, and whether the connection is dropped. */
    method Register(conn: WebSocket, request: R.Request, authorised: bool, now: R.Time)
      returns (reply: Control, hangUp: bool)
      requires Valid()
      modifies this, portPool
      ensures Valid()
      ensures R.Refuses(old(model), maxDevices, request, authorised) ==> model == old(model) && reply == Error
      ensures !R.Refuses(old(model), maxDevices, request, authorised) ==>
                var (r, outcome) := R.Register(old(model), conn.id, request, now);
                model == r && reply == T.OutcomeReply(r, request.name, outcome)
      ensures reply == Error <==>
              || !authorised || |request.name| == 0 || request.localPort < 1
              || (maxDevices > 0 && |old(devices)| >= maxDevices)
              || request.name in old(devices) || old(model).pool.Exhausted()
      ensures reply == Error ==> devices == old(devices) && conns == old(conns) && model == old(model)
      ensures reply != Error ==>
                && reply.Assigned? && old(model).pool.FirstFree(reply.port)
                && Entered(old(devices), old(conns), conn, request, now, reply.port)
      ensures hangUp <==>
              || !authorised
              || (|request.name| > 0 && request.localPort > 0 && maxDevices > 0 && |old(devices)| >= maxDevices)
    {
      if !authorised { return Error, true; }
      if request.name == "" || request.localPort <= 0 { return Error, false; }
      var full := LimitReached();
      if full { return Error, true; }
      var outcome, port := Insert(conn, request, now);
      if outcome == R.Done { assert DeviceShown(request.name); }
      reply, hangUp := if outcome == R.Done then Assigned(port) else Error, false;
    }

    /** A registration in which no other handler comes in between; `fails` is what becomes of the reply. */
    method HandleRegister(conn: WebSocket, request: R.Request, authorised: bool, now: R.Time, fails: bool)
      returns (reply: Control)
      requires Valid()
      modifies this, portPool, conn
      ensures Valid()
      ensures reply == Error <==>
              || !authorised || |request.name| == 0 || request.localPort < 1
              || (maxDevices > 0 && |old(devices)| >= maxDevices)
              || request.name in old(devices) || old(model).pool.Exhausted()
      ensures reply == Error ==> devices == old(devices) && conns == old(conns) && model == old(model)
      ensures reply != Error ==>
                && reply.Assigned? && old(model).pool.FirstFree(reply.port)
                && Entered(old(devices), old(conns), conn, request, now, reply.port)
      ensures conn.log == old(conn.log) + if fails || old(conn.down) then [] else [Other(reply)]
      ensures conn.down <==>
              || old(conn.down) || fails || !authorised
              || (|request.name| > 0 && request.localPort > 0 && maxDevices > 0 && |old(devices)| >= maxDevices)
    {
      var hangUp;
      reply, hangUp := Register(conn, request, authorised, now);
      SendMessage(conn, reply, fails);
      if hangUp { conn.Close(); }
    }

    method SendMessage(conn: WebSocket, message: Control, fails: bool)
      modifies conn
      ensures conn.log == old(conn.log) + (if fails || old(conn.down) then [] else [Other(message)])
      ensures conn.down == (fails || old(conn.down))
    {
      var err := conn.WriteMessage(Other(message), fails);
    }

    method HandleDisconnect(ws: R.Ws) returns (toStop: Option<Proxy>)
      requires Valid()
      modifies this, portPool
      ensures Valid() && model == R.Disconnect(old(model), ws).0
      ensures R.Disconnect(old(model), ws).1 == if toStop.Some? then Some(Ref(toStop.value)) else None
      ensures toStop.Some? ==> toStop.value in old(proxies).Values
      ensures ws !in old(conns) ==>
                && devices == old(devices) && conns == old(conns) && proxies == old(proxies)
                && model == old(model) && toStop.None?
      ensures ws in old(conns) ==>
                var d := old(conns)[ws]; var port := old(d.remotePort);
                && devices == old(devices) - {d.name} && conns == old(conns) - {ws} && proxies == old(proxies) - {port}
                && toStop == (if port in old(proxies) then Some(old(proxies)[port]) else None)
                && model.pool.used == old(model).pool.used - {port}
    {
      if ws !in conns { return None; }
      var device := conns[ws];
      assert ConnShown(ws) && DeviceShown(device.name);
      if device.remotePort in proxies { assert ProxyShown(device.remotePort); }
      toStop := if device.remotePort in proxies then Some(proxies[device.remotePort]) else None;
      ReleasePort(device.remotePort);
      Forget(device, ws);
    }

    method ReleasePort(port: int)
      requires Valid()
      modifies portPool, this`model
      ensures Valid() && model == old(model).(pool := Released(old(model).pool, port))
    {
      ReleasedNamed(portPool.Abs(), port);
      portPool.Release(port);
      model := model.(pool := Named(portPool.Abs()));
      OtherViewsStay();
    }

    method Forget(device: DeviceRecord, ws: R.Ws)
      requires Valid() && ws in conns && conns[ws] == device
      modifies this`devices, this`conns, this`proxies, this`model
      ensures Valid() && model == R.Forgotten(old(model), device.Abs(), ws)
      ensures devices == old(devices) - {device.name} && conns == old(conns) - {ws}
      ensures proxies == old(proxies) - {device.remotePort}
    {
      proxies := proxies - {device.remotePort};
      devices := devices - {device.name};
      conns := conns - {ws};
      model := R.Forgotten(model, device.Abs(), ws);
      forall n | n in devices ensures DeviceShown(n) { assert old(DeviceShown(n)); }
      forall v | v in conns ensures ConnShown(v) { assert old(ConnShown(v)) && old(ConnShown(ws)); }
      forall port | port in proxies ensures ProxyShown(port) { assert old(ProxyShown(port)); }
    }

    // ---- Heartbeats ------------------------------------------------------------------

    /** The device is looked up under the lock; the time is written later, under its own. */
    method HandleHeartbeat(ws: R.Ws, now: R.Time, fails: bool)
      requires Valid()
      modifies this`model, devices.Values, if ws in conns then {conns[ws].conn} else {}
      ensures Valid()
      ensures model ==
              if R.Owner(old(model), ws).Some? then R.Beat(old(model), R.Owner(old(model), ws).value, now)
              else old(model)
      ensures ws in conns && !fails && !old(conns[ws].conn.down) ==>
                conns[ws].conn.log == old(conns[ws].conn.log) + [Other(HeartbeatAck)]
      ensures ws in conns ==> conns[ws].lastHeartbeat == now
      ensures forall name :: name in devices && !(ws in conns && devices[name] == conns[ws]) ==>
                devices[name].lastHeartbeat == old(devices[name].lastHeartbeat)
    {
      if ws in conns {
        var device := conns[ws];
        assert ConnShown(ws) && DeviceShown(device.name);
        var err := device.conn.WriteMessage(Other(HeartbeatAck), fails);
        Beat(device, now);
      }
    }

    method Beat(device: DeviceRecord, now: R.Time)
      requires Valid() && device.name in devices && device.name in model.devices && devices[device.name] == device
      modifies this`model, device
      ensures Valid() && model == R.Beat(old(model), old(device.Abs()), now)
      ensures device.lastHeartbeat == now
    {
      ghost var before := device.Abs();
      assert DeviceShown(device.name);
      device.lastHeartbeat := now;
      model := R.Beat(model, before, now);
      forall n | n in devices ensures DeviceShown(n) { assert old(DeviceShown(n)); }
      forall ws | ws in conns ensures ConnShown(ws) { assert old(ConnShown(ws)); }
      forall p | p in proxies ensures ProxyShown(p) { assert old(ProxyShown(p)); }
    }

    // ---- Enabling and disabling ------------------------------------------------------

    method EnableDevice(name: string, duration: R.Time, now: R.Time, bound: bool) returns (outcome: R.Outcome)
      requires Valid()
      modifies this`proxies, this`model, devices.Values
      ensures Valid() && (model, outcome) == R.Enable(old(model), name, duration, now, bound)
      ensures outcome == R.Done ==>
                && name in devices && devices[name].remotePort in proxies
                && fresh(proxies[devices[name].remotePort]) && proxies[devices[name].remotePort].Valid()
      ensures outcome == R.Done <==> name in devices && !old(devices[name].enabled) && bound
      ensures outcome != R.Done ==> proxies == old(proxies) && model == old(model)
      ensures outcome == R.Done ==>
                var d := devices[name]; var proxy := proxies[d.remotePort];
                && d.enabled && d.expireAt == (if duration > 0 then Some(now + duration) else None)
                && d.remotePort == old(d.remotePort) && proxies == old(proxies)[d.remotePort := proxy]
                && proxy.port == d.remotePort && proxy.device == d && !proxy.stopped && proxy.listening
                && proxy.maxConns == (if maxConnsPerProxy > 0 then maxConnsPerProxy else 10000)
      ensures forall d :: d in devices.Values && !(outcome == R.Done && d == devices[name]) ==> unchanged(d)
    {
      if name !in devices { return R.NoSuchDevice; }
      assert DeviceShown(name);
      var device := devices[name];
      if device.enabled { return R.AlreadyEnabled; }
      if !bound { return R.BindFailed; }
      var proxy := new Proxy(model.proxyCount, device.remotePort, device, maxConnsPerProxy);
      var expireAt := if duration > 0 then Some(now + duration) else None;
      Start(device, proxy, expireAt);
      return R.Done;
    }

    method Start(device: DeviceRecord, proxy: Proxy, expireAt: Option<R.Time>)
      requires Valid() && device.name in devices && devices[device.name] == device && proxy.port == device.remotePort
      requires device.name in model.devices
      requires Ref(proxy) == R.ProxyRef(model.proxyCount, device.remotePort, device.id, device.conn.id)
      modifies this`proxies, this`model, device
      ensures Valid() && model == R.Started(old(model), device.name, expireAt)
      ensures proxies == old(proxies)[proxy.port := proxy] && device.remotePort == proxy.port
      ensures device.enabled && device.expireAt == expireAt
    {
      assert DeviceShown(device.name);
      AddProxy(proxy);
      Mark(device, true, expireAt);
    }

    method AddProxy(proxy: Proxy)
      requires Valid()
      modifies this`proxies, this`model
      ensures Valid() && proxies == old(proxies)[proxy.port := proxy]
      ensures model ==
              old(model).(proxies := old(model).proxies[proxy.port := Ref(proxy)],
                          proxyCount := old(model).proxyCount + 1)
    {
      proxies := proxies[proxy.port := proxy];
      model := model.(proxies := model.proxies[proxy.port := Ref(proxy)], proxyCount := model.proxyCount + 1);
      forall n | n in devices ensures DeviceShown(n) { assert old(DeviceShown(n)); }
      forall ws | ws in conns ensures ConnShown(ws) { assert old(ConnShown(ws)); }
      forall p | p in proxies ensures ProxyShown(p) { if p != proxy.port { assert old(ProxyShown(p)); } }
    }

    method Mark(device: DeviceRecord, enabled: bool, expireAt: Option<R.Time>)
      requires Valid() && device.name in devices && devices[device.name] == device && device.name in model.devices
      modifies this`model, device
      ensures Valid() && device.remotePort == old(device.remotePort)
      ensures device.enabled == enabled && device.expireAt == expireAt
      ensures model == old(model).(devices := old(model).devices[device.name :=
                         old(model).devices[device.name].(enabled := enabled, expire := expireAt)])
    {
      assert DeviceShown(device.name);
      device.enabled, device.expireAt := enabled, expireAt;
      model := model.(devices := model.devices[device.name :=
                        model.devices[device.name].(enabled := enabled, expire := expireAt)]);
      forall n | n in devices ensures DeviceShown(n) { assert old(DeviceShown(n)); }
      forall ws | ws in conns ensures ConnShown(ws) { assert old(ConnShown(ws)); }
      forall p | p in proxies ensures ProxyShown(p) { assert old(ProxyShown(p)); }
    }

    method DisableDevice(name: string) returns (outcome: R.Outcome, toStop: Option<Proxy>)
      requires Valid()
      modifies this`proxies, this`model, devices.Values
      ensures Valid()
      ensures (model, outcome, if toStop.Some? then Some(Ref(toStop.value)) else None) == R.Disable(old(model), name)
      ensures toStop.Some? ==> toStop.value in old(proxies).Values
      ensures outcome == R.Done <==> name in devices && old(devices[name].enabled)
      ensures outcome != R.Done ==> proxies == old(proxies) && model == old(model) && toStop.None?
      ensures outcome == R.Done ==>
                var d := devices[name];
                && !d.enabled && d.expireAt.None? && d.remotePort == old(d.remotePort)
                && proxies == old(proxies) - {d.remotePort}
                && toStop == if d.remotePort in old(proxies) then Some(old(proxies)[d.remotePort]) else None
      ensures forall d :: d in devices.Values && !(outcome == R.Done && d == devices[name]) ==> unchanged(d)
    {
      if name !in devices { return R.NoSuchDevice, None; }
      assert DeviceShown(name);
      var device := devices[name];
      if !device.enabled { return R.NotEnabled, None; }
      toStop := TakeOut(device);
      outcome := R.Done;
    }

    /** Takes the device's proxy out of the map and marks the device disabled. */
    method TakeOut(device: DeviceRecord) returns (toStop: Option<Proxy>)
      requires Valid() && device.name in devices && device.name in model.devices && devices[device.name] == device
      modifies this`proxies, this`model, device
      ensures Valid() && model == R.Without(old(model), device.name)
      ensures device.remotePort == old(device.remotePort) && proxies == old(proxies) - {device.remotePort}
      ensures !device.enabled && device.expireAt.None?
      ensures toStop == if device.remotePort in old(proxies) then Some(old(proxies)[device.remotePort]) else None
      ensures toStop.Some? ==> Ref(toStop.value) == old(model).proxies[device.remotePort]
    {
      assert DeviceShown(device.name);
      if device.remotePort in proxies { assert ProxyShown(device.remotePort); }
      toStop := if device.remotePort in proxies then Some(proxies[device.remotePort]) else None;
      RemoveProxy(device.remotePort);
      Mark(device, false, None);
    }

    method RemoveProxy(port: int)
      requires Valid()
      modifies this`proxies, this`model
      ensures Valid() && proxies == old(proxies) - {port}
              && model == old(model).(proxies := old(model).proxies - {port})
    {
      proxies := proxies - {port};
      model := model.(proxies := model.proxies - {port});
      forall n | n in devices ensures DeviceShown(n) { assert old(DeviceShown(n)); }
      forall ws | ws in conns ensures ConnShown(ws) { assert old(ConnShown(ws)); }
      forall p | p in proxies ensures ProxyShown(p) { assert old(ProxyShown(p)); }
    }

    /** The proxy a message that arrives on `ws` is given to. */
    method Route(ws: R.Ws) returns (proxy: Option<Proxy>)
      requires Valid()
      ensures R.Route(model, ws) == if proxy.Some? then Some(Ref(proxy.value)) else None
      ensures proxy.Some? <==> ws in conns && conns[ws].remotePort in proxies
      ensures proxy.Some? ==> proxy.value == proxies[conns[ws].remotePort]
    {
      if ws !in conns { return None; }
      assert ConnShown(ws) && DeviceShown(conns[ws].name);
      if conns[ws].remotePort !in proxies { return None; }
      assert ProxyShown(conns[ws].remotePort);
      proxy := Some(proxies[conns[ws].remotePort]);
    }

    // ---- The two sweeps --------------------------------------------------------------

    /** Takes out the proxies of expired devices, in whatever order the map is walked. */
    method CheckExpired(now: R.Time) returns (toStop: seq<Proxy>)
      requires Valid()
      modifies this`proxies, this`model, devices.Values
      ensures Valid() && model == R.Sweep(old(model), now)
      ensures ListsRemoved(toStop, old(proxies), proxies)
      ensures forall name :: name in devices ==>
                var d := devices[name];
                && d.remotePort == old(d.remotePort) && d.lastHeartbeat == old(d.lastHeartbeat)
                && if old(d.enabled && d.expireAt.Some? && now > d.expireAt.value)
                   then !d.enabled && d.expireAt.None? && d.remotePort !in proxies
                   else d.enabled == old(d.enabled) && d.expireAt == old(d.expireAt)
      ensures forall port :: port in old(proxies) && port !in proxies ==>
                exists name ::
                  && name in devices && devices[name].remotePort == port
                  && old(devices[name].enabled && devices[name].expireAt.Some? && now > devices[name].expireAt.value)
    {
      ghost var r := model;
      forall name | name in devices ensures r.devices[name].name == name && devices[name].Abs() == r.devices[name] {
        assert DeviceShown(name);
      }
      ghost var before := proxies;
      assert forall port :: port in proxies ==> port in r.proxies;
      ghost var order;
      toStop, order := WalkDevices(now);
      OrderDoesNotMatter(r, now, order);
      forall name | name in devices ensures devices[name].Abs() == R.Sweep(r, now).devices[name] {
        assert DeviceShown(name);
        SweptFields(r, now, name);
      }
      forall port | port in before && port !in proxies
        ensures exists name :: name in devices && r.devices[name].port == port && R.Expired(r.devices[name], now)
      { SweptPort(r, now, port); }
    }

    method WalkDevices(now: R.Time) returns (toStop: seq<Proxy>, ghost order: seq<string>)
      requires Valid()
      modifies this`proxies, this`model, devices.Values
      ensures Valid() && model == SweptIn(old(model), now, order)
      ensures Distinct(order) && (set name | name in order) == old(model).devices.Keys
      ensures ListsRemoved(toStop, old(proxies), proxies)
    {
      toStop, order := [], [];
      var rest := devices;
      ghost var r, all := model, proxies;
      assert forall port :: port in proxies ==> ProxyShown(port);
      while rest != map[]
        invariant Valid() && devices == old(devices) && model == SweptIn(r, now, order)
        invariant forall name :: name in devices <==> name in rest || name in order
        invariant Distinct(order) && forall name :: name in rest ==> rest[name] == devices[name] && name !in order
        invariant ListsRemoved(toStop, all, proxies)
        decreases |rest|
      {
        var name :| name in rest;
        assert DeviceShown(name);
        toStop := SweepDevice(rest[name], now, toStop, all);
        rest := rest - {name};
        NextInOrder(r, now, order, name);
        order := order + [name];
      }
    }

    /** The body of the sweep, for one device. */
    method SweepDevice(device: DeviceRecord, now: R.Time, list: seq<Proxy>, ghost all: map<int, Proxy>)
      returns (toStop: seq<Proxy>)
      requires Valid() && device.name in devices && device.name in model.devices && devices[device.name] == device
      requires ListsRemoved(list, all, proxies)
      modifies this`proxies, this`model, device
      ensures Valid() && ListsRemoved(toStop, all, proxies)
      ensures model == SweptOne(old(model), now, device.name)
    {
      assert DeviceShown(device.name);
      toStop := list;
      if device.enabled && device.expireAt.Some? && now > device.expireAt.value {
        var proxy := TakeOut(device);
        if proxy.Some? { toStop := toStop + [proxy.value]; }
      }
    }

    lemma TimedOutDevices(now: R.Time, ws: R.Ws)
      requires Valid()
      ensures ws in R.TimedOut(model, now, heartbeatTimeout) <==>
              exists name :: name in devices && devices[name].conn.id == ws
                             && now - devices[name].lastHeartbeat > heartbeatTimeout
    {
      forall name | name in devices ensures devices[name].Abs() == model.devices[name] { assert DeviceShown(name); }
      if name :|
        name in devices && devices[name].conn.id == ws && now - devices[name].lastHeartbeat > heartbeatTimeout {
        assert R.Silent(model.devices[name], now, heartbeatTimeout);
      }
    }

    /** The connections of devices that have been silent for too long. */
    method CheckHeartbeats(now: R.Time) returns (toClose: seq<R.Ws>)
      requires Valid()
      ensures forall ws :: ws in toClose <==> ws in R.TimedOut(model, now, heartbeatTimeout)
      ensures forall ws :: ws in toClose <==>
                exists name :: name in devices && devices[name].conn.id == ws
                               && now - devices[name].lastHeartbeat > heartbeatTimeout
    {
      toClose := [];
      var rest := devices;
      ghost var done: set<string> := {};
      while rest != map[]
        invariant done + rest.Keys == devices.Keys
        invariant forall name :: name in rest ==> rest[name] == devices[name]
        invariant forall name :: name in done && R.Silent(model.devices[name], now, heartbeatTimeout) ==>
                    model.devices[name].ws in toClose
        invariant forall ws :: ws in toClose ==> ws in R.TimedOut(model, now, heartbeatTimeout)
        decreases |rest|
      {
        var name :| name in rest;
        var device := rest[name];
        assert DeviceShown(name);
        if now - device.lastHeartbeat > heartbeatTimeout {
          toClose := toClose + [device.conn.id];
        }
        rest := rest - {name};
        done := done + {name};
      }
      forall ws { TimedOutDevices(now, ws); }
    }
  }
}
