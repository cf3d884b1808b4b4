/**
 The server's registry (internal/server/server.go) as a value, and its critical sections
 as functions on that value. One application of a function is one stretch of code under
 the server lock; the proxies a section takes out are returned to the caller, which stops
 them after the lock is released.
 */
module Registries {
  import opened Wrappers
  import opened PortPools

  type Ws = nat     // one WebSocket connection
  type Time = int

  datatype Request = Request(name: string, localIP: string, localPort: int)

  /** `id` is the identity of the record: two registrations under one name are different devices. */
  datatype Device = Device(
    id: nat, name: string, localIP: string, localPort: int,
    port: int, ws: Ws, beat: Time, enabled: bool, expire: Option<Time>)

  /** A started proxy, with the device it forwards to. */
  datatype ProxyRef = ProxyRef(id: nat, port: int, device: nat, ws: Ws)

  datatype Registry = Registry(
    pool: Pool<string>,
    devices: map<string, Device>,
    conns: map<Ws, string>,
    proxies: map<int, ProxyRef>,
    deviceCount: nat,
    proxyCount: nat)

  function NewRegistry(portStart: int, portEnd: int): Registry {
    Registry(NewPool(portStart, portEnd), map[], map[], map[], 0, 0)
  }

  datatype Outcome = Done | NameTaken | NoPort | NoSuchDevice | AlreadyEnabled | NotEnabled | BindFailed

  // ---- Critical sections ---------------------------------------------------------------

  predicate Full(r: Registry, maxDevices: int) { maxDevices > 0 && |r.devices| >= maxDevices }

  /** What turns a registration away before its second section. */
  predicate Refuses(r: Registry, maxDevices: int, request: Request, authorised: bool) {
    !authorised || request.name == "" || request.localPort <= 0 || Full(r, maxDevices)
  }

  /** Enters a new device into the two maps. */
  function Entered(r: Registry, device: Device): Registry {
    r.(devices := r.devices[device.name := device], conns := r.conns[device.ws := device.name],
       deviceCount := r.deviceCount + 1)
  }

  /** The second section of a registration: the name check, the port and the two maps. */
  function Register(r: Registry, ws: Ws, request: Request, now: Time): (Registry, Outcome) {
    if request.name in r.devices then (r, NameTaken)
    else
      var (pool, port) := Allocated(r.pool, request.name);
      if port.None? then (r.(pool := pool), NoPort)
      else
        (Entered(r.(pool := pool), NewDevice(r, ws, request, now, port.value)), Done)
  }

  function Forgotten(r: Registry, device: Device, ws: Ws): Registry {
    r.(devices := r.devices - {device.name}, conns := r.conns - {ws}, proxies := r.proxies - {device.port})
  }

  /** Removes the device a closed WebSocket is registered for; returns the proxy to stop. */
  function Disconnect(r: Registry, ws: Ws): (Registry, Option<ProxyRef>) {
    if ws !in r.conns || r.conns[ws] !in r.devices then (r, None)
    else
      var device := r.devices[r.conns[ws]];
      var proxy := if device.port in r.proxies then Some(r.proxies[device.port]) else None;
      (Forgotten(r.(pool := Released(r.pool, device.port)), device, ws), proxy)
  }

  /** A new proxy serves the device, which counts as enabled until `expire`. */
  function Started(r: Registry, name: string, expire: Option<Time>): Registry
    requires name in r.devices
  {
    var device := r.devices[name];
    r.(proxies := r.proxies[device.port := ProxyRef(r.proxyCount, device.port, device.id, device.ws)],
       devices := r.devices[name := device.(enabled := true, expire := expire)],
       proxyCount := r.proxyCount + 1)
  }

  /** `bound` says whether the operating system let the proxy bind the device's port. */
  function Enable(r: Registry, name: string, duration: Time, now: Time, bound: bool): (Registry, Outcome) {
    if name !in r.devices then (r, NoSuchDevice)
    else if r.devices[name].enabled then (r, AlreadyEnabled)
    else if !bound then (r, BindFailed)
    else
      (Started(r, name, if duration > 0 then Some(now + duration) else None), Done)
  }

  function Disabled(device: Device): Device { device.(enabled := false, expire := None) }

  /** The device is disabled and its proxy, if it has one, taken out. */
  function Without(r: Registry, name: string): Registry
    requires name in r.devices
  {
    r.(proxies := r.proxies - {r.devices[name].port}, devices := r.devices[name := Disabled(r.devices[name])])
  }

  function Disable(r: Registry, name: string): (Registry, Outcome, Option<ProxyRef>) {
    if name !in r.devices then (r, NoSuchDevice, None)
    else if !r.devices[name].enabled then (r, NotEnabled, None)
    else
      var device := r.devices[name];
      var proxy := if device.port in r.proxies then Some(r.proxies[device.port]) else None;
      (Without(r, name), Done, proxy)
  }

  predicate Expired(device: Device, now: Time) {
    device.enabled && device.expire.Some? && now > device.expire.value
  }

  function ExpiredPorts(r: Registry, now: Time): set<int> {
    set name | name in r.devices && Expired(r.devices[name], now) :: r.devices[name].port
  }

  function Sweep(r: Registry, now: Time): Registry {
    r.(proxies := r.proxies - ExpiredPorts(r, now),
       devices := map name | name in r.devices ::
                    if Expired(r.devices[name], now) then Disabled(r.devices[name]) else r.devices[name])
  }

  /** The proxies an expiry sweep takes out. */
  function SweptProxies(r: Registry, now: Time): set<ProxyRef> {
    set port | port in r.proxies && port in ExpiredPorts(r, now) :: r.proxies[port]
  }

  /** The device a heartbeat on `ws` is credited to. */
  function Owner(r: Registry, ws: Ws): Option<Device> {
    if ws in r.conns && r.conns[ws] in r.devices then Some(r.devices[r.conns[ws]]) else None
  }

  /** The update happens after the lock is released, so the device may be gone by then. */
  function Beat(r: Registry, device: Device, now: Time): Registry {
    if device.name in r.devices && r.devices[device.name].id == device.id
    then r.(devices := r.devices[device.name := r.devices[device.name].(beat := now)])
    else r
  }

  predicate Silent(device: Device, now: Time, timeout: Time) { now - device.beat > timeout }

  /** The WebSockets a heartbeat sweep closes. */
  function TimedOut(r: Registry, now: Time, timeout: Time): set<Ws> {
    set name | name in r.devices && Silent(r.devices[name], now, timeout) :: r.devices[name].ws
  }

  /** The proxy that a `data` or `conn_close` message arriving on `ws` is given to. */
  function Route(r: Registry, ws: Ws): Option<ProxyRef> {
    if Owner(r, ws).Some? && Owner(r, ws).value.port in r.proxies
    then Some(r.proxies[Owner(r, ws).value.port])
    else None
  }

  // ---- The five maps are views of one table --------------------------------------------

  /** What the table says of one device. */
  predicate DeviceOk(r: Registry, name: string)
    requires name in r.devices
  {
    var d := r.devices[name];
    && d.name == name && d.id < r.deviceCount
    && d.port in r.pool.bindings && r.pool.bindings[d.port] == name
    && (d.enabled <==> d.port in r.proxies)
    && (d.expire.Some? ==> d.enabled)
  }

  predicate BindingOk(r: Registry, port: int)
    requires port in r.pool.bindings
  {
    r.pool.bindings[port] in r.devices && r.devices[r.pool.bindings[port]].port == port
  }

  predicate ConnOk(r: Registry, ws: Ws)
    requires ws in r.conns
  {
    r.conns[ws] in r.devices && r.devices[r.conns[ws]].ws == ws
  }

  predicate ProxyOk(r: Registry, port: int)
    requires port in r.proxies
  {
    && port in r.pool.bindings && r.pool.bindings[port] in r.devices
    && var d := r.devices[r.pool.bindings[port]];
    && r.proxies[port].port == port && r.proxies[port].device == d.id && r.proxies[port].ws == d.ws
    && r.proxies[port].id < r.proxyCount
  }

  ghost predicate Consistent(r: Registry) {
    && r.pool.Valid()
    && (forall name :: name in r.devices ==> DeviceOk(r, name))
    && (forall a, b :: a in r.devices && b in r.devices && r.devices[a].id == r.devices[b].id ==> a == b)
    && (forall port :: port in r.pool.bindings ==> BindingOk(r, port))
    && (forall ws :: ws in r.conns ==> ConnOk(r, ws))
    && (forall port :: port in r.proxies ==> ProxyOk(r, port))
    && (forall p, q :: p in r.proxies && q in r.proxies && r.proxies[p].id == r.proxies[q].id ==> p == q)
  }

  // ---- Every critical section keeps the views in agreement -----------------------------

  lemma NewConsistent(portStart: int, portEnd: int)
    ensures Consistent(NewRegistry(portStart, portEnd))
  {
  }

  function NewDevice(r: Registry, ws: Ws, request: Request, now: Time, port: int): Device {
    Device(r.deviceCount, request.name, request.localIP, request.localPort, port, ws, now, false, None)
  }

  lemma RegisterConsistent(r: Registry, ws: Ws, request: Request, now: Time)
    requires Consistent(r)
    ensures Consistent(Register(r, ws, request, now).0)
    ensures Register(r, ws, request, now).1 != Done ==> Register(r, ws, request, now).0 == r
    ensures Register(r, ws, request, now).1 == NoPort ==> r.pool.Exhausted() && request.name !in r.devices
  {
    AllocateFirstFree(r.pool, request.name);
    if Register(r, ws, request, now).1 == Done {
      var (pool, port) := Allocated(r.pool, request.name);
      assert r.pool.FirstFree(port.value);
      EnteredConsistent(r, pool, NewDevice(r, ws, request, now, port.value));
    }
  }

  /** A new device on a port that was free agrees with the rest of the table. */
  lemma EnteredConsistent(r: Registry, pool: Pool<string>, device: Device)
    requires Consistent(r) && pool.Valid() && pool.bindings == r.pool.bindings[device.port := device.name]
    requires device.name !in r.devices && device.port !in r.pool.bindings
    requires device.id == r.deviceCount && !device.enabled && device.expire.None?
    ensures Consistent(Entered(r.(pool := pool), device))
  {
    var r' := Entered(r.(pool := pool), device);
    forall p | p in r.proxies ensures p in r.pool.bindings { assert ProxyOk(r, p); }
    forall name | name in r'.devices ensures DeviceOk(r', name) {
      if name != device.name { assert DeviceOk(r, name); }
    }
    forall p | p in r'.pool.bindings ensures BindingOk(r', p) {
      if p != device.port { assert BindingOk(r, p); }
    }
    forall w | w in r'.conns ensures ConnOk(r', w) {
      if w != device.ws { assert ConnOk(r, w); }
    }
    forall p | p in r'.proxies ensures ProxyOk(r', p) { assert ProxyOk(r, p); }
    forall a, b | a in r'.devices && b in r'.devices && r'.devices[a].id == r'.devices[b].id ensures a == b {
      if a in r.devices { assert DeviceOk(r, a); }
      if b in r.devices { assert DeviceOk(r, b); }
    }
  }

  /** A registration under a new name succeeds while a port is free, and takes one free port. */
  lemma RegisterSucceeds(r: Registry, ws: Ws, request: Request, now: Time) returns (port: int)
    requires Consistent(r) && request.name !in r.devices
    requires exists free :: r.pool.Free(free)
    ensures r.pool.FirstFree(port)
    ensures var (r', outcome) := Register(r, ws, request, now);
            && outcome == Done && Consistent(r')
            && r' == Entered(r.(pool := r'.pool), NewDevice(r, ws, request, now, port))
            && |r'.devices| == |r.devices| + 1
            && forall q :: r'.pool.Free(q) <==> r.pool.Free(q) && q != port
  {
    port := AllocateSucceeds(r.pool, request.name);
    RegisterConsistent(r, ws, request, now);
    EnteredCount(r, NewDevice(r, ws, request, now, port));
  }

  lemma EnteredCount(r: Registry, device: Device)
    requires device.name !in r.devices
    ensures |Entered(r, device).devices| == |r.devices| + 1
  {
    assert Entered(r, device).devices.Keys == r.devices.Keys + {device.name};
  }

  lemma RegisterCount(r: Registry, ws: Ws, request: Request, now: Time)
    ensures |Register(r, ws, request, now).0.devices| <= |r.devices| + 1
  {
    if request.name !in r.devices && Allocated(r.pool, request.name).1.Some? {
      EnteredCount(r, NewDevice(r, ws, request, now, Allocated(r.pool, request.name).1.value));
    }
  }

  lemma DisconnectConsistent(r: Registry, ws: Ws)
    requires Consistent(r)
    ensures Consistent(Disconnect(r, ws).0)
  {
    if ws in r.conns {
      assert ConnOk(r, ws);
      var d := r.devices[r.conns[ws]];
      assert DeviceOk(r, d.name);
      var r' := Disconnect(r, ws).0;
      forall name | name in r'.devices ensures DeviceOk(r', name) { assert DeviceOk(r, name); }
      forall p | p in r'.pool.bindings ensures BindingOk(r', p) { assert BindingOk(r, p); }
      forall w | w in r'.conns ensures ConnOk(r', w) { assert ConnOk(r, w); }
      forall p | p in r'.proxies ensures ProxyOk(r', p) { assert ProxyOk(r, p); }
    }
  }

  lemma EnableConsistent(r: Registry, name: string, duration: Time, now: Time, bound: bool)
    requires Consistent(r)
    ensures Consistent(Enable(r, name, duration, now, bound).0)
    ensures Enable(r, name, duration, now, bound).1 != Done ==> Enable(r, name, duration, now, bound).0 == r
    ensures Enable(r, name, duration, now, bound).1 == Done ==>
              && name in r.devices && r.devices[name].port !in r.proxies
              && Enable(r, name, duration, now, bound).0.proxies ==
                 r.proxies[r.devices[name].port :=
                   ProxyRef(r.proxyCount, r.devices[name].port, r.devices[name].id, r.devices[name].ws)]
  {
    var (r', outcome) := Enable(r, name, duration, now, bound);
    if outcome == Done {
      assert DeviceOk(r, name);
      forall n | n in r'.devices ensures DeviceOk(r', n) { assert DeviceOk(r, n); }
      forall p | p in r'.pool.bindings ensures BindingOk(r', p) { assert BindingOk(r, p); }
      forall w | w in r'.conns ensures ConnOk(r', w) { assert ConnOk(r, w); }
      forall p | p in r'.proxies ensures ProxyOk(r', p) { if p in r.proxies { assert ProxyOk(r, p); } }
      forall p, q | p in r'.proxies && q in r'.proxies && r'.proxies[p].id == r'.proxies[q].id ensures p == q {
        if p in r.proxies { assert ProxyOk(r, p); }
        if q in r.proxies { assert ProxyOk(r, q); }
      }
    }
  }

  lemma DisableConsistent(r: Registry, name: string)
    requires Consistent(r)
    ensures Consistent(Disable(r, name).0)
    ensures Disable(r, name).1 == Done ==> Disable(r, name).2.Some?
    ensures Disable(r, name).1 != Done ==> Disable(r, name).0 == r
  {
    var (r', outcome, _) := Disable(r, name);
    if outcome == Done {
      assert DeviceOk(r, name);
      forall n | n in r'.devices ensures DeviceOk(r', n) { assert DeviceOk(r, n); }
      forall p | p in r'.pool.bindings ensures BindingOk(r', p) { assert BindingOk(r, p); }
      forall w | w in r'.conns ensures ConnOk(r', w) { assert ConnOk(r, w); }
      forall p | p in r'.proxies ensures ProxyOk(r', p) { assert ProxyOk(r, p); }
    }
  }

  lemma SweepConsistent(r: Registry, now: Time)
    requires Consistent(r)
    ensures Consistent(Sweep(r, now))
    ensures forall port :: port in r.proxies ==>
              (port in Sweep(r, now).proxies <==> !Expired(r.devices[r.pool.bindings[port]], now))
  {
    var r' := Sweep(r, now);
    forall port | port in r.pool.bindings
      ensures port in ExpiredPorts(r, now) <==> Expired(r.devices[r.pool.bindings[port]], now)
    {
      assert BindingOk(r, port);
      if port in ExpiredPorts(r, now) {
        var name :| name in r.devices && Expired(r.devices[name], now) && r.devices[name].port == port;
        assert DeviceOk(r, name);
      }
    }
    forall n | n in r'.devices ensures DeviceOk(r', n) { assert DeviceOk(r, n); }
    forall p | p in r'.pool.bindings ensures BindingOk(r', p) { assert BindingOk(r, p); }
    forall w | w in r'.conns ensures ConnOk(r', w) { assert ConnOk(r, w); }
    forall p | p in r.proxies ensures p in r.pool.bindings { assert ProxyOk(r, p); }
    forall p | p in r'.proxies ensures ProxyOk(r', p) { assert ProxyOk(r, p); }
  }

  lemma BeatConsistent(r: Registry, device: Device, now: Time)
    requires Consistent(r)
    ensures Consistent(Beat(r, device, now))
  {
    if device.name in r.devices && r.devices[device.name].id == device.id { HeardConsistent(r, device.name, now); }
  }

  lemma HeardConsistent(r: Registry, name: string, now: Time)
    requires Consistent(r) && name in r.devices
    ensures Consistent(r.(devices := r.devices[name := r.devices[name].(beat := now)]))
  {
    var r' := r.(devices := r.devices[name := r.devices[name].(beat := now)]);
    forall n | n in r'.devices ensures DeviceOk(r', n) { assert DeviceOk(r, n); }
    forall p | p in r'.pool.bindings ensures BindingOk(r', p) { assert BindingOk(r, p); }
    forall w | w in r'.conns ensures ConnOk(r', w) { assert ConnOk(r, w); }
    forall p | p in r'.proxies ensures ProxyOk(r', p) { assert ProxyOk(r, p); }
  }

  // ---- Runs ----------------------------------------------------------------------------

  /** One critical section; `EBeat` carries the device its heartbeat handler looked up earlier. */
  datatype Event =
    | ERegister(ws: Ws, request: Request, now: Time)
    | EDisconnect(ws: Ws)
    | EEnable(name: string, duration: Time, now: Time, bound: bool)
    | EDisable(name: string)
    | ESweep(now: Time)
    | EBeat(device: Device, now: Time)

  function Next(r: Registry, e: Event): Registry {
    match e
    case ERegister(ws, request, now) => Register(r, ws, request, now).0
    case EDisconnect(ws) => Disconnect(r, ws).0
    case EEnable(name, duration, now, bound) => Enable(r, name, duration, now, bound).0
    case EDisable(name) => Disable(r, name).0
    case ESweep(now) => Sweep(r, now)
    case EBeat(device, now) => Beat(r, device, now)
  }

  function Run(r: Registry, events: seq<Event>): Registry
    decreases |events|
  {
    if events == [] then r else Run(Next(r, events[0]), events[1..])
  }

  lemma NextConsistent(r: Registry, e: Event)
    requires Consistent(r)
    ensures Consistent(Next(r, e))
  {
    match e
    case ERegister(ws, request, now) => RegisterConsistent(r, ws, request, now);
    case EDisconnect(ws) => DisconnectConsistent(r, ws);
    case EEnable(name, duration, now, bound) => EnableConsistent(r, name, duration, now, bound);
    case EDisable(name) => DisableConsistent(r, name);
    case ESweep(now) => SweepConsistent(r, now);
    case EBeat(device, now) => BeatConsistent(r, device, now);
  }

  lemma {:induction false} RunConsistent(r: Registry, events: seq<Event>)
    requires Consistent(r)
    ensures Consistent(Run(r, events))
    decreases |events|
  {
    if events != [] {
      NextConsistent(r, events[0]);
      RunConsistent(Next(r, events[0]), events[1..]);
    }
  }

  /**
   The used ports are exactly the device ports, each bound to its own device; no two devices
   share a port; a connection is registered to a device of that connection; a device is enabled
   exactly when `proxies` holds its port, with a proxy of that very device; and `proxies` holds
   nothing else.
   */
  ghost predicate ViewsAgree(r: Registry) {
    && (forall port :: port in r.pool.used <==> exists n :: n in r.devices && r.devices[n].port == port)
    && (forall n :: n in r.devices ==> r.devices[n].name == n && r.pool.start <= r.devices[n].port <= r.pool.end)
    && (forall n :: n in r.devices ==> r.devices[n].port in r.pool.bindings && r.pool.bindings[r.devices[n].port] == n)
    && (forall m, n :: m in r.devices && n in r.devices && r.devices[m].port == r.devices[n].port ==> m == n)
    && (forall ws :: ws in r.conns ==> r.conns[ws] in r.devices && r.devices[r.conns[ws]].ws == ws)
    && (forall n :: n in r.devices ==> (r.devices[n].enabled <==> r.devices[n].port in r.proxies))
    && (forall n :: n in r.devices && r.devices[n].enabled ==>
          r.proxies[r.devices[n].port].device == r.devices[n].id && r.proxies[r.devices[n].port].ws == r.devices[n].ws)
    && (forall port :: port in r.proxies ==> exists n :: n in r.devices && r.devices[n].port == port)
  }

  lemma ConsistentViews(r: Registry)
    requires Consistent(r)
    ensures ViewsAgree(r)
  {
    forall n | n in r.devices ensures DeviceOk(r, n) {}
    forall n | n in r.devices && r.devices[n].enabled ensures ProxyOk(r, r.devices[n].port) { assert DeviceOk(r, n); }
    forall port | port in r.pool.used ensures exists n :: n in r.devices && r.devices[n].port == port {
      assert BindingOk(r, port);
    }
    forall port | port in r.proxies ensures exists n :: n in r.devices && r.devices[n].port == port {
      assert ProxyOk(r, port) && BindingOk(r, port);
    }
  }

  /** After any sequence of critical sections, failed ones included, the maps agree. */
  lemma OneTable(portStart: int, portEnd: int, events: seq<Event>)
    ensures var r := Run(NewRegistry(portStart, portEnd), events);
            ViewsAgree(r) && r.pool.start == portStart && r.pool.end == portEnd
  {
    NewConsistent(portStart, portEnd);
    RunConsistent(NewRegistry(portStart, portEnd), events);
    RunKeepsRange(NewRegistry(portStart, portEnd), events);
    ConsistentViews(Run(NewRegistry(portStart, portEnd), events));
  }

  lemma NextKeepsRange(r: Registry, e: Event)
    requires r.pool.Valid()
    ensures Next(r, e).pool.start == r.pool.start && Next(r, e).pool.end == r.pool.end
  {
    if e.ERegister? { AllocateFirstFree(r.pool, e.request.name); }
  }

  lemma {:induction false} RunKeepsRange(r: Registry, events: seq<Event>)
    requires Consistent(r)
    ensures Run(r, events).pool.start == r.pool.start && Run(r, events).pool.end == r.pool.end
    decreases |events|
  {
    if events != [] {
      NextConsistent(r, events[0]);
      NextKeepsRange(r, events[0]);
      RunKeepsRange(Next(r, events[0]), events[1..]);
    }
  }

  // ---- Routing -------------------------------------------------------------------------

  /** A message is only ever routed to a proxy of the device registered on its WebSocket. */
  lemma RouteStaysHome(r: Registry, ws: Ws)
    requires Consistent(r) && Route(r, ws).Some?
    ensures Route(r, ws).value.ws == ws
    ensures Route(r, ws).value.device == Owner(r, ws).value.id
    ensures Route(r, ws).value.id < r.proxyCount
  {
    assert ConnOk(r, ws) && DeviceOk(r, r.conns[ws]) && ProxyOk(r, Owner(r, ws).value.port);
  }

  /** `proxy` is the proxy the registry holds for the device registered on `ws`. */
  predicate RoutedTo(r: Registry, ws: Ws, proxy: nat) {
    && ws in r.conns && r.conns[ws] in r.devices && r.devices[r.conns[ws]].port in r.proxies
    && r.proxies[r.devices[r.conns[ws]].port].id == proxy
  }

  /** A message is given to a proxy exactly when its WebSocket has a device and the device is enabled. */
  lemma RouteExactly(r: Registry, ws: Ws)
    requires Consistent(r)
    ensures Route(r, ws).Some? <==> ws in r.conns && r.devices[r.conns[ws]].enabled
    ensures Route(r, ws).Some? ==> Route(r, ws).value == r.proxies[r.devices[r.conns[ws]].port]
    ensures forall p: nat :: RoutedTo(r, ws, p) <==> Route(r, ws).Some? && Route(r, ws).value.id == p
  {
    if ws in r.conns { assert ConnOk(r, ws) && DeviceOk(r, r.conns[ws]); }
  }

  lemma RegisterRoutes(r: Registry, w: Ws, request: Request, now: Time, ws: Ws, proxy: nat)
    requires Consistent(r) && RoutedTo(Register(r, w, request, now).0, ws, proxy)
    ensures RoutedTo(r, ws, proxy)
  {
    var r' := Register(r, w, request, now).0;
    RegisterConsistent(r, w, request, now);
    if Register(r, w, request, now).1 == Done {
      assert ConnOk(r', ws) && DeviceOk(r', r'.conns[ws]);
      assert !r'.devices[request.name].enabled && DeviceOk(r', request.name);
    }
  }

  lemma DisconnectRoutes(r: Registry, w: Ws, ws: Ws, proxy: nat)
    requires Consistent(r) && RoutedTo(Disconnect(r, w).0, ws, proxy)
    ensures RoutedTo(r, ws, proxy)
  {
    var r' := Disconnect(r, w).0;
    DisconnectConsistent(r, w);
    assert ConnOk(r', ws);
  }

  lemma EnableRoutes(r: Registry, name: string, duration: Time, now: Time, bound: bool, ws: Ws, proxy: nat)
    requires Consistent(r) && proxy < r.proxyCount
    requires RoutedTo(Enable(r, name, duration, now, bound).0, ws, proxy)
    ensures RoutedTo(r, ws, proxy)
  {
    EnableConsistent(r, name, duration, now, bound);
  }

  /** A WebSocket that stopped being routed to a proxy is never routed to that proxy again. */
  lemma RouteNeverReturns(r: Registry, e: Event, ws: Ws, proxy: nat)
    requires Consistent(r) && proxy < r.proxyCount
    requires RoutedTo(Next(r, e), ws, proxy)
    ensures RoutedTo(r, ws, proxy)
  {
    match e
    case ERegister(w, request, now) => RegisterRoutes(r, w, request, now, ws, proxy);
    case EDisconnect(w) => DisconnectRoutes(r, w, ws, proxy);
    case EEnable(name, duration, now, bound) => EnableRoutes(r, name, duration, now, bound, ws, proxy);
    case EDisable(name) =>
    case ESweep(now) =>
    case EBeat(device, now) =>
  }

  // ---- Capacity ------------------------------------------------------------------------

  /** Two finite maps that are inverse to each other have equally many keys. */
  lemma {:induction false} InverseMapsSameSize<A, B>(f: map<A, B>, g: map<B, A>)
    requires forall a :: a in f ==> f[a] in g && g[f[a]] == a
    requires forall b :: b in g ==> g[b] in f && f[g[b]] == b
    ensures |f| == |g|
    decreases |f|
  {
    if f == map[] {
      forall b | b in g ensures g[b] in f {}
    } else {
      var a :| a in f;
      var f', g' := f - {a}, g - {f[a]};
      InverseMapsSameSize(f', g');
      assert f'.Keys == f.Keys - {a} && g'.Keys == g.Keys - {f[a]};
    }
  }

  lemma DevicesAreUsedPorts(r: Registry)
    requires Consistent(r)
    ensures |r.devices| == |r.pool.used|
    ensures r.pool.start <= r.pool.end + 1 ==> |r.devices| <= r.pool.end - r.pool.start + 1
  {
    var ports := map name | name in r.devices :: r.devices[name].port;
    assert ports.Keys == r.devices.Keys;
    forall name | name in ports ensures ports[name] in r.pool.bindings && r.pool.bindings[ports[name]] == name {
      assert DeviceOk(r, name);
    }
    forall port | port in r.pool.bindings
      ensures r.pool.bindings[port] in ports && ports[r.pool.bindings[port]] == port
    {
      assert BindingOk(r, port);
    }
    InverseMapsSameSize(ports, r.pool.bindings);
    if r.pool.start <= r.pool.end + 1 { PortAccounting(r.pool); }
  }
}
