/**
 What each critical section of the server does, field by field: when it succeeds, what it
 changes then, and that it changes nothing else.
 */
module Sections {
  import opened Wrappers
  import opened PortPools
  import opened Registries

  /** Every device but the one named is as it was. */
  ghost predicate OthersKept(r: Registry, r': Registry, name: string) {
    forall n :: n != name ==>
      (n in r'.devices <==> n in r.devices) && (n in r.devices ==> r'.devices[n] == r.devices[n])
  }

  /** Every connection but `ws` is registered for what it was. */
  ghost predicate OtherConnsKept(r: Registry, r': Registry, ws: Ws) {
    forall v :: v != ws ==> (v in r'.conns <==> v in r.conns) && (v in r.conns ==> r'.conns[v] == r.conns[v])
  }

  /** Every port but `port` has the proxy it had. */
  ghost predicate OtherProxiesKept(r: Registry, r': Registry, port: int) {
    forall p :: p != port ==>
      (p in r'.proxies <==> p in r.proxies) && (p in r.proxies ==> r'.proxies[p] == r.proxies[p])
  }

  /** The record of a device that has just registered. */
  predicate NewRecord(d: Device, ws: Ws, request: Request, now: Time) {
    && d.name == request.name && d.localIP == request.localIP && d.localPort == request.localPort
    && d.ws == ws && d.beat == now && !d.enabled && d.expire.None?
  }

  /** The record of a device that has just been enabled; the rest of it is as it was. */
  predicate EnabledRecord(d: Device, d': Device, duration: Time, now: Time) {
    && d'.enabled && (duration > 0 ==> d'.expire == Some(now + duration)) && (duration <= 0 ==> d'.expire.None?)
    && d'.id == d.id && d'.name == d.name && d'.localIP == d.localIP && d'.localPort == d.localPort
    && d'.port == d.port && d'.ws == d.ws && d'.beat == d.beat
  }

  /** A server starts with no device, no proxy, every port free and the cursor on the first. */
  lemma StartsEmpty(portStart: int, portEnd: int)
    ensures var r := NewRegistry(portStart, portEnd);
      && |r.devices| == 0 && |r.conns| == 0 && |r.proxies| == 0 && r.pool.next == portStart
      && forall port :: r.pool.Free(port) <==> portStart <= port <= portEnd
  {
  }

  /**
   A registration succeeds exactly when the name is new and a port is free. The device then has
   the requested name and target, the first free port in cyclic order and the connection it came
   on, has just been heard of and is not enabled.
   */
  lemma RegisterExactly(r: Registry, ws: Ws, request: Request, now: Time)
    requires Consistent(r)
    ensures Register(r, ws, request, now).1 == NameTaken <==> request.name in r.devices
    ensures Register(r, ws, request, now).1 == NoPort <==>
              request.name !in r.devices && forall port :: !r.pool.Free(port)
    ensures Register(r, ws, request, now).1 == Done <==>
              request.name !in r.devices && exists port :: r.pool.Free(port)
    ensures Register(r, ws, request, now).1 != Done ==> Register(r, ws, request, now).0 == r
    ensures Register(r, ws, request, now).1 == Done ==>
              var r' := Register(r, ws, request, now).0;
              && request.name in r'.devices && ws in r'.conns && r'.conns[ws] == request.name
              && NewRecord(r'.devices[request.name], ws, request, now)
              && r.pool.FirstFree(r'.devices[request.name].port)
              && r'.pool.used == r.pool.used + {r'.devices[request.name].port}
              && OthersKept(r, r', request.name) && OtherConnsKept(r, r', ws) && r'.proxies == r.proxies
  {
    AllocateFirstFree(r.pool, request.name);
    if request.name !in r.devices {
      if free :| r.pool.Free(free) { assert !r.pool.Exhausted(); }
      if Register(r, ws, request, now).1 == Done {
        var port := Allocated(r.pool, request.name).1.value;
        assert r.pool.FirstFree(port);
        RegisterConsistent(r, ws, request, now);
      }
    }
  }

  /** A closed connection takes its device, that device's port and its proxy with it, and nothing else. */
  lemma DisconnectExactly(r: Registry, ws: Ws)
    requires Consistent(r)
    ensures ws !in r.conns ==> Disconnect(r, ws) == (r, None)
    ensures ws in r.conns ==>
              var (r', proxy) := Disconnect(r, ws);
              var d := r.devices[r.conns[ws]];
              && d.name !in r'.devices && ws !in r'.conns && d.port !in r'.proxies
              && r'.pool.used == r.pool.used - {d.port} && r'.pool.next == r.pool.next
              && OthersKept(r, r', d.name) && OtherConnsKept(r, r', ws) && OtherProxiesKept(r, r', d.port)
              && (proxy.Some? <==> d.enabled) && (proxy.Some? ==> proxy.value == r.proxies[d.port])
  {
    if ws in r.conns { assert ConnOk(r, ws) && DeviceOk(r, r.conns[ws]); }
  }

  /**
   Enabling succeeds exactly when the device is there, is not enabled and its port can be bound.
   It then expires after the duration, or never if none was given.
   */
  lemma EnableExactly(r: Registry, name: string, duration: Time, now: Time, bound: bool)
    requires Consistent(r)
    ensures Enable(r, name, duration, now, bound).1 == Done <==> name in r.devices && !r.devices[name].enabled && bound
    ensures Enable(r, name, duration, now, bound).1 != Done ==> Enable(r, name, duration, now, bound).0 == r
    ensures Enable(r, name, duration, now, bound).1 == Done ==>
              var r' := Enable(r, name, duration, now, bound).0;
              var d := r.devices[name];
              && name in r'.devices && EnabledRecord(d, r'.devices[name], duration, now)
              && d.port in r'.proxies && r'.proxies[d.port].device == d.id && r'.proxies[d.port].ws == d.ws
              && d.port !in r.proxies && OtherProxiesKept(r, r', d.port)
              && OthersKept(r, r', name) && r'.conns == r.conns && r'.pool == r.pool
  {
    if name in r.devices { assert DeviceOk(r, name); }
  }

  /** Disabling succeeds exactly when the device is there and enabled, and takes out its proxy. */
  lemma DisableExactly(r: Registry, name: string)
    requires Consistent(r)
    ensures Disable(r, name).1 == Done <==> name in r.devices && r.devices[name].enabled
    ensures Disable(r, name).1 != Done ==> Disable(r, name).0 == r && Disable(r, name).2.None?
    ensures Disable(r, name).1 == Done ==>
              var (r', _, proxy) := Disable(r, name);
              var d := r.devices[name];
              && name in r'.devices && r'.devices[name] == d.(enabled := false, expire := None)
              && d.port in r.proxies && proxy == Some(r.proxies[d.port]) && d.port !in r'.proxies
              && OtherProxiesKept(r, r', d.port)
              && OthersKept(r, r', name) && r'.conns == r.conns && r'.pool == r.pool
  {
    if name in r.devices { assert DeviceOk(r, name); }
  }

  /** A heartbeat finds the device its connection is registered for. */
  lemma OwnerExactly(r: Registry, ws: Ws)
    requires Consistent(r)
    ensures Owner(r, ws).Some? <==> ws in r.conns
    ensures ws in r.conns ==> Owner(r, ws).value == r.devices[r.conns[ws]] && Owner(r, ws).value.ws == ws
  {
    if ws in r.conns { assert ConnOk(r, ws); }
  }

  /** Crediting a heartbeat sets the time of that very record, if it is still there, and nothing else. */
  lemma BeatExactly(r: Registry, device: Device, now: Time)
    requires Consistent(r)
    ensures var r' := Beat(r, device, now);
      && OthersKept(r, r', device.name) && r'.conns == r.conns && r'.pool == r.pool && r'.proxies == r.proxies
      && (device.name in r'.devices <==> device.name in r.devices)
      && (device.name in r.devices ==>
            var d := r.devices[device.name];
            r'.devices[device.name] == if d.id == device.id then d.(beat := now) else d)
  {
  }

  /** A heartbeat sweep closes exactly the connections of devices not heard of for longer than the timeout. */
  lemma TimedOutExactly(r: Registry, now: Time, timeout: Time, ws: Ws)
    ensures ws in TimedOut(r, now, timeout) <==>
            exists name :: name in r.devices && r.devices[name].ws == ws && now > r.devices[name].beat + timeout
  {
    if name :| name in r.devices && r.devices[name].ws == ws && now > r.devices[name].beat + timeout {
      assert Silent(r.devices[name], now, timeout);
    }
  }

  /**
   A registration is turned away before its second section exactly when the token is wrong, the
   name empty, the local port not positive, or a positive device limit reached.
   */
  lemma RefusesExactly(r: Registry, maxDevices: int, request: Request, authorised: bool)
    ensures Refuses(r, maxDevices, request, authorised) <==>
            !authorised || |request.name| == 0 || request.localPort < 1 || (maxDevices > 0 && |r.devices| >= maxDevices)
  {
  }

  /** What a device record says of the registration it stems from. */
  function RequestOf(d: Device): Request { Request(d.name, d.localIP, d.localPort) }

  /** Only a registration adds a device, with what was requested; nothing changes that later. */
  lemma RecordsKept(r: Registry, e: Event, name: string)
    requires Consistent(r) && name in Next(r, e).devices
    ensures var d' := Next(r, e).devices[name];
      || (name in r.devices && RequestOf(d') == RequestOf(r.devices[name]) && d'.ws == r.devices[name].ws)
      || (e.ERegister? && RequestOf(d') == e.request && d'.ws == e.ws)
  {
    match e
    case ERegister(ws, request, now) => RegisterExactly(r, ws, request, now);
    case EDisconnect(ws) => DisconnectExactly(r, ws);
    case EEnable(other, duration, now, bound) => EnableExactly(r, other, duration, now, bound);
    case EDisable(other) => DisableExactly(r, other);
    case ESweep(now) =>
    case EBeat(device, now) => BeatExactly(r, device, now);
  }
}
