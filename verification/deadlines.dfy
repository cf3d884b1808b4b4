/**
 What the two periodic sweeps promise over whole timed runs: the expiry sweep
 (server.go:559-599) and the heartbeat sweep (server.go:389-417).
 */
module Deadlines {
  import opened Wrappers
  import opened PortPools
  import opened Registries
  import opened Sections

  const SECOND: Time := 1_000_000_000
  const SWEEP_PERIOD: Time := 60 * SECOND
  const CHECK_PERIOD: Time := 10 * SECOND

  /**
   `closed` are the WebSockets a heartbeat sweep has closed; `heard` says when a registration or
   a heartbeat was last handled on a WebSocket.
   */
  datatype Timed = Timed(r: Registry, timeout: Time, now: Time, lastSweep: Time, lastCheck: Time,
                         closed: set<Ws>, heard: map<Ws, Time>)

  datatype Tick = Tick(at: Time, what: What)
  datatype What = Section(e: Event) | HeartbeatCheck

  /** The reading of the clock an event carries, if it carries one. */
  function ClockOf(e: Event): Option<Time> {
    match e
    case ERegister(_, _, now) => Some(now)
    case EEnable(_, _, now, _) => Some(now)
    case ESweep(now) => Some(now)
    case EBeat(_, now) => Some(now)
    case EDisconnect(_) => None
    case EDisable(_) => None
  }

  /** Time does not go back and neither sweep is overdue. */
  predicate OnTime(t: Timed, tick: Tick) {
    && t.now <= tick.at
    && tick.at <= t.lastSweep + SWEEP_PERIOD
    && tick.at <= t.lastCheck + CHECK_PERIOD
    && (tick.what.Section? && ClockOf(tick.what.e).Some? ==> ClockOf(tick.what.e).value == tick.at)
  }

  function Advance(t: Timed, tick: Tick): Timed {
    match tick.what
    case HeartbeatCheck =>
      t.(now := tick.at, lastCheck := tick.at, closed := t.closed + TimedOut(t.r, tick.at, t.timeout))
    case Section(e) =>
      t.(now := tick.at, r := Next(t.r, e),
         lastSweep := if e.ESweep? then tick.at else t.lastSweep,
         heard := if e.ERegister? && Register(t.r, e.ws, e.request, e.now).1 == Done then t.heard[e.ws := e.now]
                  else if e.EBeat? && e.device.ws in t.heard then t.heard[e.device.ws := e.now]
                  else t.heard)
  }

  predicate Punctual(t: Timed, ticks: seq<Tick>)
    decreases |ticks|
  {
    ticks == [] || (OnTime(t, ticks[0]) && Punctual(Advance(t, ticks[0]), ticks[1..]))
  }

  function At(t: Timed, ticks: seq<Tick>): Timed
    decreases |ticks|
  {
    if ticks == [] then t else At(Advance(t, ticks[0]), ticks[1..])
  }

  function Boot(portStart: int, portEnd: int, timeout: Time, now: Time): Timed {
    Timed(NewRegistry(portStart, portEnd), timeout, now, now, now, {}, map[])
  }

  // ---- Expiry --------------------------------------------------------------------------

  /** The device still carries a promise that the next sweep will keep. */
  predicate NotOverdue(t: Timed, name: string)
    requires name in t.r.devices
  {
    t.r.devices[name].expire.Some? ==> t.lastSweep <= t.r.devices[name].expire.value
  }

  ghost predicate ExpiryInv(t: Timed) {
    && Consistent(t.r)
    && t.lastSweep <= t.now <= t.lastSweep + SWEEP_PERIOD
    && forall name :: name in t.r.devices ==> NotOverdue(t, name)
  }

  /**
   A sweep disables exactly the devices whose expiry has passed and takes out their proxies; the
   others, those without expiry or at it included, keep record and proxy.
   */
  lemma SweepClearsExpired(r: Registry, now: Time)
    requires Consistent(r)
    ensures forall n :: n in Sweep(r, now).devices ==>
              var d := Sweep(r, now).devices[n]; (d.enabled && d.expire.Some? ==> now <= d.expire.value)
    ensures forall n :: n in r.devices && (r.devices[n].expire.None? || now <= r.devices[n].expire.value) ==>
              && n in Sweep(r, now).devices && Sweep(r, now).devices[n] == r.devices[n]
              && (r.devices[n].port in r.proxies ==>
                    r.devices[n].port in Sweep(r, now).proxies
                    && Sweep(r, now).proxies[r.devices[n].port] == r.proxies[r.devices[n].port])
    ensures forall n :: n in r.devices && r.devices[n].expire.Some? && now > r.devices[n].expire.value ==>
              && n in Sweep(r, now).devices
              && Sweep(r, now).devices[n] == r.devices[n].(enabled := false, expire := None)
              && r.devices[n].port in r.proxies && r.devices[n].port !in Sweep(r, now).proxies
    ensures Sweep(r, now).devices.Keys == r.devices.Keys && Sweep(r, now).conns == r.conns
            && Sweep(r, now).pool == r.pool
    ensures forall p :: p in SweptProxies(r, now) <==>
              p.port in r.proxies && r.proxies[p.port] == p && p.port !in Sweep(r, now).proxies
  {
    SweepConsistent(r, now);
    forall n | n in r.devices ensures DeviceOk(r, n) && DeviceOk(Sweep(r, now), n) {}
    forall p | p in SweptProxies(r, now)
      ensures p.port in r.proxies && r.proxies[p.port] == p && p.port !in Sweep(r, now).proxies
    {
      var port :| port in r.proxies && port in ExpiredPorts(r, now) && r.proxies[port] == p;
      assert ProxyOk(r, port);
    }
  }

  lemma AdvanceExpiry(t: Timed, tick: Tick)
    requires ExpiryInv(t) && OnTime(t, tick)
    ensures ExpiryInv(Advance(t, tick))
  {
    forall name | name in Advance(t, tick).r.devices ensures NotOverdue(Advance(t, tick), name) {
      StaysNotOverdue(t, tick, name);
    }
    if tick.what.Section? { NextConsistent(t.r, tick.what.e); }
  }

  lemma StaysNotOverdue(t: Timed, tick: Tick, name: string)
    requires OnTime(t, tick) && name in Advance(t, tick).r.devices && t.lastSweep <= t.now
    requires name in t.r.devices ==> NotOverdue(t, name) && DeviceOk(t.r, name)
    ensures NotOverdue(Advance(t, tick), name)
  {
    if tick.what.Section? {
      match tick.what.e
      case ERegister(_, _, _) =>
      case EDisconnect(_) =>
      case EEnable(_, _, _, _) =>
      case EDisable(_) =>
      case ESweep(_) =>
      case EBeat(_, _) =>
    }
  }

  /** With sweeps at most 60 s apart, no device stays enabled more than 60 s past its expiry. */
  lemma {:induction false} ExpiryBound(t: Timed, ticks: seq<Tick>)
    requires ExpiryInv(t) && Punctual(t, ticks)
    ensures ExpiryInv(At(t, ticks))
    ensures var t' := At(t, ticks);
            forall n :: n in t'.r.devices && t'.r.devices[n].enabled && t'.r.devices[n].expire.Some?
              ==> t'.now <= t'.r.devices[n].expire.value + 60 * 1_000_000_000
    decreases |ticks|
  {
    if ticks != [] {
      AdvanceExpiry(t, ticks[0]);
      ExpiryBound(Advance(t, ticks[0]), ticks[1..]);
    } else {
      forall n | n in t.r.devices && t.r.devices[n].expire.Some?
        ensures t.now <= t.r.devices[n].expire.value + SWEEP_PERIOD { assert NotOverdue(t, n); }
    }
  }

  // ---- Enabled for as long as was asked ------------------------------------------------

  /** The tick enables the device, successfully, for `duration`. */
  predicate EnablesAt(t: Timed, tick: Tick, name: string, duration: Time) {
    && tick.what.Section? && tick.what.e.EEnable? && tick.what.e.name == name && tick.what.e.duration == duration
    && tick.what.e.bound && name in t.r.devices && !t.r.devices[name].enabled
  }

  /** No tick of the run enables the device. */
  predicate NotEnabledAgain(ticks: seq<Tick>, name: string) {
    forall i :: 0 <= i < |ticks| ==>
      !(ticks[i].what.Section? && ticks[i].what.e.EEnable? && ticks[i].what.e.name == name)
  }

  /** If the device is enabled it expires at `x`, or never if `x` is none. */
  predicate ExpiresAt(r: Registry, name: string, x: Option<Time>) {
    name in r.devices && r.devices[name].enabled ==> r.devices[name].expire == x
  }

  lemma KeepsExpiry(r: Registry, e: Event, name: string, x: Option<Time>)
    requires Consistent(r) && ExpiresAt(r, name, x) && !(e.EEnable? && e.name == name)
    ensures ExpiresAt(Next(r, e), name, x)
  {
    match e
    case ERegister(ws, request, now) => RegisterExactly(r, ws, request, now);
    case EDisconnect(ws) => DisconnectExactly(r, ws);
    case EEnable(other, duration, now, bound) => EnableExactly(r, other, duration, now, bound);
    case EDisable(other) => DisableExactly(r, other);
    case ESweep(now) => SweepClearsExpired(r, now);
    case EBeat(device, now) => BeatExactly(r, device, now);
  }

  lemma {:induction false} ExpiryKept(t: Timed, ticks: seq<Tick>, name: string, x: Option<Time>)
    requires Consistent(t.r) && ExpiresAt(t.r, name, x) && NotEnabledAgain(ticks, name)
    ensures ExpiresAt(At(t, ticks).r, name, x)
    decreases |ticks|
  {
    if ticks != [] {
      if ticks[0].what.Section? {
        NextConsistent(t.r, ticks[0].what.e);
        KeepsExpiry(t.r, ticks[0].what.e, name, x);
      }
      ExpiryKept(Advance(t, ticks[0]), ticks[1..], name, x);
    }
  }

  /**
   A device enabled for a limited time is not enabled any more 60 s after that time, unless it was
   enabled again.
   */
  lemma EnabledNoLonger(t: Timed, tick: Tick, ticks: seq<Tick>, name: string, duration: Time)
    requires ExpiryInv(t) && OnTime(t, tick) && Punctual(Advance(t, tick), ticks)
    requires EnablesAt(t, tick, name, duration) && duration > 0 && NotEnabledAgain(ticks, name)
    ensures var t' := At(Advance(t, tick), ticks);
            name in t'.r.devices && t'.r.devices[name].enabled ==> t'.now <= tick.at + duration + 60 * 1_000_000_000
  {
    var u := Advance(t, tick);
    EnableExactly(t.r, name, duration, tick.at, true);
    NextConsistent(t.r, tick.what.e);
    AdvanceExpiry(t, tick);
    ExpiryKept(u, ticks, name, Some(tick.at + duration));
    ExpiryBound(u, ticks);
  }

  /** Nothing but time may take it down: no tick disables the device or closes its connection. */
  predicate LeftAlone(ticks: seq<Tick>, name: string, ws: Ws) {
    forall i :: 0 <= i < |ticks| ==>
      !(ticks[i].what.Section? && (ticks[i].what.e == EDisable(name) || ticks[i].what.e == EDisconnect(ws)))
  }

  /** No clock in the run is read after `x`. */
  predicate NotAfter(ticks: seq<Tick>, x: Option<Time>) {
    forall i :: 0 <= i < |ticks| && x.Some? ==> ticks[i].at <= x.value
  }

  predicate EnabledUntil(r: Registry, name: string, ws: Ws, x: Option<Time>) {
    name in r.devices && r.devices[name].enabled && r.devices[name].expire == x && r.devices[name].ws == ws
  }

  lemma StaysEnabled(r: Registry, e: Event, name: string, ws: Ws, x: Option<Time>)
    requires Consistent(r) && EnabledUntil(r, name, ws, x) && e != EDisable(name) && e != EDisconnect(ws)
    requires e.ESweep? && x.Some? ==> e.now <= x.value
    ensures EnabledUntil(Next(r, e), name, ws, x)
  {
    assert DeviceOk(r, name);
    match e
    case ERegister(v, request, now) => RegisterExactly(r, v, request, now);
    case EDisconnect(v) =>
      DisconnectExactly(r, v);
      if v in r.conns { assert ConnOk(r, v) && DeviceOk(r, r.conns[v]); }
    case EEnable(other, duration, now, bound) => EnableExactly(r, other, duration, now, bound);
    case EDisable(other) => DisableExactly(r, other);
    case ESweep(now) => SweepClearsExpired(r, now);
    case EBeat(device, now) => BeatExactly(r, device, now);
  }

  lemma {:induction false} EnabledKept(t: Timed, ticks: seq<Tick>, name: string, ws: Ws, x: Option<Time>)
    requires Consistent(t.r) && EnabledUntil(t.r, name, ws, x) && LeftAlone(ticks, name, ws)
    requires Punctual(t, ticks) && NotAfter(ticks, x)
    ensures EnabledUntil(At(t, ticks).r, name, ws, x)
    decreases |ticks|
  {
    if ticks != [] {
      if ticks[0].what.Section? {
        NextConsistent(t.r, ticks[0].what.e);
        StaysEnabled(t.r, ticks[0].what.e, name, ws, x);
      }
      EnabledKept(Advance(t, ticks[0]), ticks[1..], name, ws, x);
    }
  }

  /**
   And it stays enabled until then, for ever if no time was given, unless somebody disables it or
   its connection is closed: no sweep comes too early.
   */
  lemma EnabledAsAsked(t: Timed, tick: Tick, ticks: seq<Tick>, name: string, duration: Time)
    requires Consistent(t.r) && OnTime(t, tick) && Punctual(Advance(t, tick), ticks)
    requires EnablesAt(t, tick, name, duration)
    requires LeftAlone(ticks, name, t.r.devices[name].ws)
    requires NotAfter(ticks, if duration > 0 then Some(tick.at + duration) else None)
    ensures name in At(Advance(t, tick), ticks).r.devices && At(Advance(t, tick), ticks).r.devices[name].enabled
  {
    EnableExactly(t.r, name, duration, tick.at, true);
    NextConsistent(t.r, tick.what.e);
    EnabledKept(Advance(t, tick), ticks, name, t.r.devices[name].ws,
                if duration > 0 then Some(tick.at + duration) else None);
  }

  // ---- Heartbeats ----------------------------------------------------------------------

  predicate Checked(t: Timed, name: string)
    requires name in t.r.devices
  {
    var d := t.r.devices[name];
    d.ws in t.closed || t.lastCheck - d.beat <= t.timeout
  }

  ghost predicate HeartbeatInv(t: Timed) {
    && Consistent(t.r) && 0 <= t.timeout
    && t.lastCheck <= t.now <= t.lastCheck + CHECK_PERIOD
    && forall name :: name in t.r.devices ==> Checked(t, name)
  }

  lemma AdvanceHeartbeat(t: Timed, tick: Tick)
    requires HeartbeatInv(t) && OnTime(t, tick)
    ensures HeartbeatInv(Advance(t, tick))
  {
    forall name | name in Advance(t, tick).r.devices ensures Checked(Advance(t, tick), name) {
      StaysChecked(t, tick, name);
    }
    if tick.what.Section? { NextConsistent(t.r, tick.what.e); }
  }

  lemma StaysChecked(t: Timed, tick: Tick, name: string)
    requires OnTime(t, tick) && name in Advance(t, tick).r.devices && t.lastCheck <= t.now && 0 <= t.timeout
    requires name in t.r.devices ==> Checked(t, name)
    ensures Checked(Advance(t, tick), name)
  {
    match tick.what
    case HeartbeatCheck =>
      if Silent(t.r.devices[name], tick.at, t.timeout) {
        assert t.r.devices[name].ws in TimedOut(t.r, tick.at, t.timeout);
      }
    case Section(e) =>
      match e
      case ERegister(_, _, _) =>
      case EDisconnect(_) =>
      case EEnable(_, _, _, _) =>
      case EDisable(_) =>
      case ESweep(_) =>
      case EBeat(_, _) =>
  }

  /** A device that falls silent has its connection closed within the timeout plus one 10 s sweep. */
  lemma {:induction false} SilenceBound(t: Timed, ticks: seq<Tick>)
    requires HeartbeatInv(t) && Punctual(t, ticks)
    ensures HeartbeatInv(At(t, ticks))
    ensures var t' := At(t, ticks);
            forall n :: n in t'.r.devices ==>
              t'.r.devices[n].ws in t'.closed
              || t'.now - t'.r.devices[n].beat <= t'.timeout + 10 * 1_000_000_000
    decreases |ticks|
  {
    if ticks != [] {
      AdvanceHeartbeat(t, ticks[0]);
      SilenceBound(Advance(t, ticks[0]), ticks[1..]);
    } else {
      forall n | n in t.r.devices
        ensures t.r.devices[n].ws in t.closed || t.now - t.r.devices[n].beat <= t.timeout + CHECK_PERIOD
      { assert Checked(t, n); }
    }
  }

  /** The disconnect step then frees name and port, so the same client can register again at once. */
  lemma ReconnectSucceeds(r: Registry, ws: Ws, again: Ws, request: Request, now: Time)
    requires Consistent(r) && Owner(r, ws).Some? && request.name == Owner(r, ws).value.name
    ensures var freed := Disconnect(r, ws).0;
      && Owner(freed, ws).None? && request.name !in freed.devices
      && freed.pool.Free(Owner(r, ws).value.port)
      && Register(freed, again, request, now).1 == Done
      && Owner(Register(freed, again, request, now).0, again).Some?
  {
    assert ConnOk(r, ws) && DeviceOk(r, r.conns[ws]);
    var freed := Disconnect(r, ws).0;
    DisconnectConsistent(r, ws);
    AllocateFirstFree(freed.pool, request.name);
    assert !freed.pool.Exhausted() by { assert freed.pool.Free(Owner(r, ws).value.port); }
  }

  /**
   A heartbeat is credited to the device its connection is registered for: one goroutine handles
   the messages of a connection in turn.
   */
  predicate InTurn(t: Timed, tick: Tick) {
    tick.what.Section? && tick.what.e.EBeat? ==>
      var device := tick.what.e.device;
      var owner := Owner(t.r, device.ws);
      owner.Some? && owner.value.id == device.id && owner.value.name == device.name
  }

  predicate HeartbeatsInTurn(t: Timed, ticks: seq<Tick>)
    decreases |ticks|
  {
    ticks == [] || (InTurn(t, ticks[0]) && HeartbeatsInTurn(Advance(t, ticks[0]), ticks[1..]))
  }

  /** Heartbeats come in turn, and a registration is the first one on its connection. */
  predicate Orderly(t: Timed, tick: Tick) {
    && InTurn(t, tick)
    && (tick.what.Section? && tick.what.e.ERegister? ==> tick.what.e.ws !in t.heard)
  }

  predicate RegistersOnce(t: Timed, ticks: seq<Tick>)
    decreases |ticks|
  {
    ticks == [] || (Orderly(t, ticks[0]) && RegistersOnce(Advance(t, ticks[0]), ticks[1..]))
  }

  /** `devices` and `conns` are inverse to each other, and a device was last heard of when its record says. */
  predicate Owned(t: Timed, name: string)
    requires name in t.r.devices
  {
    var d := t.r.devices[name];
    d.ws in t.heard && d.beat == t.heard[d.ws] && d.ws in t.r.conns && t.r.conns[d.ws] == name
  }

  ghost predicate OnceInv(t: Timed) {
    Consistent(t.r) && forall name :: name in t.r.devices ==> Owned(t, name)
  }

  lemma AdvanceOnce(t: Timed, tick: Tick)
    requires OnceInv(t) && Orderly(t, tick)
    ensures OnceInv(Advance(t, tick))
  {
    forall name | name in Advance(t, tick).r.devices ensures Owned(Advance(t, tick), name) {
      if name in t.r.devices { assert Owned(t, name) && DeviceOk(t.r, name); }
      if tick.what.Section? { ConnOfEvent(t.r, tick.what.e); }
      StaysOwned(t, tick, name);
    }
    if tick.what.Section? { NextConsistent(t.r, tick.what.e); }
  }

  /** The connection an event is about. */
  function ConnOf(e: Event): Option<Ws> {
    match e
    case EDisconnect(ws) => Some(ws)
    case EBeat(device, _) => Some(device.ws)
    case _ => None
  }

  predicate ConnKnown(r: Registry, e: Event) {
    ConnOf(e).Some? && ConnOf(e).value in r.conns ==>
      ConnOk(r, ConnOf(e).value) && r.devices[r.conns[ConnOf(e).value]].name == r.conns[ConnOf(e).value]
  }

  lemma StaysOwned(t: Timed, tick: Tick, name: string)
    requires name in Advance(t, tick).r.devices && Orderly(t, tick)
    requires name in t.r.devices ==> Owned(t, name) && t.r.devices[name].name == name
    requires tick.what.Section? ==> ConnKnown(t.r, tick.what.e)
    ensures Owned(Advance(t, tick), name)
  {
    if tick.what.Section? {
      match tick.what.e
      case ERegister(_, _, _) =>
      case EDisconnect(ws) =>
      case EEnable(_, _, _, _) =>
      case EDisable(_) =>
      case ESweep(_) =>
      case EBeat(_, _) =>
    }
  }

  /** A server that was just started satisfies what the bounds ask for. */
  lemma BootInv(portStart: int, portEnd: int, timeout: Time, now: Time)
    requires 0 <= timeout
    ensures var t := Boot(portStart, portEnd, timeout, now); ExpiryInv(t) && HeartbeatInv(t) && OnceInv(t)
  {
    NewConsistent(portStart, portEnd);
  }

  /** When each connection registers at most once, devices and connections correspond one to one. */
  lemma {:induction false} OneDevicePerConnection(t: Timed, ticks: seq<Tick>)
    requires OnceInv(t) && RegistersOnce(t, ticks)
    ensures OnceInv(At(t, ticks))
    ensures var r := At(t, ticks).r;
            && (forall n :: n in r.devices ==> r.devices[n].ws in r.conns && r.conns[r.devices[n].ws] == n)
            && (forall w :: w in r.conns ==> r.conns[w] in r.devices && r.devices[r.conns[w]].ws == w)
    decreases |ticks|
  {
    if ticks != [] {
      AdvanceOnce(t, ticks[0]);
      OneDevicePerConnection(Advance(t, ticks[0]), ticks[1..]);
    } else {
      forall n | n in t.r.devices ensures t.r.devices[n].ws in t.r.conns && t.r.conns[t.r.devices[n].ws] == n {
        assert Owned(t, n);
      }
      forall w | w in t.r.conns ensures t.r.conns[w] in t.r.devices && t.r.devices[t.r.conns[w]].ws == w {
        assert ConnOk(t.r, w);
      }
    }
  }

  /** At every tick of the run the last registration or heartbeat on `ws` is no older than the timeout. */
  predicate KeepsBeating(t: Timed, ticks: seq<Tick>, ws: Ws)
    decreases |ticks|
  {
    ticks == [] ||
      (&& (ws in t.r.conns && ws in t.heard ==> ticks[0].at - t.heard[ws] <= t.timeout)
       && KeepsBeating(Advance(t, ticks[0]), ticks[1..], ws))
  }

  /**
   When each connection registers at most once, a connection that keeps sending heartbeats is
   never closed by the heartbeat sweep.
   */
  lemma {:induction false} BeatingIsNeverClosed(t: Timed, ticks: seq<Tick>, ws: Ws)
    requires OnceInv(t) && RegistersOnce(t, ticks) && KeepsBeating(t, ticks, ws)
    requires ws !in t.closed
    ensures ws !in At(t, ticks).closed
    decreases |ticks|
  {
    if ticks != [] {
      AdvanceOnce(t, ticks[0]);
      forall name | name in t.r.devices && t.r.devices[name].ws == ws
        ensures ws in t.r.conns && ws in t.heard && t.r.devices[name].beat == t.heard[ws]
      { assert Owned(t, name); }
      BeatingIsNeverClosed(Advance(t, ticks[0]), ticks[1..], ws);
    }
  }

  /** And one from which nothing was heard is closed within the timeout plus one 10 s sweep. */
  lemma SilentIsClosed(t: Timed, ticks: seq<Tick>, ws: Ws)
    requires HeartbeatInv(t) && OnceInv(t) && Punctual(t, ticks) && RegistersOnce(t, ticks)
    requires ws in At(t, ticks).r.conns
    ensures ws in At(t, ticks).heard
    ensures ws in At(t, ticks).closed
            || At(t, ticks).now - At(t, ticks).heard[ws] <= At(t, ticks).timeout + 10 * 1_000_000_000
  {
    SilenceBound(t, ticks);
    OneDevicePerConnection(t, ticks);
    var t' := At(t, ticks);
    assert ConnOk(t'.r, ws) && Owned(t', t'.r.conns[ws]);
  }

  // ---- Connections that registered more than once --------------------------------------

  /** The device that `conns` names for a connection carries the time the connection was last heard. */
  predicate OwnerHeard(t: Timed, ws: Ws) {
    Owner(t.r, ws).Some? ==> ws in t.heard && Owner(t.r, ws).value.beat == t.heard[ws]
  }

  ghost predicate OwnerInv(t: Timed) { Consistent(t.r) && forall ws :: OwnerHeard(t, ws) }

  lemma AdvanceOwner(t: Timed, tick: Tick)
    requires OwnerInv(t) && InTurn(t, tick)
    ensures OwnerInv(Advance(t, tick))
  {
    forall ws ensures OwnerHeard(Advance(t, tick), ws) {
      assert OwnerHeard(t, ws);
      if tick.what.Section? {
        if ws in t.r.conns { assert ConnOk(t.r, ws) && DeviceOk(t.r, t.r.conns[ws]); }
        ConnOfEvent(t.r, tick.what.e);
        OwnerStaysHeard(t, tick, ws);
      }
    }
    if tick.what.Section? { NextConsistent(t.r, tick.what.e); }
  }

  lemma ConnOfEvent(r: Registry, e: Event)
    requires Consistent(r)
    ensures ConnKnown(r, e)
  {
    if ConnOf(e).Some? && ConnOf(e).value in r.conns {
      assert ConnOk(r, ConnOf(e).value) && DeviceOk(r, r.conns[ConnOf(e).value]);
    }
  }

  lemma OwnerStaysHeard(t: Timed, tick: Tick, ws: Ws)
    requires OwnerHeard(t, ws) && InTurn(t, tick) && tick.what.Section? && ConnKnown(t.r, tick.what.e)
    requires ws in t.r.conns ==> ConnOk(t.r, ws) && t.r.devices[t.r.conns[ws]].name == t.r.conns[ws]
    ensures OwnerHeard(Advance(t, tick), ws)
  {
    match tick.what.e
    case ERegister(_, _, _) =>
    case EDisconnect(_) =>
    case EEnable(_, _, _, _) =>
    case EDisable(_) =>
    case ESweep(_) =>
    case EBeat(_, _) =>
  }

  /**
   Some device other than the one `conns` names is registered on `ws`, and its record is older
   than the timeout.
   */
  ghost predicate StaleTwin(t: Timed, at: Time, ws: Ws) {
    exists name :: name in t.r.devices && t.r.devices[name].ws == ws && at > t.r.devices[name].beat + t.timeout
      && !(ws in t.r.conns && t.r.conns[ws] == name)
  }

  /** Tick number `i` of the run is a heartbeat sweep that finds a stale twin on `ws`. */
  ghost predicate TwinAt(t: Timed, ticks: seq<Tick>, i: nat, ws: Ws) {
    i < |ticks| && ticks[i].what.HeartbeatCheck? && StaleTwin(At(t, ticks[..i]), ticks[i].at, ws)
  }

  /**
   A connection that keeps sending heartbeats is closed if and only if, at some heartbeat sweep,
   another device registered on it has a record older than the timeout.
   */
  lemma {:induction false} BeatingClosedExactly(t: Timed, ticks: seq<Tick>, ws: Ws)
    requires OwnerInv(t) && HeartbeatsInTurn(t, ticks) && KeepsBeating(t, ticks, ws) && ws !in t.closed
    ensures ws in At(t, ticks).closed <==> exists i: nat :: TwinAt(t, ticks, i, ws)
    decreases |ticks|
  {
    if ticks != [] {
      var next := Advance(t, ticks[0]);
      TwinsLater(t, ticks, ws);
      AdvanceOwner(t, ticks[0]);
      FirstSweep(t, ticks[0], ws);
      if ws in next.closed {
        assert ticks[..0] == [];
        assert TwinAt(t, ticks, 0, ws);
        ClosedStays(next, ticks[1..], ws);
      } else {
        BeatingClosedExactly(next, ticks[1..], ws);
        assert ticks[..0] == [];
        assert !TwinAt(t, ticks, 0, ws);
        if i: nat :| TwinAt(t, ticks, i, ws) {
          assert TwinAt(next, ticks[1..], i - 1, ws);
        }
      }
    }
  }

  lemma FirstSweep(t: Timed, tick: Tick, ws: Ws)
    requires OwnerHeard(t, ws) && ws !in t.closed
    requires ws in t.r.conns && ws in t.heard ==> tick.at - t.heard[ws] <= t.timeout
    requires Consistent(t.r)
    ensures ws in Advance(t, tick).closed <==> tick.what.HeartbeatCheck? && StaleTwin(t, tick.at, ws)
  {
    if ws in t.r.conns { assert ConnOk(t.r, ws); }
    if tick.what.HeartbeatCheck? && StaleTwin(t, tick.at, ws) {
      assert ws in TimedOut(t.r, tick.at, t.timeout);
    }
  }

  lemma TwinsLater(t: Timed, ticks: seq<Tick>, ws: Ws)
    requires ticks != []
    ensures forall i: nat :: 0 < i ==>
            (TwinAt(t, ticks, i, ws) <==> TwinAt(Advance(t, ticks[0]), ticks[1..], i - 1, ws))
    ensures forall i: nat :: TwinAt(Advance(t, ticks[0]), ticks[1..], i, ws) ==> TwinAt(t, ticks, i + 1, ws)
  {
    forall i: nat | 0 < i < |ticks| ensures At(t, ticks[..i]) == At(Advance(t, ticks[0]), ticks[1..][..i - 1]) {
      assert ticks[..i][1..] == ticks[1..][..i - 1];
    }
  }

  lemma {:induction false} ClosedStays(t: Timed, ticks: seq<Tick>, ws: Ws)
    requires ws in t.closed
    ensures ws in At(t, ticks).closed
    decreases |ticks|
  {
    if ticks != [] { ClosedStays(Advance(t, ticks[0]), ticks[1..], ws); }
  }

  /**
   So one registration per connection is needed: here is a run of a punctual server on which
   connection 1 registers twice, keeps sending heartbeats, and is closed.
   */
  lemma SecondRegistrationGetsClosed()
    ensures exists ticks ::
              var t := Boot(10000, 11000, 9 * SECOND, 0);
              && Punctual(t, ticks) && HeartbeatsInTurn(t, ticks) && KeepsBeating(t, ticks, 1)
              && 1 in At(t, ticks).closed
  {
    var t := Boot(10000, 11000, 9 * SECOND, 0);
    var a := Tick(0, Section(ERegister(1, Request("a", "", 80), 0)));
    var b := Tick(0, Section(ERegister(1, Request("b", "", 80), 0)));
    var t2 := Advance(Advance(t, a), b);
    TwoOnOne(t);
    var beat := Tick(5 * SECOND, Section(EBeat(Owner(t2.r, 1).value, 5 * SECOND)));
    var check := Tick(10 * SECOND, HeartbeatCheck);
    BeatThenCheck(t2, beat, check);
    RunOf(Advance(t, a), b, [beat, check], 1);
    RunOf(t, a, [b, beat, check], 1);
    assert [a] + [b, beat, check] == [a, b, beat, check] && [b] + [beat, check] == [b, beat, check];
  }

  /** Two devices are registered on connection 1, which has just been heard. */
  predicate Twins(t: Timed) {
    && t.timeout == 9 * SECOND && t.now == 0 && t.lastSweep == 0 && t.lastCheck == 0
    && 1 in t.heard && t.heard[1] == 0
    && "a" in t.r.devices && t.r.devices["a"].ws == 1 && t.r.devices["a"].beat == 0 && t.r.devices["a"].name == "a"
    && 1 in t.r.conns && t.r.conns[1] == "b" && "b" in t.r.devices && t.r.devices["b"].ws == 1
    && t.r.devices["b"].name == "b"
  }

  lemma TwoOnOne(t: Timed)
    requires t == Boot(10000, 11000, 9 * SECOND, 0)
    ensures var a := Tick(0, Section(ERegister(1, Request("a", "", 80), 0)));
            var b := Tick(0, Section(ERegister(1, Request("b", "", 80), 0)));
            Twins(Advance(Advance(t, a), b))
  {
  }

  lemma BeatThenCheck(t: Timed, beat: Tick, check: Tick)
    requires Twins(t) && beat == Tick(5 * SECOND, Section(EBeat(Owner(t.r, 1).value, 5 * SECOND)))
    requires check == Tick(10 * SECOND, HeartbeatCheck)
    ensures Punctual(t, [beat, check]) && HeartbeatsInTurn(t, [beat, check]) && KeepsBeating(t, [beat, check], 1)
    ensures 1 in At(t, [beat, check]).closed
  {
    var u := Advance(t, beat);
    assert Silent(u.r.devices["a"], 10 * SECOND, 9 * SECOND);
    assert 1 in TimedOut(u.r, 10 * SECOND, 9 * SECOND);
    RunOf(u, check, [], 1);
    RunOf(t, beat, [check], 1);
    assert [check] + [] == [check] && [beat] + [check] == [beat, check];
  }

  /** One more tick in front of a run. */
  lemma RunOf(t: Timed, tick: Tick, rest: seq<Tick>, ws: Ws)
    requires OnTime(t, tick) && InTurn(t, tick)
    requires ws in t.r.conns && ws in t.heard ==> tick.at - t.heard[ws] <= t.timeout
    requires var u := Advance(t, tick); Punctual(u, rest) && HeartbeatsInTurn(u, rest) && KeepsBeating(u, rest, ws)
    ensures var ticks := [tick] + rest;
      && Punctual(t, ticks) && HeartbeatsInTurn(t, ticks) && KeepsBeating(t, ticks, ws)
      && At(t, ticks) == At(Advance(t, tick), rest)
  {
    assert ([tick] + rest)[1..] == rest;
  }

  // ---- From a server that was just started ---------------------------------------------

  /** The bounds, for every run of a server from its start. */
  lemma ServerRuns(portStart: int, portEnd: int, timeout: Time, now: Time, ticks: seq<Tick>)
    requires 0 <= timeout && Punctual(Boot(portStart, portEnd, timeout, now), ticks)
    ensures var t := At(Boot(portStart, portEnd, timeout, now), ticks);
      && (forall n :: n in t.r.devices && t.r.devices[n].enabled && t.r.devices[n].expire.Some?
            ==> t.now <= t.r.devices[n].expire.value + 60 * 1_000_000_000)
      && forall n :: n in t.r.devices ==>
           t.r.devices[n].ws in t.closed || t.now - t.r.devices[n].beat <= t.timeout + 10 * 1_000_000_000
  {
    BootInv(portStart, portEnd, timeout, now);
    ExpiryBound(Boot(portStart, portEnd, timeout, now), ticks);
    SilenceBound(Boot(portStart, portEnd, timeout, now), ticks);
  }

  /** The heartbeat promise, both ways, when each connection registers at most once. */
  lemma OrderlyServerRuns(portStart: int, portEnd: int, timeout: Time, now: Time, ticks: seq<Tick>, ws: Ws)
    requires 0 <= timeout && Punctual(Boot(portStart, portEnd, timeout, now), ticks)
    requires RegistersOnce(Boot(portStart, portEnd, timeout, now), ticks)
    ensures KeepsBeating(Boot(portStart, portEnd, timeout, now), ticks, ws) ==>
              ws !in At(Boot(portStart, portEnd, timeout, now), ticks).closed
    ensures var t := At(Boot(portStart, portEnd, timeout, now), ticks);
            ws in t.r.conns ==>
              ws in t.heard && (ws in t.closed || t.now - t.heard[ws] <= t.timeout + 10 * 1_000_000_000)
  {
    var t := Boot(portStart, portEnd, timeout, now);
    BootInv(portStart, portEnd, timeout, now);
    if KeepsBeating(t, ticks, ws) { BeatingIsNeverClosed(t, ticks, ws); }
    if ws in At(t, ticks).r.conns { SilentIsClosed(t, ticks, ws); }
  }

  /** And exactly when it fails, however often connections register. */
  lemma ServerClosesExactly(portStart: int, portEnd: int, timeout: Time, now: Time, ticks: seq<Tick>, ws: Ws)
    requires HeartbeatsInTurn(Boot(portStart, portEnd, timeout, now), ticks)
    requires KeepsBeating(Boot(portStart, portEnd, timeout, now), ticks, ws)
    ensures ws in At(Boot(portStart, portEnd, timeout, now), ticks).closed <==>
            exists i: nat :: TwinAt(Boot(portStart, portEnd, timeout, now), ticks, i, ws)
  {
    NewConsistent(portStart, portEnd);
    BeatingClosedExactly(Boot(portStart, portEnd, timeout, now), ticks, ws);
  }
}
