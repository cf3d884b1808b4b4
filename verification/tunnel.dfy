/**
 The whole tunnel: the registry, the proxies, the WebSockets and the clients, put together at
 the granularity of critical sections and single I/O calls. The component machines keep their
 own rules; this module says who may take which step and what crosses between them.
 */
module Tunnel {
  import opened Wrappers
  import opened Frames
  import R = Registries
  import P = Proxies
  import C = Clients

  type Pid = nat      // a proxy
  type Cid = nat      // a client
  type TaskId = nat   // a goroutine that stops proxies after it released the server lock

  /** The goroutine that handles the messages of one WebSocket (server.go:149-200). */
  datatype Handler =
    | Idle
    | Took(frame: Frame)
    | Checked(request: R.Request)                 // passed the device limit
    | Crediting(device: R.Device)                 // heartbeat: found its device
    | Replying(reply: Control)
    | Routed(proxy: Pid, frame: Frame)            // looked the proxy up, lock released
    | Located(proxy: Pid, id: ConnId, data: Bytes)// found the connection, lock released
    | Writing(proxy: Pid, id: ConnId, data: Bytes)// saw the proxy running
    | Leaving                                     // the read failed, the device is disconnected
    | Gone                                        // the WebSocket is closed

  /**
   One WebSocket, seen from the server: what was written to the client, how many of the
   client's frames the handler has taken, and the connections it dropped a frame of.
   */
  datatype Wire = Wire(owner: Cid, out: C.Outgoing, taken: nat, handler: Handler, dropped: set<ConnId>)

  /** `home` records which proxy accepted a connection. */
  datatype World = World(
    registry: R.Registry, maxDevices: int, maxConns: int,
    proxies: map<Pid, P.Proxy>, wires: map<R.Ws, Wire>, clients: map<Cid, C.Client>,
    home: map<ConnId, Pid>, tasks: map<TaskId, seq<Pid>>)

  datatype Handling =
    | Take
    | Fail                        // the read fails: the handler disconnects the device
    | Leave                       // and, when it has stopped the proxy, closes the WebSocket
    | Check
    | Insert(now: R.Time)
    | Reply(ok: bool)
    | Credit
    | Beat(now: R.Time)
    | Route
    | Locate
    | CloseConn
    | LookStopped
    | Write(n: nat, ok: bool)
    | Skip

  datatype Admin =
    | Enable(name: string, duration: R.Time, now: R.Time, bound: bool)
    | Disable(name: string)
    | Sweep(now: R.Time, order: seq<Pid>)
    | CheckHeartbeats(now: R.Time, timeout: R.Time)

  datatype Step =
    | OfProxy(p: Pid, event: P.Event, ok: bool)
    | OfClient(k: Cid, act: C.Event)
    | OfHandler(ws: R.Ws, handling: Handling, task: TaskId)
    | OfAdmin(admin: Admin, task: TaskId)
    | OfTask(task: TaskId)

  // ---- Proxies -------------------------------------------------------------------------

  function Append(out: C.Outgoing, frame: Frame, ok: bool): C.Outgoing {
    if ok then out.(log := out.log + [frame]) else out.(down := true)
  }

  predicate CanProxy(w: World, p: Pid, e: P.Event, ok: bool) {
    && p in w.proxies && P.Can(w.proxies[p], e) && !e.Write? && !e.CloseConn? && !e.StopFlag?
    && w.proxies[p].ws in w.wires
    && (e.Accept? ==> e.id !in w.home)   // identifiers are fresh
    && (P.Sends(w.proxies[p], e).Some? && ok ==> !w.wires[w.proxies[p].ws].out.down)
  }

  /** The proxy moves to state `q`; `born` is a connection it accepted, `sent` a frame it sent. */
  function PutProxy(w: World, p: Pid, q: P.Proxy, born: Option<ConnId>, sent: Option<Frame>, ok: bool): World {
    w.(proxies := w.proxies[p := q],
       home := if born.Some? then w.home[born.value := p] else w.home,
       wires := if sent.Some? && q.ws in w.wires
                then w.wires[q.ws := w.wires[q.ws].(out := Append(w.wires[q.ws].out, sent.value, ok))]
                else w.wires)
  }

  function DoProxy(w: World, p: Pid, e: P.Event, ok: bool): World
    requires CanProxy(w, p, e, ok)
  {
    PutProxy(w, p, P.Do(w.proxies[p], e), if e.Accept? then Some(e.id) else None, P.Sends(w.proxies[p], e), ok)
  }

  // ---- Clients -------------------------------------------------------------------------

  /** A message is received in the order it was sent; a new WebSocket is a new one. */
  predicate CanClient(w: World, k: Cid, e: C.Event) {
    && k in w.clients && C.Can(w.clients[k], e)
    && (e.Session? && e.session.Connect? ==> e.session.ws !in w.wires)
    && (e.Session? && e.session.Receive? ==>
          && w.clients[k].session.value in w.wires
          && var n := |w.clients[k].rx[w.clients[k].session.value]|;
             var log := w.wires[w.clients[k].session.value].out.log;
             n < |log| && log[n] == e.session.frame)
  }

  function PutClient(w: World, k: Cid, c: C.Client, connected: Option<R.Ws>): World {
    w.(clients := w.clients[k := c],
       wires := if connected.Some? then w.wires[connected.value := Wire(k, C.Outgoing([], false), 0, Idle, {})]
                else w.wires)
  }

  function DoClient(w: World, k: Cid, e: C.Event): World
    requires CanClient(w, k, e)
  {
    PutClient(w, k, C.Do(w.clients[k], e), if e.Session? && e.session.Connect? then Some(e.session.ws) else None)
  }

  // ---- The message handler of one WebSocket --------------------------------------------

  /** What the client wrote on `ws`. */
  function FromClient(w: World, ws: R.Ws): seq<Frame> {
    if ws in w.wires && w.wires[ws].owner in w.clients && ws in w.clients[w.wires[ws].owner].tx
    then w.clients[w.wires[ws].owner].tx[ws].log
    else []
  }


  predicate CanHandler(w: World, ws: R.Ws, h: Handling, task: TaskId) {
    && ws in w.wires
    && var handler := w.wires[ws].handler;
       match h
       case Take => handler == Idle && w.wires[ws].taken < |FromClient(w, ws)|
       case Fail => handler == Idle && task !in w.tasks
       case Leave => handler == Leaving
       case Check => handler.Took? && handler.frame.Other? && handler.frame.control.Register?
       case Insert(_) => handler.Checked?
       case Reply(ok) => handler.Replying? && (ok ==> !w.wires[ws].out.down)
       case Credit => handler.Took? && handler.frame.Other? && handler.frame.control.Heartbeat?
       case Beat(_) => handler.Crediting?
       case Route => handler.Took? && (handler.frame.Data? || handler.frame.Close?)
       case Locate => handler.Routed? && handler.frame.Data? && handler.proxy in w.proxies
       case CloseConn => handler.Routed? && handler.frame.Close? && handler.proxy in w.proxies
       case LookStopped => handler.Located? && handler.proxy in w.proxies
       case Write(n, ok) =>
         && handler.Writing? && handler.proxy in w.proxies
         && P.Can(w.proxies[handler.proxy], P.Write(handler.id, handler.data, n, ok))
       case Skip =>
         handler.Took? && (handler.frame.Open? ||
           (handler.frame.Other? && !handler.frame.control.Register? && !handler.frame.control.Heartbeat?))
  }

  function SetHandler(w: World, ws: R.Ws, handler: Handler): World
    requires ws in w.wires
  {
    w.(wires := w.wires[ws := w.wires[ws].(handler := handler)])
  }

  /** The handler gives a frame of `id` up. */
  function DropFrame(w: World, ws: R.Ws, id: ConnId): World
    requires ws in w.wires
  {
    w.(wires := w.wires[ws := w.wires[ws].(handler := Idle, dropped := w.wires[ws].dropped + {id})])
  }

  function OutcomeReply(r: R.Registry, name: string, outcome: R.Outcome): Control {
    if outcome == R.Done && name in r.devices then Assigned(r.devices[name].port) else Error
  }

  function DoHandler(w: World, ws: R.Ws, h: Handling, task: TaskId): World
    requires CanHandler(w, ws, h, task)
  {
    var wire := w.wires[ws];
    var handler := wire.handler;
    match h
    case Take =>
      w.(wires := w.wires[ws := wire.(taken := wire.taken + 1, handler := Took(FromClient(w, ws)[wire.taken]))])
    case Fail =>
      var (registry, proxy) := R.Disconnect(w.registry, ws);
      w.(registry := registry,
         wires := w.wires[ws := wire.(handler := Leaving)],
         tasks := w.tasks[task := if proxy.Some? then [proxy.value.id] else []])
    case Leave => w.(wires := w.wires[ws := wire.(handler := Gone, out := wire.out.(down := true))])
    case Check =>
      var c := handler.frame.control;
      SetHandler(w, ws, if R.Refuses(w.registry, w.maxDevices, c.request, c.authorised) then Replying(Error)
                        else Checked(c.request))
    case Insert(now) =>
      var (registry, outcome) := R.Register(w.registry, ws, handler.request, now);
      w.(registry := registry,
         wires := w.wires[ws := wire.(handler := Replying(OutcomeReply(registry, handler.request.name, outcome)))])
    case Reply(ok) =>
      w.(wires := w.wires[ws := wire.(handler := Idle, out := Append(wire.out, Other(handler.reply), ok))])
    case Credit =>
      var owner := R.Owner(w.registry, ws);
      SetHandler(w, ws, if owner.Some? then Crediting(owner.value) else Idle)
    case Beat(now) =>
      w.(registry := R.Beat(w.registry, handler.device, now),
         wires := w.wires[ws := wire.(handler := Replying(HeartbeatAck))])
    case Route =>
      var target := R.Route(w.registry, ws);
      if target.Some? then SetHandler(w, ws, Routed(target.value.id, handler.frame))
      else DropFrame(w, ws, handler.frame.id)
    case Locate =>
      if handler.frame.id in w.proxies[handler.proxy].conns
      then SetHandler(w, ws, Located(handler.proxy, handler.frame.id, handler.frame.data))
      else DropFrame(w, ws, handler.frame.id)
    case CloseConn =>
      w.(proxies := w.proxies[handler.proxy := P.Do(w.proxies[handler.proxy], P.CloseConn(handler.frame.id))],
         wires := w.wires[ws := wire.(handler := Idle)])
    case LookStopped =>
      if w.proxies[handler.proxy].stop.Running?
      then SetHandler(w, ws, Writing(handler.proxy, handler.id, handler.data))
      else DropFrame(w, ws, handler.id)
    case Write(n, ok) =>
      w.(proxies := w.proxies[handler.proxy :=
                      P.Do(w.proxies[handler.proxy], P.Write(handler.id, handler.data, n, ok))],
         wires := w.wires[ws := wire.(handler := Idle)])
    case Skip => SetHandler(w, ws, Idle)
  }

  // ---- Administration and the two sweeps -----------------------------------------------

  /** No open listener stands on `port`: binding a bound port fails. */
  predicate PortUnbound(w: World, port: int) {
    forall p :: p in w.proxies && w.proxies[p].port == port ==> !w.proxies[p].Bound()
  }

  ghost predicate InOrder(w: World, now: R.Time, order: seq<Pid>) {
    && (forall p :: p in order <==> exists ref :: ref in R.SweptProxies(w.registry, now) && ref.id == p)
    && forall i, j :: 0 <= i < j < |order| ==> order[i] != order[j]
  }

  ghost predicate CanAdmin(w: World, a: Admin, task: TaskId) {
    && task !in w.tasks
    && match a
       case Enable(name, _, _, bound) =>
         bound && name in w.registry.devices ==> PortUnbound(w, w.registry.devices[name].port)
       case Disable(_) => true
       case Sweep(now, order) => InOrder(w, now, order)
       case CheckHeartbeats(_, _) => true
  }

  function DoAdmin(w: World, a: Admin, task: TaskId): World {
    match a
    case Enable(name, duration, now, bound) =>
      var (registry, outcome) := R.Enable(w.registry, name, duration, now, bound);
      if outcome != R.Done || name !in w.registry.devices then w.(registry := registry)
      else
        var device := w.registry.devices[name];
        w.(registry := registry,
           proxies := w.proxies[w.registry.proxyCount := P.NewProxy(device.id, device.ws, device.port, w.maxConns)])
    case Disable(name) =>
      var (registry, _, proxy) := R.Disable(w.registry, name);
      w.(registry := registry, tasks := w.tasks[task := if proxy.Some? then [proxy.value.id] else []])
    case Sweep(now, order) =>
      w.(registry := R.Sweep(w.registry, now), tasks := w.tasks[task := order])
    case CheckHeartbeats(now, timeout) =>
      w.(wires := map ws | ws in w.wires ::
                    if ws in R.TimedOut(w.registry, now, timeout)
                    then w.wires[ws].(out := w.wires[ws].out.(down := true)) else w.wires[ws])
  }

  /** `Stop` is called on the proxies of a list one after the other. */
  predicate CanTask(w: World, t: TaskId) {
    && t in w.tasks && w.tasks[t] != [] && w.tasks[t][0] in w.proxies
    && (w.proxies[w.tasks[t][0]].stop.Running? || w.proxies[w.tasks[t][0]].StopDone())
  }

  function DoTask(w: World, t: TaskId): World
    requires CanTask(w, t)
  {
    var p := w.tasks[t][0];
    if w.proxies[p].stop.Running? then w.(proxies := w.proxies[p := P.Do(w.proxies[p], P.StopFlag)])
    else w.(tasks := w.tasks[t := w.tasks[t][1..]])
  }

  // ---- Runs ----------------------------------------------------------------------------

  ghost predicate Can(w: World, s: Step) {
    match s
    case OfProxy(p, e, ok) => CanProxy(w, p, e, ok)
    case OfClient(k, e) => CanClient(w, k, e)
    case OfHandler(ws, h, task) => CanHandler(w, ws, h, task)
    case OfAdmin(a, task) => CanAdmin(w, a, task)
    case OfTask(t) => CanTask(w, t)
  }

  ghost function Do(w: World, s: Step): World
    requires Can(w, s)
  {
    match s
    case OfProxy(p, e, ok) => DoProxy(w, p, e, ok)
    case OfClient(k, e) => DoClient(w, k, e)
    case OfHandler(ws, h, task) => DoHandler(w, ws, h, task)
    case OfAdmin(a, task) => DoAdmin(w, a, task)
    case OfTask(t) => DoTask(w, t)
  }

  /** Any number of clients that have not connected yet, and an empty server. */
  ghost predicate Initial(w: World) {
    && w.registry == R.NewRegistry(w.registry.pool.start, w.registry.pool.end)
    && w.proxies == map[] && w.wires == map[] && w.home == map[] && w.tasks == map[]
    && forall k :: k in w.clients ==> w.clients[k] == C.NewClient()
  }

  ghost predicate Allowed(w: World, steps: seq<Step>)
    decreases |steps|
  {
    steps == [] || (Can(w, steps[0]) && Allowed(Do(w, steps[0]), steps[1..]))
  }

  ghost function After(w: World, steps: seq<Step>): World
    requires Allowed(w, steps)
    decreases |steps|
  {
    if steps == [] then w else After(Do(w, steps[0]), steps[1..])
  }
}
