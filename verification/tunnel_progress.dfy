/**
 What becomes of a message once its handler has taken it, and that nobody is ever without a next
 step: each goroutine of the server and the clients can go on, waits for a lock whose holder can,
 or has ended.
 */
module TunnelProgress {
  import opened Wrappers
  import opened Frames
  import opened Tunnel
  import opened TunnelInv
  import opened TunnelPlaces
  import TT = TunnelTheorems
  import TC = TunnelClosing
  import TN = TunnelProtocol
  import S = Sections
  import R = Registries
  import P = Proxies
  import PS = ProxyStop
  import C = Clients

  // ---- A frame is not given up while its connection can take it ------------------------

  /** A message on the WebSocket of a proxy of the registry is routed to that proxy. */
  lemma RouteFinds(w: World, p: Pid)
    requires TT.Reachable(w) && p in w.proxies && InRegistry(w, p)
    ensures R.Route(w.registry, w.proxies[p].ws) == Some(w.registry.proxies[w.proxies[p].port])
    ensures w.registry.proxies[w.proxies[p].port].id == p
  {
    TT.ReachableInv(w);
    var port := w.proxies[p].port;
    assert RefOk(w, port) && R.ProxyOk(w.registry, port);
    TN.OneDevicePerWebSocket(w, w.registry.pool.bindings[port], w.registry.pool.bindings[port]);
    R.RouteExactly(w.registry, w.proxies[p].ws);
    assert R.DeviceOk(w.registry, w.registry.pool.bindings[port]);
  }

  /** A frame of a connection whose proxy the registry holds is handed to that proxy. */
  lemma HandedOver(w: World, ws: R.Ws, id: ConnId, frame: Frame)
    requires TT.Reachable(w) && ws in w.wires && w.wires[ws].handler == Took(frame) && (frame.Data? || frame.Close?)
    requires frame.id == id && HomedAt(w, id, ws) && InRegistry(w, w.home[id])
    ensures CanHandler(w, ws, Route, 0)
    ensures DoHandler(w, ws, Route, 0) == SetHandler(w, ws, Routed(w.home[id], frame))
  {
    TT.ReachableInv(w);
    RouteFinds(w, w.home[id]);
  }

  /** The handler has a frame of `id` for proxy `p` in its hands. */
  predicate HasFrame(handler: Handler, id: ConnId, p: Pid) {
    match handler
    case Took(frame) => (frame.Data? || frame.Close?) && frame.id == id
    case Routed(q, frame) => q == p && (frame.Data? || frame.Close?) && frame.id == id
    case Located(q, i, _) => q == p && i == id
    case Writing(q, i, _) => q == p && i == id
    case _ => false
  }

  /** The bytes went to the connection's socket, as far as the write got; or the connection was closed. */
  predicate Delivered(handler: Handler, h: Handling, s: P.Socket, s': P.Socket, listed': bool) {
    match h
    case Write(n, ok) =>
      && handler.Writing? && n <= |handler.data| && s'.written == s.written + handler.data[..n]
      && (ok ==> n == |handler.data|)
    case CloseConn => !s'.open && !listed'
    case _ => false
  }

  /**
   While the registry holds the proxy and the proxy lists the connection, every step of the handler
   brings a frame of the connection on, and the last one delivers it; the frame is not given up.
   */
  lemma NotGivenUp(w: World, ws: R.Ws, h: Handling, task: TaskId, id: ConnId)
    requires TT.Reachable(w) && CanHandler(w, ws, h, task) && HomedAt(w, id, ws)
    requires InRegistry(w, w.home[id]) && id in HomeProxy(w, id).conns
    requires HasFrame(w.wires[ws].handler, id, w.home[id])
    ensures var w' := DoHandler(w, ws, h, task); var p := w.home[id];
      && ws in w'.wires && p in w'.proxies && id in w'.proxies[p].sockets
      && w'.wires[ws].dropped == w.wires[ws].dropped
      && (|| HasFrame(w'.wires[ws].handler, id, p)
          || Delivered(w.wires[ws].handler, h, HomeSocket(w, id), w'.proxies[p].sockets[id], id in w'.proxies[p].conns))
  {
    HomeRuns(w, ws, id);
    match w.wires[ws].handler
    case Took(frame) => FromTook(w, ws, h, task, id, frame);
    case Routed(_, frame) => FromRouted(w, ws, h, task, id, frame);
    case Located(_, _, data) => FromLocated(w, ws, h, task, id, data);
    case Writing(_, _, data) => FromWriting(w, ws, h, task, id, data);
    case _ =>
  }

  lemma HomeRuns(w: World, ws: R.Ws, id: ConnId)
    requires TT.Reachable(w) && HomedAt(w, id, ws)
    ensures InRegistry(w, w.home[id]) ==> HomeProxy(w, id).stop.Running?
    ensures id in HomeProxy(w, id).conns ==> id in HomeProxy(w, id).sockets
  {
    TT.ReachableInv(w);
    assert PlaceOk(w, w.home[id]) && P.Inv(HomeProxy(w, id));
  }

  lemma FromTook(w: World, ws: R.Ws, h: Handling, task: TaskId, id: ConnId, frame: Frame)
    requires TT.Reachable(w) && CanHandler(w, ws, h, task) && HomedAt(w, id, ws)
    requires InRegistry(w, w.home[id])
    requires w.wires[ws].handler == Took(frame) && (frame.Data? || frame.Close?) && frame.id == id
    ensures var w' := DoHandler(w, ws, h, task);
      && ws in w'.wires && w'.proxies == w.proxies && w'.wires[ws].dropped == w.wires[ws].dropped
      && w'.wires[ws].handler == Routed(w.home[id], frame)
  {
    HandedOver(w, ws, id, frame);
  }

  lemma FromRouted(w: World, ws: R.Ws, h: Handling, task: TaskId, id: ConnId, frame: Frame)
    requires CanHandler(w, ws, h, task) && id in w.home && w.home[id] in w.proxies
    requires w.wires[ws].handler == Routed(w.home[id], frame) && (frame.Data? || frame.Close?) && frame.id == id
    requires id in w.proxies[w.home[id]].conns && id in w.proxies[w.home[id]].sockets
    ensures var w' := DoHandler(w, ws, h, task); var p := w.home[id];
      && ws in w'.wires && p in w'.proxies && id in w'.proxies[p].sockets
      && w'.wires[ws].dropped == w.wires[ws].dropped
      && (frame.Data? ==> h.Locate? && w'.wires[ws].handler == Located(p, id, frame.data))
      && (frame.Close? ==> h.CloseConn? && !w'.proxies[p].sockets[id].open && id !in w'.proxies[p].conns)
  {
  }

  lemma FromLocated(w: World, ws: R.Ws, h: Handling, task: TaskId, id: ConnId, data: Bytes)
    requires CanHandler(w, ws, h, task) && id in w.home && w.home[id] in w.proxies
    requires w.wires[ws].handler == Located(w.home[id], id, data)
    requires w.proxies[w.home[id]].stop.Running? && id in w.proxies[w.home[id]].sockets
    ensures var w' := DoHandler(w, ws, h, task);
      && ws in w'.wires && w'.proxies == w.proxies && w'.wires[ws].dropped == w.wires[ws].dropped
      && w'.wires[ws].handler == Writing(w.home[id], id, data)
  {
  }

  lemma FromWriting(w: World, ws: R.Ws, h: Handling, task: TaskId, id: ConnId, data: Bytes)
    requires CanHandler(w, ws, h, task) && id in w.home && w.home[id] in w.proxies
    requires w.wires[ws].handler == Writing(w.home[id], id, data) && id in w.proxies[w.home[id]].sockets
    ensures h.Write?
    ensures var w' := DoHandler(w, ws, h, task); var p := w.home[id];
      && ws in w'.wires && p in w'.proxies && id in w'.proxies[p].sockets
      && w'.wires[ws].dropped == w.wires[ws].dropped && h.n <= |data| && (h.ok ==> h.n == |data|)
      && w'.proxies[p].sockets[id].written == w.proxies[p].sockets[id].written + data[..h.n]
  {
  }

  // ---- The other messages --------------------------------------------------------------

  /** The answer to a registration: the port of the device, or an error exactly when there is none. */
  lemma InsertAnswers(w: World, ws: R.Ws, now: R.Time)
    requires TT.Reachable(w) && CanHandler(w, ws, Insert(now), 0)
    ensures var w' := DoHandler(w, ws, Insert(now), 0); var request := w.wires[ws].handler.request;
      && ws in w'.wires
      && (if request.name !in w.registry.devices && exists port :: w.registry.pool.Free(port)
          then && request.name in w'.registry.devices && w'.registry.devices[request.name].ws == ws
               && w'.wires[ws].handler == Replying(Assigned(w'.registry.devices[request.name].port))
          else w'.wires[ws].handler == Replying(Error) && w'.registry == w.registry)
  {
    TT.ReachableInv(w);
    S.RegisterExactly(w.registry, ws, w.wires[ws].handler.request, now);
  }

  /** A heartbeat is credited to the device of its WebSocket and acknowledged, if there is one. */
  lemma HeartbeatAnswered(w: World, ws: R.Ws)
    requires TT.Reachable(w) && CanHandler(w, ws, Credit, 0)
    ensures var w' := DoHandler(w, ws, Credit, 0);
      && ws in w'.wires
      && (if ws in w.registry.conns
          then && w.registry.conns[ws] in w.registry.devices
               && w'.wires[ws].handler == Crediting(w.registry.devices[w.registry.conns[ws]])
          else w'.wires[ws].handler == Idle)
  {
    TT.ReachableInv(w);
    S.OwnerExactly(w.registry, ws);
  }

  lemma BeatAnswered(w: World, ws: R.Ws, now: R.Time)
    requires TT.Reachable(w) && CanHandler(w, ws, Beat(now), 0)
    ensures var w' := DoHandler(w, ws, Beat(now), 0); var device := w.wires[ws].handler.device;
      && ws in w'.wires && w'.wires[ws].handler == Replying(HeartbeatAck)
      && (device.name in w.registry.devices && w.registry.devices[device.name].id == device.id ==>
            device.name in w'.registry.devices && w'.registry.devices[device.name].beat == now)
  {
    TT.ReachableInv(w);
    S.BeatExactly(w.registry, w.wires[ws].handler.device, now);
  }

  /** The answer is the next frame on the WebSocket, unless the write fails. */
  lemma ReplyWritten(w: World, ws: R.Ws, ok: bool)
    requires CanHandler(w, ws, Reply(ok), 0)
    ensures var w' := DoHandler(w, ws, Reply(ok), 0); var wire := w.wires[ws];
      && ws in w'.wires && w'.wires[ws].handler == Idle
      && w'.wires[ws].out.log == wire.out.log + (if ok then [Other(wire.handler.reply)] else [])
      && w'.wires[ws].out.down == (wire.out.down || !ok)
  {
  }

  /** A heartbeat sweep takes down the WebSockets of silent devices, and no others. */
  lemma SweepClosesExactly(w: World, now: R.Time, timeout: R.Time, task: TaskId, ws: R.Ws)
    requires ws in w.wires
    ensures ws in DoAdmin(w, CheckHeartbeats(now, timeout), task).wires
    ensures DoAdmin(w, CheckHeartbeats(now, timeout), task).wires[ws].out.down <==>
              || w.wires[ws].out.down
              || exists name :: name in w.registry.devices && w.registry.devices[name].ws == ws
                   && now > w.registry.devices[name].beat + timeout
  {
    S.TimedOutExactly(w.registry, now, timeout, ws);
  }

  // ---- Every goroutine has a next step -------------------------------------------------

  lemma {:induction false} Above(used: set<nat>) returns (n: nat)
    ensures forall m :: m in used ==> m < n
    decreases used
  {
    if used == {} { return 0; }
    var m :| m in used;
    n := Above(used - {m});
    forall k | k in used ensures k < n || k == m { assert k == m || k in used - {m}; }
    n := if m < n then n else m + 1;
  }

  /** One thing the handler of a WebSocket can do. */
  function NextOfHandler(handler: Handler): Handling {
    match handler
    case Idle => Fail
    case Took(Other(Register(_, _))) => Check
    case Took(Other(Heartbeat)) => Credit
    case Took(Data(_, _)) => Route
    case Took(Close(_, _)) => Route
    case Took(_) => Skip
    case Checked(_) => Insert(0)
    case Crediting(_) => Beat(0)
    case Replying(_) => Reply(false)
    case Routed(_, frame) => if frame.Data? then Locate else CloseConn
    case Located(_, _, _) => LookStopped
    case Writing(_, _, _) => Write(0, false)
    case Leaving => Leave
    case Gone => Leave
  }

  /** A handler has a next step until its WebSocket is closed, and takes a frame whenever there is one. */
  lemma HandlerGoesOn(w: World, ws: R.Ws)
    requires TT.Reachable(w) && ws in w.wires && !w.wires[ws].handler.Gone?
    ensures exists task :: CanHandler(w, ws, NextOfHandler(w.wires[ws].handler), task)
    ensures w.wires[ws].handler.Idle? && w.wires[ws].taken < |FromClient(w, ws)| ==> CanHandler(w, ws, Take, 0)
  {
    TT.ReachableInv(w);
    assert HandlerOk(w, ws);
    var task := Above(w.tasks.Keys);
    HandlerCan(w, ws, task);
  }

  lemma HandlerCan(w: World, ws: R.Ws, task: TaskId)
    requires ws in w.wires && HandlerOk(w, ws) && !w.wires[ws].handler.Gone? && task !in w.tasks
    ensures CanHandler(w, ws, NextOfHandler(w.wires[ws].handler), task)
  {
  }

  /** A call of `Stop` that has begun can go on to its end. */
  lemma StopGoesOn(q: P.Proxy) returns (e: P.Event)
    requires !q.stop.Running? && !q.StopDone() && (q.stop.Draining? ==> q.stop.rest <= q.sockets.Keys)
    ensures P.OfStop(e) && !e.StopFlag? && P.Can(q, e) && P.Sends(q, e).None?
  {
    match q.stop
    case Flagged => e := P.StopSignal;
    case Signalled => e := P.StopUnbind;
    case Unbound => e := P.StopDrain;
    case Draining(rest) =>
      var id :| id in rest;
      e := P.StopClose(id);
    case _ =>
  }

  /** A stop list that is not empty can be worked on. */
  lemma StopListGoesOn(w: World, t: TaskId)
    requires TT.Reachable(w) && t in w.tasks && w.tasks[t] != []
    ensures CanTask(w, t) || exists e :: P.OfStop(e) && CanProxy(w, w.tasks[t][0], e, false)
  {
    TT.ReachableInv(w);
    var p := w.tasks[t][0];
    assert ListOk(w, t) && PidOk(w, p);
    if !CanTask(w, t) {
      assert P.Inv(w.proxies[p]);
      DrainsOwn(w.proxies[p]);
      var e := StopGoesOn(w.proxies[p]);
      assert CanProxy(w, p, e, false);
    }
  }

  lemma DrainsOwn(q: P.Proxy)
    requires P.Inv(q)
    ensures q.stop.Draining? ==> q.stop.rest <= q.sockets.Keys
  {
  }

  lemma SocketGoesOn(q: P.Proxy, id: ConnId)
    requires id in q.sockets && P.SocketOk(q, id)
    requires !q.sockets[id].stage.Finished? && !q.sockets[id].stage.Refused?
    ensures var e := PS.Helpful(q, id);
      P.Can(q, e) && !e.Write? && !e.CloseConn? && !e.StopFlag? && !e.Accept?
  {
  }

  /** So can each connection of a proxy, until it has finished or was refused. */
  lemma ConnectionGoesOn(w: World, id: ConnId)
    requires TT.Reachable(w) && id in w.home
    ensures Homed(w, id)
    ensures var stage := HomeSocket(w, id).stage;
            stage.Finished? || stage.Refused? || CanProxy(w, w.home[id], PS.Helpful(HomeProxy(w, id), id), false)
  {
    TT.ReachableInv(w);
    assert Homed(w, id) && PidOk(w, w.home[id]) && P.Inv(HomeProxy(w, id));
    SocketsOk(HomeProxy(w, id), id);
    if !HomeSocket(w, id).stage.Finished? && !HomeSocket(w, id).stage.Refused? {
      SocketGoesOn(HomeProxy(w, id), id);
    }
  }

  lemma SocketsOk(q: P.Proxy, id: ConnId)
    requires P.Inv(q) && id in q.sockets
    ensures P.SocketOk(q, id)
  {
  }

  // ---- So has every goroutine of a client ----------------------------------------------

  lemma ClientParts(k: C.Client, id: ConnId)
    requires C.Inv(k)
    ensures C.MainOk(k) && C.TokenWhole(k) && (id in k.locals ==> C.TokenOk(k, id))
    ensures forall ws :: ws in k.rx ==> ws in k.tx
  {
    if id in k.locals { assert C.LocalOk(k, id); }
    forall ws | ws in k.rx ensures ws in k.tx { assert C.WsOk(k, ws); }
  }

  /** Whoever holds the write lock can finish its write, with success while the WebSocket is up. */
  lemma WriterGoesOn(k: C.Client)
    requires C.TokenWhole(k) && k.token.Some? && !k.main.Crashed?
    ensures C.Can(k, C.Link(C.WriteMessage(false)))
    ensures C.Can(k, C.Link(C.WriteMessage(true))) <==> !k.tx[k.token.value.ws].down
  {
  }

  /** The reader of a local connection goes on, unless the write lock is taken. */
  lemma ReaderGoesOn(k: C.Client, id: ConnId)
    requires id in k.locals && C.TokenOk(k, id) && k.token.None? && !k.main.Crashed?
    ensures || k.locals[id].reader.NotStarted? || k.locals[id].reader.Gone?
            || exists e :: C.Can(k, C.OfReader(id, e))
  {
    match k.locals[id].reader
    case Reading => assert C.Can(k, C.OfReader(id, C.LocalReadFails));
    case Holding(_) => assert C.Can(k, C.OfReader(id, C.Send));
    case Ending => assert C.Can(k, C.OfReader(id, C.CloseOwn));
    case Reporting => assert C.Can(k, C.OfReader(id, C.Report));
    case _ =>
  }

  /** So does the goroutine of `Start` between two connections. */
  lemma MainGoesOn(k: C.Client)
    requires C.MainOk(k) && C.TokenWhole(k) && k.token.None?
    requires !k.main.Head? && !k.main.Over? && !k.main.Crashed?
    ensures C.Can(k, TC.NextOfMain(k))
    ensures !(TC.NextOfMain(k).Session? && (TC.NextOfMain(k).session.Connect? || TC.NextOfMain(k).session.Receive?))
  {
  }

  /**
   Unless it has returned or crashed, the goroutine of `Start` can go on, and so can every reader
   that runs; when the write lock is taken, its holder can finish its write.
   */
  lemma ClientGoesOn(w: World, c: Cid, id: ConnId)
    requires TT.Reachable(w) && c in w.clients && !w.clients[c].main.Over? && !w.clients[c].main.Crashed?
    ensures var k := w.clients[c];
      if k.token.Some? then CanClient(w, c, C.Link(C.WriteMessage(false)))
      else
        && (k.main.Head? ==> exists ws :: CanClient(w, c, C.Session(C.Connect(ws))))
        && (!k.main.Head? ==> CanClient(w, c, TC.NextOfMain(k)))
        && (id in k.locals && !k.locals[id].reader.NotStarted? && !k.locals[id].reader.Gone? ==>
              exists e :: CanClient(w, c, C.OfReader(id, e)))
  {
    TT.ReachableInv(w);
    var k := w.clients[c];
    assert C.Inv(k);
    ClientParts(k, id);
    if k.token.Some? {
      WriterGoesOn(k);
    } else {
      if k.main.Head? { CanConnect(w, c); } else { MainGoesOn(k); }
      if id in k.locals && !k.locals[id].reader.NotStarted? && !k.locals[id].reader.Gone? {
        ReaderGoesOn(k, id);
        var e :| C.Can(k, C.OfReader(id, e));
        assert CanClient(w, c, C.OfReader(id, e));
      }
    }
  }

  lemma CanConnect(w: World, c: Cid)
    requires c in w.clients && w.clients[c].main.Head?
    requires forall ws {:trigger OwnerOk(w, c, ws)} :: OwnerOk(w, c, ws)
    requires forall ws :: ws in w.clients[c].rx ==> ws in w.clients[c].tx
    ensures exists ws :: CanClient(w, c, C.Session(C.Connect(ws)))
  {
    var ws := Above(w.wires.Keys);
    assert OwnerOk(w, c, ws);
    assert CanClient(w, c, C.Session(C.Connect(ws)));
  }

  // ---- And it can succeed --------------------------------------------------------------

  /** An open connection can be read from, and while the WebSocket is up what was read can be sent. */
  lemma ProxyCanServe(w: World, id: ConnId, data: Bytes)
    requires TT.Reachable(w) && id in w.home
    ensures Homed(w, id)
    ensures HomeSocket(w, id).stage.Reading? && HomeSocket(w, id).open ==>
              CanProxy(w, w.home[id], P.Read(id, data), false)
    ensures !HomeSocket(w, id).stage.Finished? && !HomeSocket(w, id).stage.Refused? ==>
              var e := PS.Helpful(HomeProxy(w, id), id);
              && P.Can(HomeProxy(w, id), e)
              && (CanProxy(w, w.home[id], e, true) <==>
                   P.Sends(HomeProxy(w, id), e).None? || !w.wires[HomeWs(w, id)].out.down)
  {
    ConnectionGoesOn(w, id);
    TT.ReachableInv(w);
    assert PidOk(w, w.home[id]);
  }

  predicate CanDeliver(w: World, ws: R.Ws)
    requires ws in w.wires
  {
    match w.wires[ws].handler
    case Replying(_) => CanHandler(w, ws, Reply(true), 0) <==> !w.wires[ws].out.down
    case Writing(p, id, data) =>
      && p in w.proxies && id in w.proxies[p].sockets
      && (CanHandler(w, ws, Write(|data|, true), 0) <==>
           w.proxies[p].sockets[id].open && !w.proxies[p].sockets[id].broken)
    case _ => true
  }

  lemma DeliveryPossible(w: World, ws: R.Ws)
    requires ws in w.wires && HandlerOk(w, ws)
    ensures CanDeliver(w, ws)
  {
  }

  /** A handler can write all it has to an open connection, and a reply while the WebSocket is up. */
  lemma HandlerCanDeliver(w: World, ws: R.Ws)
    requires TT.Reachable(w) && ws in w.wires
    ensures CanDeliver(w, ws)
  {
    TT.ReachableInv(w);
    DeliveryPossible(w, ws);
  }

  /** A client can receive the next message that was sent to it ... */
  lemma ClientCanReceive(w: World, c: Cid)
    requires TT.Reachable(w) && c in w.clients && (w.clients[c].main.AwaitingReply? || w.clients[c].main.Serving?)
    ensures var k := w.clients[c];
      && k.session.Some? && k.session.value in w.wires && k.session.value in k.rx
      && var n := |k.rx[k.session.value]|; var log := w.wires[k.session.value].out.log;
         n < |log| ==> CanClient(w, c, C.Session(C.Receive(log[n])))
  {
    TT.ReachableInv(w);
    assert C.Inv(w.clients[c]);
    ClientParts(w.clients[c], 0);
    assert OwnerOk(w, c, w.clients[c].session.value);
  }

  /** ... write all of it to an open connection, read from that, and send while its WebSocket is up. */
  lemma ClientCanServe(k: C.Client, id: ConnId, data: Bytes)
    requires C.MainOk(k) && C.TokenWhole(k) && !k.main.Crashed?
    ensures k.main.Found? ==>
              && k.main.id in k.locals
              && (C.Can(k, C.Handler(C.WriteLocal(|k.main.data|, true))) <==>
                   k.locals[k.main.id].open && !k.locals[k.main.id].broken)
    ensures id in k.locals && k.locals[id].reader.Reading? ==>
              (C.Can(k, C.OfReader(id, C.LocalRead(data))) <==> k.locals[id].open)
    ensures k.token.Some? ==>
              && k.token.value.ws in k.tx
              && (C.Can(k, C.Link(C.WriteMessage(true))) <==> !k.tx[k.token.value.ws].down)
  {
  }

  // ---- The administrator and the sweeps are never held up ------------------------------

  lemma AdministrationGoesOn(w: World, name: string, duration: R.Time, now: R.Time, timeout: R.Time)
    requires TT.Reachable(w)
    ensures exists task, order ::
      && CanAdmin(w, Enable(name, duration, now, false), task) && CanAdmin(w, Disable(name), task)
      && CanAdmin(w, CheckHeartbeats(now, timeout), task) && CanAdmin(w, Sweep(now, order), task)
  {
    var task := Above(w.tasks.Keys);
    var order := SweepOrder(w, now);
    assert CanAdmin(w, Sweep(now, order), task) && CanAdmin(w, Disable(name), task);
  }

  lemma SweepOrder(w: World, now: R.Time) returns (order: seq<Pid>)
    requires TT.Reachable(w)
    ensures InOrder(w, now, order)
  {
    TT.ReachableInv(w);
    forall a, b | a in R.SweptProxies(w.registry, now) && b in R.SweptProxies(w.registry, now) && a.id == b.id
      ensures a == b
    {
      var p :| p in w.registry.proxies && w.registry.proxies[p] == a;
      var q :| q in w.registry.proxies && w.registry.proxies[q] == b;
      assert RefOk(w, p) && RefOk(w, q);
    }
    var refs := SomeOrder(R.SweptProxies(w.registry, now));
    OrderOf(w, now, refs);
    order := Ids(refs);
  }

  lemma {:induction false} SomeOrder(refs: set<R.ProxyRef>) returns (order: seq<R.ProxyRef>)
    ensures forall ref :: ref in order <==> ref in refs
    ensures forall i, j :: 0 <= i < j < |order| ==> order[i] != order[j]
    decreases refs
  {
    if refs == {} { return []; }
    var ref :| ref in refs;
    var rest := SomeOrder(refs - {ref});
    order := [ref] + rest;
  }

  function Ids(order: seq<R.ProxyRef>): seq<Pid> { seq(|order|, i requires 0 <= i < |order| => order[i].id) }

  lemma OrderOf(w: World, now: R.Time, order: seq<R.ProxyRef>)
    requires forall ref :: ref in order <==> ref in R.SweptProxies(w.registry, now)
    requires forall i, j :: 0 <= i < j < |order| ==> order[i] != order[j]
    requires forall a, b :: a in R.SweptProxies(w.registry, now) && b in R.SweptProxies(w.registry, now) && a.id == b.id
               ==> a == b
    ensures InOrder(w, now, Ids(order))
  {
    forall p ensures p in Ids(order) <==> exists ref :: ref in R.SweptProxies(w.registry, now) && ref.id == p {
      if p in Ids(order) {
        var i :| 0 <= i < |order| && Ids(order)[i] == p;
        assert order[i] in order;
      } else if ref :| ref in R.SweptProxies(w.registry, now) && ref.id == p {
        var i :| 0 <= i < |order| && order[i] == ref;
        assert Ids(order)[i] == p;
      }
    }
    forall i, j | 0 <= i < j < |order| ensures Ids(order)[i] != Ids(order)[j] {
      assert order[i] in order && order[j] in order;
    }
  }
}
