/**
 What the tunnel promises, in every state that any interleaving of the server, the proxies,
 the clients, reconnects, stops and sweeps can reach.
 */
module TunnelTheorems {
  import opened Wrappers
  import opened Frames
  import opened Tunnel
  import opened TunnelInv
  import opened TunnelPlaces
  import TC = TunnelClient
  import R = Registries
  import P = Proxies
  import C = Clients

  ghost predicate Reachable(w: World) {
    exists start, steps :: Initial(start) && Allowed(start, steps) && w == After(start, steps)
  }

  lemma ReachableInv(w: World)
    requires Reachable(w)
    ensures Inv(w) && Settled(w)
  {
    var start, steps :| Initial(start) && Allowed(start, steps) && w == After(start, steps);
    ReachableSettled(start, steps);
  }

  // ---- Stream integrity ----------------------------------------------------------------

  /** The client end of a connection belongs to the WebSocket its proxy sends on. */
  lemma LocalIsHomed(w: World, k: Cid, id: ConnId)
    requires Inv(w) && k in w.clients && id in w.clients[k].locals
    ensures Homed(w, id) && w.clients[k].locals[id].home == HomeWs(w, id)
    ensures w.wires[HomeWs(w, id)].owner == k && WireOk(w, HomeWs(w, id))
    ensures C.LocalOk(w.clients[k], id)
  {
    assert C.Inv(w.clients[k]) && C.LocalOk(w.clients[k], id) && LocalAt(w, k, id);
    assert OwnerOk(w, k, HomeWs(w, id)) && WireOk(w, HomeWs(w, id));
  }

  /** What arrived at the client is a prefix of what the proxy sent. */
  lemma ReceivedFromHome(w: World, id: ConnId)
    requires Homed(w, id) && WireOk(w, HomeWs(w, id)) && OutOk(w, HomeWs(w, id), id)
    ensures var ws := HomeWs(w, id);
            Only(w.clients[w.wires[ws].owner].rx[ws], id) <= HomeSocket(w, id).sent
  {
    var ws := HomeWs(w, id);
    var log, rx := w.wires[ws].out.log, w.clients[w.wires[ws].owner].rx[ws];
    assert log[..|rx|] == rx;
    OnlyPrefix(log, |rx|, id);
  }

  /** Whatever was sent was read. */
  lemma SentWasRead(p: P.Proxy, id: ConnId)
    requires id in p.sockets && P.SocketOk(p, id)
    ensures Payload(p.sockets[id].sent) <= p.sockets[id].read
  {
  }

  /**
   The bytes written to the local socket of a connection are a prefix of the bytes read from
   the external socket of that connection.
   */
  lemma LocalGetsPrefix(w: World, k: Cid, id: ConnId)
    requires Reachable(w) && k in w.clients && id in w.clients[k].locals
    ensures Homed(w, id) && w.clients[k].locals[id].written <= HomeSocket(w, id).read
  {
    ReachableInv(w);
    LocalIsHomed(w, k, id);
    var ws := HomeWs(w, id);
    assert OutOk(w, ws, id) && P.Inv(HomeProxy(w, id)) && P.SocketOk(HomeProxy(w, id), id);
    ReceivedFromHome(w, id);
    PayloadPrefix(Only(w.clients[k].rx[ws], id), HomeSocket(w, id).sent);
    SentWasRead(HomeProxy(w, id), id);
  }

  /** What the handler took of a connection was sent by the reader of that connection. */
  lemma TakenWasRead(w: World, id: ConnId)
    requires Homed(w, id) && WireOk(w, HomeWs(w, id))
    requires C.Inv(w.clients[w.wires[HomeWs(w, id)].owner]) && LocalAt(w, w.wires[HomeWs(w, id)].owner, id)
    ensures var ws := HomeWs(w, id); var c := w.clients[w.wires[ws].owner];
            Payload(Only(Taken(w, ws), id)) <= if id in c.locals then c.locals[id].read else []
  {
    var ws := HomeWs(w, id);
    var c := w.clients[w.wires[ws].owner];
    OnlyPrefix(c.tx[ws].log, w.wires[ws].taken, id);
    PayloadPrefix(Only(Taken(w, ws), id), Only(c.tx[ws].log, id));
    if id in c.locals { assert C.LocalOk(c, id); } else { assert C.SilentOn(c.tx[ws].log, id); }
  }

  /**
   The bytes written to the external socket of a connection are a prefix of the bytes read
   from the local socket opened for it, whatever reconnects took place and whichever
   WebSockets its reader has been sending on; without a local socket nothing is written.
   */
  lemma ExternalGetsPrefix(w: World, id: ConnId)
    requires Reachable(w) && Homed(w, id)
    ensures w.wires[HomeWs(w, id)].owner in w.clients
    ensures var c := w.clients[w.wires[HomeWs(w, id)].owner];
            HomeSocket(w, id).written <= if id in c.locals then c.locals[id].read else []
  {
    ReachableInv(w);
    var ws := HomeWs(w, id);
    assert WireOk(w, ws) && UpOk(w, id) && LocalAt(w, w.wires[ws].owner, id) && C.Inv(w.clients[w.wires[ws].owner]);
    TakenWasRead(w, id);
  }

  /** A connection has one local socket at most, at the client that owns its WebSocket. */
  lemma OneLocalSocket(w: World, j: Cid, k: Cid, id: ConnId)
    requires Reachable(w) && j in w.clients && k in w.clients
    requires id in w.clients[j].locals && id in w.clients[k].locals
    ensures j == k
  {
    ReachableInv(w);
    LocalIsHomed(w, j, id);
    LocalIsHomed(w, k, id);
  }

  // ---- Drain before close --------------------------------------------------------------

  /** The end of a connection is the last thing sent about it. */
  lemma CloseIsLast(p: P.Proxy, id: ConnId, i: nat)
    requires id in p.sockets && P.SocketOk(p, id)
    requires i < |p.sockets[id].sent| && p.sockets[id].sent[i].Close?
    ensures i == |p.sockets[id].sent| - 1 && Payload(p.sockets[id].sent) == p.sockets[id].read
  {
    var s := p.sockets[id];
    if P.Ended(s, id) { assert forall j :: 0 <= j < |s.sent| - 1 ==> s.sent[..|s.sent| - 1][j] == s.sent[j]; }
  }

  /** A log whose last frame is about a connection, seen by that connection. */
  lemma OnlyEndsWith(log: seq<Frame>, f: Frame)
    requires log != [] && log[|log| - 1] == f && !f.Other?
    ensures Only(log, f.id) != [] && Only(log, f.id)[|Only(log, f.id)| - 1] == f
  {
  }

  /**
   When the client handles the server's `conn_close` for a connection that is still open
   locally and had no failed write, everything read from the external socket has been written.
   */
  lemma DrainedAtClient(w: World, k: Cid, id: ConnId, ended: bool)
    requires Reachable(w) && k in w.clients
    requires w.clients[k].main == C.Got(Close(id, ended)) && id in w.clients[k].localConns
    requires id in w.clients[k].locals && !w.clients[k].locals[id].broken
    ensures Homed(w, id) && w.clients[k].locals[id].written == HomeSocket(w, id).read
  {
    ReachableInv(w);
    LocalIsHomed(w, k, id);
    HandlingClose(w, k, id, ended);
    ReceivedAll(w, w.clients[k].session.value, id, ended);
    WrittenAll(w.clients[k].locals[id], id, ended, w.clients[k], Payload(Only(w.clients[k].rx[HomeWs(w, id)], id)));
  }

  /** The message in hand is the last one that arrived on the current WebSocket. */
  lemma HandlingClose(w: World, k: Cid, id: ConnId, ended: bool)
    requires Inv(w) && k in w.clients && w.clients[k].main == C.Got(Close(id, ended))
    ensures w.clients[k].session.Some?
    ensures var ws := w.clients[k].session.value;
      && ws in w.wires && w.wires[ws].owner == k && WireOk(w, ws)
      && w.clients[k].rx[ws] != [] && w.clients[k].rx[ws][|w.clients[k].rx[ws]| - 1] == Close(id, ended)
  {
    var c := w.clients[k];
    assert C.Inv(c);
    var ws := c.session.value;
    assert C.WsOk(c, ws) && OwnerOk(w, k, ws) && WireOk(w, ws);
  }

  lemma WrittenAll(l: C.Local, id: ConnId, ended: bool, c: C.Client, got: Bytes)
    requires C.DownRel(l, id in c.localConns, c.main, c.session, id, got)
    requires c.main == C.Got(Close(id, ended)) && id in c.localConns && !l.broken
    ensures l.written == got
  {
  }

  /** Once the close has arrived, all that was read from the external socket has. */
  lemma ReceivedAll(w: World, ws: R.Ws, id: ConnId, ended: bool)
    requires Inv(w) && ws in w.wires && WireOk(w, ws)
    requires var rx := w.clients[w.wires[ws].owner].rx[ws]; rx != [] && rx[|rx| - 1] == Close(id, ended)
    ensures HomedAt(w, id, ws)
    ensures Payload(Only(w.clients[w.wires[ws].owner].rx[ws], id)) == HomeSocket(w, id).read
  {
    var rx := w.clients[w.wires[ws].owner].rx[ws];
    assert OutOk(w, ws, id);
    TC.CarriedHome(w, ws, Close(id, ended));
    ReceivedFromHome(w, id);
    OnlyEndsWith(rx, Close(id, ended));
    assert P.Inv(HomeProxy(w, id)) && P.SocketOk(HomeProxy(w, id), id);
    CloseIsLast(HomeProxy(w, id), id, |Only(rx, id)| - 1);
    assert Only(rx, id) == HomeSocket(w, id).sent;
  }

  /**
   When the handler hands a `conn_close` that a local reader sent at the end of its stream to
   the connection's proxy, and the external socket is open and had no failed write, everything
   read from the local socket has been written to the external one.
   */
  lemma DrainedAtServer(w: World, ws: R.Ws, id: ConnId)
    requires Reachable(w) && ws in w.wires && id in w.home
    requires w.wires[ws].handler == Routed(w.home[id], Close(id, true))
    requires Homed(w, id) && HomeSocket(w, id).open && !HomeSocket(w, id).broken
    ensures w.wires[ws].owner in w.clients
    ensures var c := w.clients[w.wires[ws].owner];
            id in c.locals && HomeSocket(w, id).written == c.locals[id].read
  {
    ReachableInv(w);
    assert HandlerOk(w, ws) && WireOk(w, ws) && RoutedOk(w, ws) && UpOk(w, id);
    ReaderReported(w, ws, id);
  }

  lemma ReaderReported(w: World, ws: R.Ws, id: ConnId)
    requires Inv(w) && ws in w.wires && HomedAt(w, id, ws) && WireOk(w, ws) && JustTook(w, ws, Close(id, true))
    ensures var c := w.clients[w.wires[ws].owner];
            id in c.locals && Payload(Only(Taken(w, ws), id)) == c.locals[id].read
  {
    var k := w.wires[ws].owner;
    var c := w.clients[k];
    assert LocalAt(w, k, id) && C.Inv(c);
    assert if id in c.locals then C.LocalOk(c, id) else C.SilentOn(c.tx[ws].log, id);
    ReportedAll(c, ws, id, w.wires[ws].taken);
  }

  /** Up to the report of its end, a WebSocket carries all that the reader of a connection read. */
  lemma ReportedAll(c: C.Client, ws: R.Ws, id: ConnId, taken: nat)
    requires ws in c.tx && 0 < taken <= |c.tx[ws].log| && c.tx[ws].log[taken - 1] == Close(id, true)
    requires if id in c.locals then c.locals[id].home == ws && C.UpOk(c, id) else C.SilentOn(c.tx[ws].log, id)
    ensures id in c.locals && Payload(Only(c.tx[ws].log[..taken], id)) == c.locals[id].read
  {
    var log := c.tx[ws].log;
    assert Close(id, true) in log;
    assert log[..taken] == log[..taken - 1] + [Close(id, true)];
    C.PayloadGrows(log[..taken - 1], Close(id, true), id);
  }

  // ---- Routing isolation ---------------------------------------------------------------

  /** The connection a frame in a handler's hands names, when it may still reach a proxy. */
  function Named(h: Handler): Option<ConnId> {
    match h
    case Routed(_, frame) => if frame.Other? then None else Some(frame.id)
    case Located(_, id, _) => Some(id)
    case Writing(_, id, _) => Some(id)
    case _ => None
  }

  /** A handler that is about to act on proxy `p`. */
  predicate ActsOn(handler: Handler, h: Handling, p: Pid) {
    || (handler.Routed? && h.CloseConn? && handler.proxy == p)
    || (handler.Writing? && h.Write? && handler.proxy == p)
  }

  /** The step leaves every connection of the proxy alone but the one named. */
  ghost predicate OnlyNamed(p: P.Proxy, q: P.Proxy, named: Option<ConnId>) {
    forall id :: named != Some(id) ==>
      && (id in q.conns <==> id in p.conns) && (id in q.sockets <==> id in p.sockets)
      && (id in p.sockets ==> q.sockets[id] == p.sockets[id])
  }

  /**
   A message handler touches only proxies of the device registered on its own WebSocket, even
   when the proxy was removed or its port given away between lookup and use; and in such a
   proxy only the connection the message names.
   */
  lemma RoutingIsolation(w: World, ws: R.Ws, h: Handling, task: TaskId, p: Pid)
    requires Reachable(w) && CanHandler(w, ws, h, task) && p in w.proxies
    ensures p in DoHandler(w, ws, h, task).proxies
    ensures DoHandler(w, ws, h, task).proxies[p] != w.proxies[p] ==>
              && w.proxies[p].ws == ws && ActsOn(w.wires[ws].handler, h, p)
              && R.Owner(w.registry, ws).Some? && R.Owner(w.registry, ws).value.id == w.proxies[p].device
    ensures OnlyNamed(w.proxies[p], DoHandler(w, ws, h, task).proxies[p], Named(w.wires[ws].handler))
  {
    ReachableInv(w);
    assert HandlerOk(w, ws) && TargetOk(w, ws);
    HandlerTouches(w, ws, h, task, p);
    HandlerNames(w, ws, h, task, p);
  }

  lemma HandlerTouches(w: World, ws: R.Ws, h: Handling, task: TaskId, p: Pid)
    requires CanHandler(w, ws, h, task) && p in w.proxies
    ensures p in DoHandler(w, ws, h, task).proxies
    ensures DoHandler(w, ws, h, task).proxies[p] != w.proxies[p] ==> ActsOn(w.wires[ws].handler, h, p)
  {
    HandlerLeaves(w, ws, h, task);
  }

  lemma CallNames(p: P.Proxy, e: P.Event)
    requires P.Can(p, e) && (e.CloseConn? || e.Write?)
    ensures OnlyNamed(p, P.Do(p, e), Some(e.id))
  {
  }

  lemma HandlerNames(w: World, ws: R.Ws, h: Handling, task: TaskId, p: Pid)
    requires CanHandler(w, ws, h, task) && p in w.proxies && p in DoHandler(w, ws, h, task).proxies
    ensures OnlyNamed(w.proxies[p], DoHandler(w, ws, h, task).proxies[p], Named(w.wires[ws].handler))
  {
    var handler := w.wires[ws].handler;
    HandlerTouches(w, ws, h, task, p);
    if DoHandler(w, ws, h, task).proxies[p] != w.proxies[p] {
      if h.CloseConn? {
        CallNames(w.proxies[p], P.CloseConn(handler.frame.id));
      } else {
        CallNames(w.proxies[p], P.Write(handler.id, handler.data, h.n, h.ok));
      }
    }
  }

  // ---- No listener is lost or doubled --------------------------------------------------

  /**
   Every started proxy is in exactly one place: in the registry, where it runs; or in exactly
   one stop list; or stopped.
   */
  lemma NoProxyLost(w: World, p: Pid)
    requires Reachable(w) && p in w.proxies
    ensures InRegistry(w, p) || w.proxies[p].StopDone() || exists t :: InList(w, t, p)
    ensures InRegistry(w, p) ==> w.proxies[p].stop.Running? && forall t :: !InList(w, t, p)
    ensures forall t, u :: InList(w, t, p) && InList(w, u, p) ==> t == u
    ensures forall t, i, j ::
              (t in w.tasks && 0 <= i < j < |w.tasks[t]|) ==> !(w.tasks[t][i] == p && w.tasks[t][j] == p)
  {
    ReachableInv(w);
    assert PlaceOk(w, p);
    forall t | t in w.tasks ensures ListOk(w, t) {}
  }

  /**
   Two proxies on one port never listen at the same time: what the assumption that binding a bound
   port fails amounts to, stopped and restarted proxies included.
   */
  lemma OneListenerPerPort(w: World, p: Pid, q: Pid)
    requires Reachable(w) && p in w.proxies && q in w.proxies
    requires w.proxies[p].port == w.proxies[q].port && w.proxies[p].Bound() && w.proxies[q].Bound()
    ensures p == q
  {
    ReachableInv(w);
    assert OneListener(w, p, q);
  }

  // ---- Closing never ping-pongs --------------------------------------------------------

  /** A prefix of `open data* close`. */
  predicate OpenDataClose(frames: seq<Frame>, id: ConnId) {
    && (frames != [] ==> frames[0] == Open(id))
    && forall i :: 0 < i < |frames| ==>
         About(frames[i], id) && (frames[i].Data? || (frames[i].Close? && i == |frames| - 1))
  }

  lemma SentShape(p: P.Proxy, id: ConnId)
    requires id in p.sockets && P.SocketOk(p, id)
    ensures OpenDataClose(p.sockets[id].sent, id)
  {
    var s := p.sockets[id];
    if P.Ended(s, id) {
      forall i | 0 < i < |s.sent| - 1 ensures s.sent[i].Data? && s.sent[i].id == id {
        assert s.sent[..|s.sent| - 1][i] == s.sent[i];
      }
      assert s.sent[..|s.sent| - 1][0] == s.sent[0];
    }
  }

  /** For every connection, every WebSocket carries to the client a prefix of `open data* close`. */
  lemma LogIsOpenDataClose(w: World, ws: R.Ws, id: ConnId)
    requires Reachable(w) && ws in w.wires
    ensures OpenDataClose(Only(w.wires[ws].out.log, id), id)
    ensures Only(w.wires[ws].out.log, id) != [] ==> HomedAt(w, id, ws)
  {
    ReachableInv(w);
    assert OutOk(w, ws, id);
    if HomedAt(w, id, ws) {
      assert P.Inv(HomeProxy(w, id)) && P.SocketOk(HomeProxy(w, id), id);
      SentShape(HomeProxy(w, id), id);
    }
  }

  /** The client reports the close of a connection once, plus once per message it cannot deliver. */
  lemma FewReports(w: World, k: Cid, id: ConnId)
    requires Reachable(w) && k in w.clients
    ensures w.clients[k].closes[id] <= w.clients[k].undelivered[id] + 1
  {
    ReachableInv(w);
    assert C.Inv(w.clients[k]) && C.Balanced(w.clients[k], id);
  }

  /** How many reports of the close of `id` client `k` writes in a run. */
  ghost function Reports(w: World, steps: seq<Step>, k: Cid, id: ConnId): nat
    requires Allowed(w, steps)
    decreases |steps|
  {
    if steps == [] then 0
    else (if Writes(w, steps[0], k, id) then 1 else 0) + Reports(Do(w, steps[0]), steps[1..], k, id)
  }

  predicate Pending(c: C.Client, id: ConnId) {
    c.token.Some? && c.token.value.frame.Close? && c.token.value.frame.id == id
  }

  predicate Writes(w: World, s: Step, k: Cid, id: ConnId) {
    s == OfClient(k, C.Link(C.WriteMessage(true))) && k in w.clients && Pending(w.clients[k], id)
  }

  predicate CalledFirst(c: C.Client, d: C.Client, wrote: bool, id: ConnId) {
    (if wrote then 1 else 0) + (if Pending(d, id) then 1 else 0) + c.closes[id]
    <= d.closes[id] + (if Pending(c, id) then 1 else 0)
  }

  /** A report is written after it was called for, once. */
  lemma ReportsAreCalled(c: C.Client, e: C.Event, id: ConnId)
    requires C.Can(c, e)
    ensures CalledFirst(c, C.Do(c, e), e == C.Link(C.WriteMessage(true)) && Pending(c, id), id)
  {
    match e
    case Session(_) =>
    case Handler(h) => HandlerReports(c, h, id);
    case Link(l) => LinkReports(c, l, id);
    case OfReader(_, _) =>
  }

  lemma HandlerReports(c: C.Client, e: C.HandlerEvent, id: ConnId)
    requires C.CanHandler(c, e)
    ensures C.DoHandler(c, e).token == c.token && C.DoHandler(c, e).closes == c.closes
  {
  }

  lemma LinkReports(c: C.Client, e: C.LinkEvent, id: ConnId)
    requires C.CanLink(c, e)
    ensures CalledFirst(c, C.DoLink(c, e), e == C.WriteMessage(true) && Pending(c, id), id)
  {
    if e.WriteMessage? {} else {}
  }

  lemma ClientsStay(w: World, s: Step)
    requires Can(w, s) && !s.OfClient?
    ensures Do(w, s).clients == w.clients
  {
    match s
    case OfProxy(_, _, _) =>
    case OfHandler(_, _, _) =>
    case OfAdmin(_, _) =>
    case OfTask(_) =>
  }

  lemma OtherClientsStay(w: World, s: Step, k: Cid)
    requires Can(w, s) && k in w.clients
    ensures k in Do(w, s).clients
    ensures !(s.OfClient? && s.k == k) ==> Do(w, s).clients[k] == w.clients[k]
  {
    if !s.OfClient? { ClientsStay(w, s); }
  }

  lemma {:induction false} ReportsBounded(w: World, steps: seq<Step>, k: Cid, id: ConnId)
    requires Allowed(w, steps) && k in w.clients
    ensures k in After(w, steps).clients
    ensures Reports(w, steps, k, id) + w.clients[k].closes[id]
            <= After(w, steps).clients[k].closes[id] + (if Pending(w.clients[k], id) then 1 else 0)
    decreases |steps|
  {
    if steps != [] {
      OtherClientsStay(w, steps[0], k);
      if steps[0].OfClient? && steps[0].k == k { ReportsAreCalled(w.clients[k], steps[0].act, id); }
      ReportsBounded(Do(w, steps[0]), steps[1..], k, id);
    }
  }

  /**
   In a whole run a client writes at most one `conn_close` for a connection, plus one for each
   data message it could not deliver.
   */
  lemma ClosingDoesNotPingPong(w: World, steps: seq<Step>, k: Cid, id: ConnId)
    requires Initial(w) && Allowed(w, steps) && k in w.clients
    ensures k in After(w, steps).clients
    ensures Reports(w, steps, k, id) <= After(w, steps).clients[k].undelivered[id] + 1
  {
    ReportsBounded(w, steps, k, id);
    assert Reachable(After(w, steps));
    FewReports(After(w, steps), k, id);
  }
}
