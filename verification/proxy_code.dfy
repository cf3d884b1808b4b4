/**
 `Proxy` of proxy.go in the code's own form: an object whose methods change its maps, flags and
 counter in place and close sockets in loops. The ghost field `model` follows the state
 machine of `Proxies`, and every method says which events of the machine it performs.
 */
module ProxyCode {
  import opened Wrappers
  import opened Frames
  import opened Objects
  import C = Clients
  import P = Proxies
  import PS = ProxyStop

  /** The object shows what the machine says of one socket. */
  ghost predicate Mirrors(c: Conn, s: P.Socket)
    reads c
  {
    c.open == s.open && c.broken == s.broken && c.written == s.written
  }

  /** What the machine looks like once `Stop` has run to its end. */
  function Stopped(p: P.Proxy): P.Proxy {
    p.(stop := P.Draining({}), conns := {}, sockets := ClosedAmong(p.sockets, p.conns))
  }

  function ClosedAmong(sockets: map<ConnId, P.Socket>, ids: set<ConnId>): map<ConnId, P.Socket> {
    map id | id in sockets :: if id in ids then sockets[id].(open := false) else sockets[id]
  }

  /** What `HandleFromClient` does to the machine: nothing, or one write. */
  function Delivered(p: P.Proxy, id: ConnId, data: Bytes, n: nat, fails: bool): P.Proxy
    requires n <= |data|
  {
    if id in p.conns && id in p.sockets && p.stop.Running? then
      var s := p.sockets[id];
      P.Deliver(p, id, data, Through(s.open, s.broken, data, n, fails), s.open && !s.broken && !fails)
    else p
  }

  // ---- The effects are events of the machine -------------------------------------------

  /** `CloseConn` is the close event of the machine. */
  lemma DropInv(p: P.Proxy, id: ConnId)
    requires P.Inv(p)
    ensures P.Inv(P.Drop(p, id)) && P.Can(p, P.CloseConn(id)) && P.Do(p, P.CloseConn(id)) == P.Drop(p, id)
  {
    P.StepInv(p, P.CloseConn(id));
  }

  lemma DeliverInv(p: P.Proxy, id: ConnId, data: Bytes, n: nat, fails: bool)
    requires P.Inv(p) && n <= |data|
    ensures P.Inv(Delivered(p, id, data, n, fails))
    ensures id in p.conns && id in p.sockets && p.stop.Running? ==>
              exists m, ok :: P.Can(p, P.Write(id, data, m, ok))
                  && Delivered(p, id, data, n, fails) == P.Do(p, P.Write(id, data, m, ok))
  {
    if id in p.conns && id in p.sockets && p.stop.Running? {
      var s := p.sockets[id];
      var e := P.Write(id, data, Through(s.open, s.broken, data, n, fails), s.open && !s.broken && !fails);
      assert P.Can(p, e);
      P.StepInv(p, e);
      assert Delivered(p, id, data, n, fails) == P.Do(p, e);
    }
  }

  // ---- Whole methods are runs of the machine -------------------------------------------

  /** One turn of the accept loop, from the limit check to the start of the read loop. */
  function Served(p: P.Proxy, id: ConnId): P.Proxy
    requires id in p.sockets
  {
    if p.connCount >= p.maxConns
    then P.Shut(P.Move(P.TakeSlot(p, id), id, P.Refused), id).(accept := P.Checking)
    else P.Move(P.Emit(P.Enlist(P.TakeSlot(p, id), id), id, Open(id), P.Announced), id, P.AtCheck)
           .(accept := P.Checking)
  }

  lemma ServedIsARun(p: P.Proxy, id: ConnId)
    requires p.accept == P.Busy(id) && P.At(p, id, P.Accepted)
    ensures var events := if p.connCount >= p.maxConns then [P.Admit(id), P.TurnAway(id)]
                          else [P.Admit(id), P.List(id), P.Announce(id), P.Spawn(id)];
            PS.Allowed(p, events) && PS.After(p, events) == Served(p, id)
  {
    if p.connCount >= p.maxConns {
      var p1 := P.Do(p, P.Admit(id));
      RunOne(p1, P.TurnAway(id));
      RunMore(p, P.Admit(id), [P.TurnAway(id)]);
    } else {
      var p1 := P.Do(p, P.Admit(id));
      var p2 := P.Do(p1, P.List(id));
      var p3 := P.Do(p2, P.Announce(id));
      RunOne(p3, P.Spawn(id));
      RunMore(p2, P.Announce(id), [P.Spawn(id)]);
      RunMore(p1, P.List(id), [P.Announce(id), P.Spawn(id)]);
      RunMore(p, P.Admit(id), [P.List(id), P.Announce(id), P.Spawn(id)]);
    }
  }

  lemma RunOne(p: P.Proxy, e: P.Event)
    requires P.Can(p, e)
    ensures PS.Allowed(p, [e]) && PS.After(p, [e]) == P.Do(p, e)
  {
    assert PS.Allowed(P.Do(p, e), []);
  }

  lemma RunMore(p: P.Proxy, e: P.Event, rest: seq<P.Event>)
    requires P.Can(p, e) && PS.Allowed(P.Do(p, e), rest)
    ensures PS.Allowed(p, [e] + rest) && PS.After(p, [e] + rest) == PS.After(P.Do(p, e), rest)
  {
    assert ([e] + rest)[1..] == rest;
  }

  lemma {:induction false} DrainIsARun(p: P.Proxy) returns (events: seq<P.Event>)
    requires p.stop.Draining? && p.stop.rest <= p.sockets.Keys
    ensures PS.Allowed(p, events)
    ensures PS.After(p, events) == p.(stop := P.Draining({}), sockets := ClosedAmong(p.sockets, p.stop.rest))
    decreases |p.stop.rest|
  {
    if p.stop.rest == {} {
      events := [];
      assert ClosedAmong(p.sockets, {}) == p.sockets;
    } else {
      var id :| id in p.stop.rest;
      var q := P.Do(p, P.StopClose(id));
      var more := DrainIsARun(q);
      RunMore(p, P.StopClose(id), more);
      events := [P.StopClose(id)] + more;
      assert ClosedAmong(q.sockets, q.stop.rest) == ClosedAmong(p.sockets, p.stop.rest);
    }
  }

  lemma StopIsARun(p: P.Proxy) returns (events: seq<P.Event>)
    requires p.stop.Running? && p.conns <= p.sockets.Keys
    ensures PS.Allowed(p, events) && PS.After(p, events) == Stopped(p)
  {
    var p1 := P.Do(p, P.StopFlag);
    var p2 := P.Do(p1, P.StopSignal);
    var p3 := P.Do(p2, P.StopUnbind);
    var p4 := P.Do(p3, P.StopDrain);
    var more := DrainIsARun(p4);
    RunMore(p3, P.StopDrain, more);
    RunMore(p2, P.StopUnbind, [P.StopDrain] + more);
    RunMore(p1, P.StopSignal, [P.StopUnbind] + ([P.StopDrain] + more));
    RunMore(p, P.StopFlag, [P.StopSignal] + ([P.StopUnbind] + ([P.StopDrain] + more)));
    events := [P.StopFlag] + ([P.StopSignal] + ([P.StopUnbind] + ([P.StopDrain] + more)));
  }

  /** The read loop has forwarded `inputs` and is back at its stop check. */
  function Forwarded(p: P.Proxy, id: ConnId, inputs: seq<Bytes>): P.Proxy
    requires id in p.sockets
  {
    var s := p.sockets[id];
    P.Put(p, id, s.(read := s.read + Joined(inputs), sent := s.sent + Chunks(id, inputs)))
  }

  /** The read loop has ended and its deferred clean-up is done. */
  function Ended(p: P.Proxy, id: ConnId): P.Proxy
    requires id in p.sockets
  {
    var s := p.sockets[id];
    P.Put(p, id, s.(open := false, sent := s.sent + [Close(id, true)], stage := P.Finished))
      .(conns := p.conns - {id}, connCount := p.connCount - 1)
  }

  /** One chunk is read and forwarded. */
  function OneTurn(p: P.Proxy, id: ConnId, data: Bytes): P.Proxy
    requires id in p.sockets
  {
    var s := p.sockets[id];
    P.Put(p, id, s.(read := s.read + data, sent := s.sent + [Data(id, data)]))
  }

  lemma TurnIsARun(p: P.Proxy, id: ConnId, data: Bytes, more: seq<P.Event>)
    requires P.At(p, id, P.AtCheck) && p.sockets[id].open && !p.Signal()
    requires PS.Allowed(OneTurn(p, id, data), more)
    ensures var events := [P.LoopCheck(id)] + ([P.Read(id, data)] + ([P.Forward(id)] + more));
            PS.Allowed(p, events) && PS.After(p, events) == PS.After(OneTurn(p, id, data), more)
  {
    var p1 := P.Do(p, P.LoopCheck(id));
    var p2 := P.Do(p1, P.Read(id, data));
    assert P.Do(p2, P.Forward(id)) == OneTurn(p, id, data);
    RunMore(p2, P.Forward(id), more);
    RunMore(p1, P.Read(id, data), [P.Forward(id)] + more);
    RunMore(p, P.LoopCheck(id), [P.Read(id, data)] + ([P.Forward(id)] + more));
  }

  lemma {:induction false} ForwardedIsARun(p: P.Proxy, id: ConnId, inputs: seq<Bytes>) returns (events: seq<P.Event>)
    requires P.At(p, id, P.AtCheck) && p.sockets[id].open && !p.Signal()
    ensures PS.Allowed(p, events) && PS.After(p, events) == Forwarded(p, id, inputs)
    decreases |inputs|
  {
    if inputs == [] {
      events := [];
      var s := p.sockets[id];
      assert s.read + Joined(inputs) == s.read && s.sent + Chunks(id, inputs) == s.sent;
      assert p.sockets[id := s] == p.sockets;
    } else {
      var p3 := OneTurn(p, id, inputs[0]);
      var more := ForwardedIsARun(p3, id, inputs[1..]);
      TurnIsARun(p, id, inputs[0], more);
      events := [P.LoopCheck(id)] + ([P.Read(id, inputs[0])] + ([P.Forward(id)] + more));
      ForwardedTurns(p, id, inputs, p3);
    }
  }

  lemma ForwardedTurns(p: P.Proxy, id: ConnId, inputs: seq<Bytes>, q: P.Proxy)
    requires id in p.sockets && inputs != [] && p.sockets[id].stage == P.AtCheck
    requires var s := p.sockets[id];
             q == P.Put(p, id, s.(read := s.read + inputs[0], sent := s.sent + [Data(id, inputs[0])]))
    ensures Forwarded(q, id, inputs[1..]) == Forwarded(p, id, inputs)
  {
    var s := p.sockets[id];
    JoinedFirst(inputs);
    assert Chunks(id, inputs) == [Data(id, inputs[0])] + Chunks(id, inputs[1..]);
    var t := s.(read := s.read + Joined(inputs), sent := s.sent + Chunks(id, inputs));
    assert t.read == s.read + inputs[0] + Joined(inputs[1..]);
    assert t.sent == s.sent + [Data(id, inputs[0])] + Chunks(id, inputs[1..]);
    assert q.sockets[id := t] == p.sockets[id := t];
  }

  lemma ForwardedNone(p: P.Proxy, id: ConnId)
    requires id in p.sockets
    ensures Forwarded(p, id, []) == p && Chunks(id, []) == []
  {
    var s := p.sockets[id];
    assert Chunks(id, []) == [] && Joined([]) == [];
    assert s.read + [] == s.read && s.sent + [] == s.sent && p.sockets[id := s] == p.sockets;
  }

  /** One more turn of the loop. */
  lemma NextTurn(p: P.Proxy, id: ConnId, inputs: seq<Bytes>, n: nat, out: C.Outgoing, failing: nat)
    requires id in p.sockets && n < |inputs|
    ensures Forwarded(p, id, inputs[..n + 1]) == OneTurn(Forwarded(p, id, inputs[..n]), id, inputs[n])
    ensures AttemptedAll(out, Chunks(id, inputs[..n + 1]), failing) ==
            Attempted(AttemptedAll(out, Chunks(id, inputs[..n]), failing), Data(id, inputs[n]), n == failing)
  {
    assert inputs[..n + 1] == inputs[..n] + [inputs[n]];
    ForwardedNext(p, id, inputs[..n], inputs[n]);
    assert Chunks(id, inputs[..n + 1]) == Chunks(id, inputs[..n]) + [Data(id, inputs[n])];
    AttemptedNext(out, Chunks(id, inputs[..n]), Data(id, inputs[n]), failing);
  }

  lemma ForwardedNext(p: P.Proxy, id: ConnId, inputs: seq<Bytes>, data: Bytes)
    requires id in p.sockets
    ensures Forwarded(p, id, inputs + [data]) == OneTurn(Forwarded(p, id, inputs), id, data)
  {
    var s := p.sockets[id];
    var more := inputs + [data];
    assert more[..|inputs|] == inputs;
    assert Chunks(id, more) == Chunks(id, inputs) + [Data(id, data)];
    var t := s.(read := s.read + Joined(more), sent := s.sent + Chunks(id, more));
    assert t.read == s.read + Joined(inputs) + data;
    assert t.sent == s.sent + Chunks(id, inputs) + [Data(id, data)];
    assert Forwarded(p, id, inputs).sockets[id := t] == p.sockets[id := t];
  }

  lemma LeaveIsARun(p: P.Proxy, id: ConnId)
    requires P.At(p, id, P.Unlisting)
    ensures var events := [P.Unlist(id), P.Release(id)];
      && PS.Allowed(p, events)
      && PS.After(p, events) == P.Move(p, id, P.Finished).(conns := p.conns - {id}, connCount := p.connCount - 1)
  {
    RunOne(P.Do(p, P.Unlist(id)), P.Release(id));
    RunMore(p, P.Unlist(id), [P.Release(id)]);
  }

  lemma CleanUpIsARun(p: P.Proxy, id: ConnId)
    requires P.At(p, id, P.Ending)
    ensures var events := [P.Notify(id), P.CloseSocket(id), P.Unlist(id), P.Release(id)];
            PS.Allowed(p, events) && PS.After(p, events) == Ended(p, id)
  {
    var p2 := P.Do(p, P.Notify(id));
    LeaveIsARun(P.Do(p2, P.CloseSocket(id)), id);
    RunMore(p2, P.CloseSocket(id), [P.Unlist(id), P.Release(id)]);
    RunMore(p, P.Notify(id), [P.CloseSocket(id), P.Unlist(id), P.Release(id)]);
  }

  lemma EndedIsARun(p: P.Proxy, id: ConnId) returns (events: seq<P.Event>)
    requires P.At(p, id, P.AtCheck)
    ensures PS.Allowed(p, events) && PS.After(p, events) == Ended(p, id)
  {
    var p0 := P.Do(p, P.LoopCheck(id));
    events := [P.Notify(id), P.CloseSocket(id), P.Unlist(id), P.Release(id)];
    if !p.Signal() {
      CleanUpIsARun(P.Do(p0, P.ReadFails(id)), id);
      RunMore(p0, P.ReadFails(id), events);
      events := [P.ReadFails(id)] + events;
    } else {
      CleanUpIsARun(p0, id);
    }
    RunMore(p, P.LoopCheck(id), events);
    events := [P.LoopCheck(id)] + events;
  }

  class Proxy {
    ghost const id: nat
    const port: int
    const device: DeviceRecord
    const maxConns: nat
    var conns: map<ConnId, Conn>
    var connCount: int
    var stopped: bool
    var stopCh: bool        // closed
    var listening: bool
    ghost var model: P.Proxy
    ghost var accepted: map<ConnId, Conn>

    ghost predicate Valid()
      reads this, accepted.Values
    {
      Agrees() && Sockets()
    }

    ghost predicate Agrees()
      reads this
    {
      && model.device == device.id && model.ws == device.conn.id && model.port == port && model.maxConns == maxConns
      && conns.Keys == model.conns && connCount == model.connCount
      && stopped == !model.stop.Running? && stopCh == model.Signal() && listening == model.Bound()
    }

    ghost predicate Sockets()
      reads this, accepted.Values
    {
      && accepted.Keys == model.sockets.Keys
      && (forall i :: i in conns ==> i in accepted && conns[i] == accepted[i])
      && (forall i, j :: i in accepted && j in accepted && i != j ==> accepted[i] != accepted[j])
      && forall i :: i in accepted ==> Mirrors(accepted[i], model.sockets[i])
    }

    constructor (ghost id: nat, port: int, device: DeviceRecord, maxConns: int)
      ensures Valid() && model == P.NewProxy(device.id, device.conn.id, port, maxConns)
      ensures this.id == id && this.port == port && this.device == device && accepted == map[]
      ensures this.maxConns == if maxConns > 0 then maxConns else 10000
      ensures conns == map[] && connCount == 0 && !stopped && !stopCh && listening
    {
      this.id := id;
      this.port, this.device := port, device;
      this.maxConns := if maxConns <= 0 then P.DEFAULT_MAX_CONNS else maxConns;
      conns, connCount := map[], 0;
      stopped, stopCh, listening := false, false, true;
      accepted := map[];
      model := P.NewProxy(device.id, device.conn.id, port, maxConns);
    }

    // ---- Accepting -------------------------------------------------------------------

    /** Accept returned `conn`, which will be known as `id`. */
    ghost method Accept(id: ConnId, conn: Conn)
      requires Valid() && P.Can(model, P.Accept(id))
      requires conn !in accepted.Values && conn.open && !conn.broken && conn.written == []
      modifies this
      ensures Valid() && model == P.Do(old(model), P.Accept(id)) && accepted == old(accepted)[id := conn]
      ensures conns == old(conns)
    {
      model := P.Do(model, P.Accept(id));
      accepted := accepted[id := conn];
    }

    /** Under `connCountMu`: takes a slot unless all are taken. */
    method Admit(ghost id: ConnId) returns (ok: bool)
      requires Valid() && model.accept == P.Busy(id) && P.At(model, id, P.Accepted)
      modifies this
      ensures Valid() && model == P.TakeSlot(old(model), id) && accepted == old(accepted) && conns == old(conns)
      ensures ok == (old(connCount) < maxConns) && connCount == old(connCount) + if ok then 1 else 0
    {
      model := P.TakeSlot(model, id);
      if connCount >= maxConns { return false; }
      connCount := connCount + 1;
      ok := true;
    }

    /** Under `mu`: enters the connection into the map. */
    method List(id: ConnId, conn: Conn)
      requires Valid() && model.accept == P.Busy(id) && P.At(model, id, P.Admitted) && conn == accepted[id]
      modifies this
      ensures Valid() && model == P.Enlist(old(model), id) && accepted == old(accepted)
      ensures conns == old(conns)[id := conn]
    {
      model := P.Enlist(model, id);
      conns := conns[id := conn];
    }

    // ---- Calls from the routing ------------------------------------------------------

    method HandleFromClient(id: ConnId, data: Bytes, n: nat, fails: bool)
      requires Valid() && n <= |data|
      modifies accepted.Values, this`model
      ensures Valid() && model == Delivered(old(model), id, data, n, fails)
      ensures id in conns && !stopped ==>
                conns[id].written ==
                    old(conns[id].written) + data[..Through(old(conns[id].open), old(conns[id].broken), data, n, fails)]
      ensures forall c :: c in accepted.Values && !(id in conns && c == conns[id]) ==> c.written == old(c.written)
    {
      if id in conns {
        if stopped { return; }
        var conn := conns[id];
        model := Delivered(model, id, data, n, fails);
        var err := conn.Write(data, n, fails);
      }
    }

    method CloseConn(id: ConnId)
      requires Valid()
      modifies this, accepted.Values
      ensures Valid() && model == P.Drop(old(model), id) && accepted == old(accepted)
      ensures conns == old(conns) - {id}
      ensures id in old(conns) ==> !accepted[id].open
      ensures forall i :: i in accepted && !(i == id && id in old(conns)) ==> accepted[i].open == old(accepted[i].open)
    {
      if id in conns { CloseListed(id); }
    }

    method CloseListed(id: ConnId)
      requires Valid() && id in conns
      modifies this`conns, this`model, conns[id]
      ensures Valid() && model == P.Drop(old(model), id)
      ensures conns == old(conns) - {id} && !accepted[id].open
    {
      conns[id].Close();
      conns := conns - {id};
      model := P.Drop(model, id);
    }

    // ---- Stopping --------------------------------------------------------------------

    /** Everything `Stop` does, when nobody else moves meanwhile. */
    method Stop()
      requires Valid()
      modifies this, accepted.Values
      ensures Valid() && accepted == old(accepted)
      ensures model == if old(stopped) then old(model) else Stopped(old(model))
      ensures stopped && conns == if old(stopped) then old(conns) else map[]
      ensures !old(stopped) ==> stopCh && !listening && forall i :: i in old(conns) ==> !old(conns)[i].open
    {
      if stopped { return; }
      StopRunning();
    }

    /** The part of `Stop` after the flag was won. */
    method StopRunning()
      requires Valid() && !stopped
      modifies this`stopped, this`stopCh, this`listening, this`conns, this`model, accepted.Values
      ensures Valid() && model == Stopped(old(model))
      ensures stopped && stopCh && !listening && conns == map[] && forall i :: i in old(conns) ==> !old(conns)[i].open
    {
      stopped := true;
      stopCh := true;
      listening := false;
      var toClose := Collect();
      conns := map[];
      CloseAll(toClose);
      model := Stopped(model);
    }

    method Collect() returns (list: seq<Conn>)
      ensures forall c :: c in list <==> c in conns.Values
    {
      list := [];
      var rest := conns;
      while rest != map[]
        invariant forall i :: i in rest ==> i in conns && rest[i] == conns[i]
        invariant forall i :: i in conns ==> i in rest || conns[i] in list
        invariant forall c :: c in list ==> c in conns.Values
        decreases |rest|
      {
        var i :| i in rest;
        list := list + [rest[i]];
        rest := rest - {i};
      }
    }

    // ---- One external connection -----------------------------------------------------

    method SendToClient(frame: Frame, fails: bool)
      modifies device.conn
      ensures device.conn.Out() == Attempted(old(device.conn.Out()), frame, fails)
    {
      var err := device.conn.WriteMessage(frame, fails);
    }

    /** One turn of the accept loop with a connection that was just accepted. */
    method Serve(id: ConnId, conn: Conn, fails: bool) returns (admitted: bool)
      requires Valid() && model.accept == P.Busy(id) && P.At(model, id, P.Accepted) && conn == accepted[id]
               && id !in conns
      modifies this, conn, device.conn
      ensures Valid() && accepted == old(accepted) && model == Served(old(model), id)
      ensures admitted == (old(connCount) < maxConns)
      ensures conns == if admitted then old(conns)[id := conn] else old(conns)
      ensures conn.open == (admitted && old(conn.open))
      ensures device.conn.Out() ==
              if admitted then Attempted(old(device.conn.Out()), Open(id), fails) else old(device.conn.Out())
    {
      admitted := Admit(id);
      if !admitted {
        TurnAway(id, conn);
      } else {
        List(id, conn);
        Greet(id, fails);
      }
    }

    method TurnAway(ghost id: ConnId, conn: Conn)
      requires Valid() && P.At(model, id, P.TurnedAway) && conn == accepted[id] && id !in conns
      modifies this`model, conn
      ensures Valid() && model == P.Shut(P.Move(old(model), id, P.Refused), id).(accept := P.Checking)
      ensures !conn.open
    {
      conn.Close();
      model := P.Shut(P.Move(model, id, P.Refused), id).(accept := P.Checking);
    }

    method Greet(id: ConnId, fails: bool)
      requires Valid() && P.At(model, id, P.Listed)
      modifies this`model, device.conn
      ensures Valid()
              && model == P.Move(P.Emit(old(model), id, Open(id), P.Announced), id, P.AtCheck).(accept := P.Checking)
      ensures device.conn.Out() == Attempted(old(device.conn.Out()), Open(id), fails)
    {
      SendToClient(Open(id), fails);
      model := P.Move(P.Emit(model, id, Open(id), P.Announced), id, P.AtCheck).(accept := P.Checking);
    }

    /**
     The read loop of one connection: `inputs` is what Read returns until it fails. It forwards
     everything it reads, in order, then reports the end, closes, and gives its slot back. A send
     that fails, of number `failing`, stops none of this.
     */
    method ReadLoop(id: ConnId, conn: Conn, inputs: seq<Bytes>, failing: nat)
      requires Valid() && P.At(model, id, P.AtCheck) && conn == accepted[id]
      modifies this, conn, device.conn
      ensures Valid() && accepted == old(accepted)
      ensures model == Ended(if old(stopCh) then old(model) else Forwarded(old(model), id, inputs), id)
      ensures conns == old(conns) - {id} && !conn.open && connCount == old(connCount) - 1
      ensures device.conn.Out() ==
              AttemptedAll(old(device.conn.Out()),
                           (if old(stopCh) then [] else Chunks(id, inputs)) + [Close(id, true)], failing)
    {
      ghost var frames := if stopCh then [] else Chunks(id, inputs);
      AttemptedNext(device.conn.Out(), frames, Close(id, true), failing);
      var count := ForwardAll(id, inputs, failing);
      EndReadLoop(id, conn, count == failing);
    }

    /** The loop: it ends at a closed stop channel or when Read fails, after `count` chunks. */
    method ForwardAll(id: ConnId, inputs: seq<Bytes>, failing: nat) returns (count: nat)
      requires Valid() && P.At(model, id, P.AtCheck)
      modifies this`model, device.conn
      ensures Valid() && count == if stopCh then 0 else |inputs|
      ensures model == if stopCh then old(model) else Forwarded(old(model), id, inputs)
      ensures device.conn.Out() ==
              AttemptedAll(old(device.conn.Out()), if stopCh then [] else Chunks(id, inputs), failing)
    {
      count := 0;
      ghost var before, out := model, device.conn.Out();
      var again := true;
      ForwardedNone(model, id);
      while again
        invariant count <= |inputs| && Valid() && P.At(model, id, P.AtCheck) && (stopCh ==> count == 0)
        invariant !again ==> stopCh || count == |inputs|
        invariant model == Forwarded(before, id, inputs[..count])
        invariant device.conn.Out() == AttemptedAll(out, Chunks(id, inputs[..count]), failing)
        decreases |inputs| - count, again
      {
        again := ReadTurn(id, if count < |inputs| then Some(inputs[count]) else None, count == failing);
        if again {
          NextTurn(before, id, inputs, count, out, failing);
          count := count + 1;
        }
      }
      assert inputs[..count] == if stopCh then [] else inputs;
    }

    /**
     One turn of the loop, whatever happened since the last: `input` is what Read returns, nothing
     if it fails.
     */
    method ReadTurn(id: ConnId, input: Option<Bytes>, fails: bool) returns (again: bool)
      requires Valid() && P.At(model, id, P.AtCheck)
      modifies this`model, device.conn
      ensures Valid() && again == (!stopCh && input.Some?)
      ensures model == if again then OneTurn(old(model), id, input.value) else old(model)
      ensures device.conn.Out() ==
              if again then Attempted(old(device.conn.Out()), Data(id, input.value), fails) else old(device.conn.Out())
    {
      if stopCh { return false; }
      if input.None? { return false; }
      SendToClient(Data(id, input.value), fails);
      model := OneTurn(model, id, input.value);
      again := true;
    }

    /** The deferred function of the read loop. */
    method EndReadLoop(id: ConnId, conn: Conn, fails: bool)
      requires Valid() && P.At(model, id, P.AtCheck) && conn == accepted[id]
      modifies this, conn, device.conn
      ensures Valid() && accepted == old(accepted) && model == Ended(old(model), id)
      ensures conns == old(conns) - {id} && !conn.open && connCount == old(connCount) - 1
      ensures device.conn.Out() == Attempted(old(device.conn.Out()), Close(id, true), fails)
    {
      SendToClient(Close(id, true), fails);
      Leave(id, conn);
    }

    method Leave(id: ConnId, conn: Conn)
      requires Valid() && P.At(model, id, P.AtCheck) && conn == accepted[id]
      modifies this`conns, this`connCount, this`model, conn
      ensures Valid() && model == Ended(old(model), id)
      ensures conns == old(conns) - {id} && !conn.open && connCount == old(connCount) - 1
    {
      conn.Close();
      conns := conns - {id};
      connCount := connCount - 1;
      model := Ended(model, id);
    }
  }

  method CloseAll(list: seq<Conn>)
    modifies set c | c in list
    ensures forall c :: c in list ==> !c.open && c.broken == old(c.broken) && c.written == old(c.written)
  {
    for i := 0 to |list|
      invariant forall c :: c in list ==> c.broken == old(c.broken) && c.written == old(c.written)
      invariant forall j :: 0 <= j < i ==> !list[j].open
    {
      list[i].Close();
    }
  }
}
