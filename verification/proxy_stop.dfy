/**
 What `Stop` achieves (proxy.go:97-118) and how connection slots are conserved
 (proxy.go:139-188), over every interleaving of the accept loop, the read loops, `Stop` and
 the calls made by the routing.
 */
module ProxyStop {
  import R = Registries
  import opened Frames
  import opened Proxies

  predicate Allowed(p: Proxy, events: seq<Event>)
    decreases |events|
  {
    events == [] || (Can(p, events[0]) && Allowed(Do(p, events[0]), events[1..]))
  }

  function After(p: Proxy, events: seq<Event>): Proxy
    requires Allowed(p, events)
    decreases |events|
  {
    if events == [] then p else After(Do(p, events[0]), events[1..])
  }

  lemma {:induction false} RunInv(p: Proxy, events: seq<Event>)
    requires Inv(p) && Allowed(p, events)
    ensures Inv(After(p, events))
    decreases |events|
  {
    if events != [] {
      StepInv(p, events[0]);
      RunInv(Do(p, events[0]), events[1..]);
    }
  }

  // ---- Slots ---------------------------------------------------------------------------

  /**
   In every reachable state the count is the number of connections whose clean-up has not
   finished, it bounds the map, and it never exceeds the limit.
   */
  lemma SlotConservation(p: Proxy, events: seq<Event>)
    requires Inv(p) && Allowed(p, events)
    ensures var q := After(p, events);
            |q.conns| <= q.connCount == |Holders(q)| && q.connCount <= q.maxConns
  {
    RunInv(p, events);
    var q := After(p, events);
    forall id | id in q.conns ensures id in Holders(q) { assert SocketOk(q, id); }
    assert Holders(q) == q.conns + (Holders(q) - q.conns);
  }

  function Returns(events: seq<Event>, id: ConnId): nat
    decreases |events|
  {
    if events == [] then 0 else (if events[0] == Release(id) then 1 else 0) + Returns(events[1..], id)
  }

  predicate IsFinished(p: Proxy, id: ConnId) { At(p, id, Finished) }

  lemma FinishedStays(p: Proxy, e: Event, id: ConnId)
    requires Inv(p) && Can(p, e)
    ensures IsFinished(Do(p, e), id) <==> IsFinished(p, id) || e == Release(id)
  {
    if id in p.sockets { assert SocketOk(p, id); }
    if OfAcceptLoop(e) {} else if OfReadLoop(e) {} else if OfStop(e) {} else {}
  }

  /** A connection returns its slot once when its clean-up finishes, and never again. */
  lemma {:induction false} SlotReturnedOnce(p: Proxy, events: seq<Event>, id: ConnId)
    requires Inv(p) && Allowed(p, events)
    ensures Returns(events, id) ==
            (if IsFinished(After(p, events), id) then 1 else 0) - (if IsFinished(p, id) then 1 else 0)
    decreases |events|
  {
    if events != [] {
      StepInv(p, events[0]);
      FinishedStays(p, events[0], id);
      SlotReturnedOnce(Do(p, events[0]), events[1..], id);
    }
  }

  /** The configured limit, or 10000 when it is not positive. */
  function Limit(configured: int): nat { if configured > 0 then configured else 10000 }

  lemma {:induction false} LimitKept(p: Proxy, events: seq<Event>)
    requires Allowed(p, events)
    ensures After(p, events).maxConns == p.maxConns
    decreases |events|
  {
    if events != [] {
      StepKeepsLimit(p, events[0]);
      LimitKept(Do(p, events[0]), events[1..]);
    }
  }

  lemma StepKeepsLimit(p: Proxy, e: Event)
    requires Can(p, e)
    ensures Do(p, e).maxConns == p.maxConns
  {
    if OfAcceptLoop(e) {} else if OfReadLoop(e) {} else if OfStop(e) {} else {}
  }

  /** However a started proxy runs, no more connections hold a slot than were configured. */
  lemma ConfiguredLimit(device: nat, ws: R.Ws, port: int, configured: int, events: seq<Event>)
    requires Allowed(NewProxy(device, ws, port, configured), events)
    ensures var q := After(NewProxy(device, ws, port, configured), events);
            |q.conns| <= |Holders(q)| <= Limit(configured)
  {
    NewInv(device, ws, port, configured);
    SlotConservation(NewProxy(device, ws, port, configured), events);
    LimitKept(NewProxy(device, ws, port, configured), events);
  }

  /** A connection is turned away exactly when as many as the limit allows hold a slot. */
  lemma AdmittedExactly(p: Proxy, id: ConnId)
    requires Inv(p) && Can(p, Admit(id))
    ensures At(Do(p, Admit(id)), id, Admitted) <==> |Holders(p)| < p.maxConns
    ensures At(Do(p, Admit(id)), id, TurnedAway) <==> |Holders(p)| >= p.maxConns
  {
  }

  // ---- The accept loop goes on until it is stopped -------------------------------------

  predicate LoopLives(p: Proxy) { p.accept == Exited ==> p.Signal() }

  lemma StepKeepsLoop(p: Proxy, e: Event)
    requires LoopLives(p) && Can(p, e)
    ensures LoopLives(Do(p, e)) && (p.Signal() ==> Do(p, e).Signal())
  {
    if OfAcceptLoop(e) {} else if OfReadLoop(e) {} else if OfStop(e) {} else {}
  }

  lemma {:induction false} LoopKept(p: Proxy, events: seq<Event>)
    requires LoopLives(p) && Allowed(p, events)
    ensures LoopLives(After(p, events))
    decreases |events|
  {
    if events != [] {
      StepKeepsLoop(p, events[0]);
      LoopKept(Do(p, events[0]), events[1..]);
    }
  }

  /**
   Whatever a started proxy has been through, failed Accepts included: while its stop channel is
   open its accept loop has not exited and can take a step, and while it listens any new connection
   can be accepted.
   */
  lemma AcceptsUntilStopped(device: nat, ws: R.Ws, port: int, configured: int, events: seq<Event>)
    requires Allowed(NewProxy(device, ws, port, configured), events)
    ensures var q := After(NewProxy(device, ws, port, configured), events);
      !q.Signal() ==>
        && q.accept != Exited
        && (exists e :: OfAcceptLoop(e) && Can(q, e))
        && (q.accept == Listening ==> forall id :: id !in q.sockets ==> Can(q, Accept(id)))
  {
    var p := NewProxy(device, ws, port, configured);
    var q := After(p, events);
    NewInv(device, ws, port, configured);
    RunInv(p, events);
    LoopKept(p, events);
    if !q.Signal() {
      match q.accept
      case Checking => assert OfAcceptLoop(AcceptCheck) && Can(q, AcceptCheck);
      case Listening => assert OfAcceptLoop(AcceptFails) && Can(q, AcceptFails);
      case Busy(id) =>
        assert SocketOk(q, id);
        assert OfAcceptLoop(Helpful(q, id)) && Can(q, Helpful(q, id));
    }
  }

  // ---- Stop is complete ----------------------------------------------------------------

  /**
   Once `Stop` has closed what it collected, a socket that is still open is either in the
   hands of the accept loop or belongs to a read loop that has not read anything and cannot
   read any more; and at most one connection was accepted after the stop channel closed.
   */
  lemma StopComplete(p: Proxy, events: seq<Event>, id: ConnId)
    requires Inv(p) && Allowed(p, events)
    ensures var q := After(p, events);
      && q.late <= 1
      && (q.StopDone() && id in q.sockets && q.sockets[id].open ==>
            || q.accept == Busy(id)
            || ((At(q, id, AtCheck) || At(q, id, Ending) || At(q, id, Closing)) && q.sockets[id].read == []))
  {
    RunInv(p, events);
    var q := After(p, events);
    if id in q.sockets { assert SocketOk(q, id); }
  }

  /** Every step of a goroutine after `Stop` has drained the map makes this much progress. */
  function StageWork(stage: Stage): nat {
    match stage
    case Accepted => 14
    case TurnedAway => 2
    case Refused => 0
    case Admitted => 13
    case Listed => 12
    case Announced => 11
    case Reading => 10
    case Holding(_) => 9
    case AtCheck => 8
    case Ending => 7
    case Closing => 6
    case Unlisting => 5
    case Releasing => 4
    case Finished => 0
  }

  function AcceptWork(a: AcceptLoop): nat {
    match a
    case Listening => 20
    case Busy(_) => 3
    case Checking => 2
    case Exited => 0
  }

  ghost function SocketWork(sockets: map<ConnId, Socket>): nat
    decreases |sockets|
  {
    if sockets == map[] then 0
    else
      var id :| id in sockets;
      StageWork(sockets[id].stage) + SocketWork(sockets - {id})
  }

  ghost function Work(p: Proxy): nat {
    AcceptWork(p.accept) + SocketWork(p.sockets) + if p.stop.Draining? then |p.stop.rest| else 0
  }

  /** The sum does not depend on the order the map is taken apart in. */
  lemma {:induction false} SocketWorkSplit(sockets: map<ConnId, Socket>, id: ConnId)
    requires id in sockets
    ensures SocketWork(sockets) == StageWork(sockets[id].stage) + SocketWork(sockets - {id})
    decreases |sockets|
  {
    var first :| first in sockets
        && SocketWork(sockets) == StageWork(sockets[first].stage) + SocketWork(sockets - {first});
    if first != id {
      SocketWorkSplit(sockets - {first}, id);
      SocketWorkSplit(sockets - {id}, first);
      assert sockets - {first} - {id} == sockets - {id} - {first};
    }
  }

  lemma SocketWorkPut(sockets: map<ConnId, Socket>, id: ConnId, s: Socket)
    ensures SocketWork(sockets[id := s]) ==
            SocketWork(sockets - {id}) + StageWork(s.stage)
    ensures id in sockets ==> SocketWork(sockets) == SocketWork(sockets - {id}) + StageWork(sockets[id].stage)
    ensures id !in sockets ==> sockets - {id} == sockets
  {
    SocketWorkSplit(sockets[id := s], id);
    assert sockets[id := s] - {id} == sockets - {id};
    if id in sockets { SocketWorkSplit(sockets, id); }
  }

  predicate Internal(e: Event) { !e.Write? && !e.CloseConn? }

  /** After the drain every internal step decreases the work, and calls from outside keep it. */
  lemma WorkDecreases(p: Proxy, e: Event)
    requires Inv(p) && Can(p, e) && p.stop.Draining?
    ensures Do(p, e).stop.Draining?
    ensures Internal(e) ==> Work(Do(p, e)) < Work(p)
    ensures !Internal(e) ==> Work(Do(p, e)) == Work(p)
  {
    if OfAcceptLoop(e) { AcceptDecreases(p, e); }
    else if OfReadLoop(e) { LoopDecreases(p, e); }
    else { OutsideKeeps(p, e); }
  }

  lemma AcceptDecreases(p: Proxy, e: Event)
    requires Inv(p) && Can(p, e) && p.stop.Draining? && OfAcceptLoop(e)
    ensures Work(Do(p, e)) < Work(p) && Do(p, e).stop == p.stop
  {
    if !e.AcceptCheck? && !e.AcceptFails? {
      var p' := Do(p, e);
      assert p'.sockets == p.sockets[e.id := p'.sockets[e.id]];
      SocketWorkPut(p.sockets, e.id, p'.sockets[e.id]);
    }
  }

  lemma LoopDecreases(p: Proxy, e: Event)
    requires Can(p, e) && p.stop.Draining? && OfReadLoop(e)
    ensures Work(Do(p, e)) < Work(p) && Do(p, e).stop == p.stop
  {
    var p' := Do(p, e);
    assert p'.sockets == p.sockets[e.id := p'.sockets[e.id]];
    SocketWorkPut(p.sockets, e.id, p'.sockets[e.id]);
  }

  lemma OutsideKeeps(p: Proxy, e: Event)
    requires Can(p, e) && p.stop.Draining? && (e.StopClose? || e.Write? || e.CloseConn?)
    ensures Do(p, e).stop.Draining?
    ensures e.StopClose? ==> Work(Do(p, e)) < Work(p)
    ensures !e.StopClose? ==> Work(Do(p, e)) == Work(p)
  {
    var p' := Do(p, e);
    if p' != p {
      assert p'.sockets == p.sockets[e.id := p'.sockets[e.id]];
      SocketWorkPut(p.sockets, e.id, p'.sockets[e.id]);
    }
  }

  /** The goroutine's next step, whatever it is doing. */
  function Helpful(p: Proxy, id: ConnId): Event
    requires id in p.sockets
  {
    match p.sockets[id].stage
    case Accepted => Admit(id)
    case TurnedAway => TurnAway(id)
    case Admitted => List(id)
    case Listed => Announce(id)
    case Announced => Spawn(id)
    case AtCheck => LoopCheck(id)
    case Reading => ReadFails(id)
    case Holding(_) => Forward(id)
    case Ending => Notify(id)
    case Closing => CloseSocket(id)
    case Unlisting => Unlist(id)
    case Releasing => Release(id)
    case Refused => AcceptCheck
    case Finished => AcceptCheck
  }

  /** Nothing of the proxy is left: no open socket, no listed connection, no slot in use. */
  ghost predicate Quiet(p: Proxy) {
    && p.StopDone() && p.accept == Exited && p.conns == {} && p.connCount == 0
    && forall id :: id in p.sockets ==>
         !p.sockets[id].open && (p.sockets[id].stage.Finished? || p.sockets[id].stage.Refused?)
  }

  /** Until the proxy is quiet, some goroutine can take a step. */
  lemma ProgressUntilQuiet(p: Proxy)
    requires Inv(p) && p.stop.Draining?
    ensures Quiet(p) || exists e :: Internal(e) && Can(p, e)
  {
    forall id | id in p.sockets ensures SocketOk(p, id) {}
    if id :| id in p.sockets && !p.sockets[id].stage.Finished? && !p.sockets[id].stage.Refused? {
      assert Can(p, Helpful(p, id));
    } else if p.accept != Exited {
      assert Can(p, AcceptCheck) || Can(p, AcceptFails);
    } else if id :| id in p.stop.rest {
      assert Can(p, StopClose(id));
    } else {
      assert Holders(p) == {};
    }
  }

  function InternalSteps(events: seq<Event>): nat
    decreases |events|
  {
    if events == [] then 0 else (if Internal(events[0]) then 1 else 0) + InternalSteps(events[1..])
  }

  /** A run from a drained proxy has at most `Work(p)` internal steps ... */
  lemma {:induction false} FewStepsLeft(p: Proxy, events: seq<Event>)
    requires Inv(p) && p.stop.Draining? && Allowed(p, events)
    ensures InternalSteps(events) + Work(After(p, events)) <= Work(p)
    ensures After(p, events).stop.Draining? && Inv(After(p, events))
    decreases |events|
  {
    if events != [] {
      StepInv(p, events[0]);
      WorkDecreases(p, events[0]);
      FewStepsLeft(Do(p, events[0]), events[1..]);
    }
  }

  /**
   ... and a run that can go no further has closed every socket, emptied the map and returned
   every slot. So a stopped proxy always winds down, under every schedule.
   */
  lemma StopWindsDown(p: Proxy, events: seq<Event>)
    requires Inv(p) && p.stop.Draining? && Allowed(p, events)
    ensures InternalSteps(events) <= Work(p)
    ensures Quiet(After(p, events)) || exists e :: Internal(e) && Can(After(p, events), e)
  {
    FewStepsLeft(p, events);
    ProgressUntilQuiet(After(p, events));
  }
}
