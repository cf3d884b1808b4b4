/**
 One proxy of the server (internal/server/proxy.go) as a state machine: the accept loop, one
 read loop per external connection, and `Stop`, each advancing one atomic step at a time,
 together with the two calls the routing makes into it.
 */
module Proxies {
  import opened Wrappers
  import opened Registries
  import opened Frames

  /** Where the goroutine that serves one external connection is. */
  datatype Stage =
    | Accepted         // accepted, limit not checked yet
    | TurnedAway       // over the limit, about to be closed
    | Refused          // over the limit, closed
    | Admitted         // counted
    | Listed           // in `conns`
    | Announced        // conn_open sent, read loop not started
    | AtCheck          // read loop: about to look at the stop channel
    | Reading          // read loop: in Read
    | Holding(data: Bytes)  // read loop: read these bytes, about to send them
    | Ending           // deferred: about to send conn_close
    | Closing          // deferred: about to close the socket
    | Unlisting        // deferred: about to delete from `conns`
    | Releasing        // deferred: about to decrement the count
    | Finished

  /** `read`, `written` and `sent` are histories; `broken` records a failed write. */
  datatype Socket = Socket(open: bool, broken: bool, read: Bytes, written: Bytes, sent: seq<Frame>, stage: Stage)

  datatype AcceptLoop = Checking | Listening | Busy(id: ConnId) | Exited

  /** How far `Stop` has come; `rest` are the collected sockets it has yet to close. */
  datatype Stopping = Running | Flagged | Signalled | Unbound | Draining(rest: set<ConnId>)

  /** `late` counts the connections accepted after the stop channel was closed. */
  datatype Proxy = Proxy(
    device: nat, ws: Ws, port: int, maxConns: nat,
    conns: set<ConnId>, connCount: int,
    accept: AcceptLoop, stop: Stopping,
    sockets: map<ConnId, Socket>, late: nat)
  {
    predicate Signal() { stop.Signalled? || stop.Unbound? || stop.Draining? }
    predicate Bound() { stop.Running? || stop.Flagged? || stop.Signalled? }
    predicate StopDone() { stop == Draining({}) }
  }

  const DEFAULT_MAX_CONNS: nat := 10000

  function NewProxy(device: nat, ws: Ws, port: int, maxConns: int): Proxy {
    Proxy(device, ws, port, if maxConns <= 0 then DEFAULT_MAX_CONNS else maxConns, {}, 0, Checking, Running, map[], 0)
  }

  datatype Event =
    | AcceptCheck
    | Accept(id: ConnId)
    | AcceptFails
    | Admit(id: ConnId)
    | TurnAway(id: ConnId)
    | List(id: ConnId)
    | Announce(id: ConnId)
    | Spawn(id: ConnId)
    | LoopCheck(id: ConnId)
    | Read(id: ConnId, data: Bytes)
    | ReadFails(id: ConnId)
    | Forward(id: ConnId)
    | Notify(id: ConnId)
    | CloseSocket(id: ConnId)
    | Unlist(id: ConnId)
    | Release(id: ConnId)
    | StopFlag
    | StopSignal
    | StopUnbind
    | StopDrain
    | StopClose(id: ConnId)
    | Write(id: ConnId, data: Bytes, n: nat, ok: bool)   // HandleFromClient, after its checks
    | CloseConn(id: ConnId)

  predicate At(p: Proxy, id: ConnId, stage: Stage) { id in p.sockets && p.sockets[id].stage == stage }

  predicate Can(p: Proxy, e: Event) {
    match e
    case AcceptCheck => p.accept == Checking
    case Accept(id) => p.accept == Listening && p.Bound() && id !in p.sockets
    case AcceptFails => p.accept == Listening
    case Admit(id) => p.accept == Busy(id) && At(p, id, Accepted)
    case TurnAway(id) => p.accept == Busy(id) && At(p, id, TurnedAway)
    case List(id) => p.accept == Busy(id) && At(p, id, Admitted)
    case Announce(id) => p.accept == Busy(id) && At(p, id, Listed)
    case Spawn(id) => p.accept == Busy(id) && At(p, id, Announced)
    case LoopCheck(id) => At(p, id, AtCheck)
    case Read(id, _) => At(p, id, Reading) && p.sockets[id].open
    case ReadFails(id) => At(p, id, Reading)
    case Forward(id) => id in p.sockets && p.sockets[id].stage.Holding?
    case Notify(id) => At(p, id, Ending)
    case CloseSocket(id) => At(p, id, Closing)
    case Unlist(id) => At(p, id, Unlisting)
    case Release(id) => At(p, id, Releasing)
    case StopFlag => p.stop == Running
    case StopSignal => p.stop == Flagged
    case StopUnbind => p.stop == Signalled
    case StopDrain => p.stop == Unbound
    case StopClose(id) => p.stop.Draining? && id in p.stop.rest && id in p.sockets
    case Write(id, data, n, ok) =>
      && id in p.sockets && n <= |data|
      && (ok ==> n == |data| && p.sockets[id].open && !p.sockets[id].broken)
      && (!p.sockets[id].open || p.sockets[id].broken ==> n == 0)
    case CloseConn(_) => true
  }

  function Put(p: Proxy, id: ConnId, s: Socket): Proxy { p.(sockets := p.sockets[id := s]) }

  function Move(p: Proxy, id: ConnId, stage: Stage): Proxy
    requires id in p.sockets
  {
    Put(p, id, p.sockets[id].(stage := stage))
  }

  function Emit(p: Proxy, id: ConnId, f: Frame, stage: Stage): Proxy
    requires id in p.sockets
  {
    var s := p.sockets[id];
    Put(p, id, s.(sent := s.sent + [f], stage := stage))
  }

  function Shut(p: Proxy, id: ConnId): Proxy
    requires id in p.sockets
  {
    Put(p, id, p.sockets[id].(open := false))
  }

  /** The limit check of the accept loop. */
  function TakeSlot(p: Proxy, id: ConnId): Proxy
    requires id in p.sockets
  {
    if p.connCount >= p.maxConns then Move(p, id, TurnedAway)
    else Move(p, id, Admitted).(connCount := p.connCount + 1)
  }

  function Enlist(p: Proxy, id: ConnId): Proxy
    requires id in p.sockets
  {
    Move(p, id, Listed).(conns := p.conns + {id})
  }

  function Deliver(p: Proxy, id: ConnId, data: Bytes, n: nat, ok: bool): Proxy
    requires id in p.sockets && n <= |data|
  {
    var s := p.sockets[id];
    Put(p, id, s.(written := s.written + data[..n], broken := s.broken || !ok))
  }

  function Drop(p: Proxy, id: ConnId): Proxy {
    if id in p.conns && id in p.sockets then Shut(p, id).(conns := p.conns - {id}) else p
  }

  function Do(p: Proxy, e: Event): Proxy
    requires Can(p, e)
  {
    match e
    case AcceptCheck => p.(accept := if p.Signal() then Exited else Listening)
    case Accept(id) =>
      Put(p, id, Socket(true, false, [], [], [], Accepted))
        .(accept := Busy(id), late := if p.Signal() then p.late + 1 else p.late)
    case AcceptFails => p.(accept := if p.Signal() then Exited else Checking)
    case Admit(id) => TakeSlot(p, id)
    case TurnAway(id) => Shut(Move(p, id, Refused), id).(accept := Checking)
    case List(id) => Enlist(p, id)
    case Announce(id) => Emit(p, id, Open(id), Announced)
    case Spawn(id) => Move(p, id, AtCheck).(accept := Checking)
    case LoopCheck(id) => Move(p, id, if p.Signal() then Ending else Reading)
    case Read(id, data) => Put(p, id, p.sockets[id].(read := p.sockets[id].read + data, stage := Holding(data)))
    case ReadFails(id) => Move(p, id, Ending)
    case Forward(id) => Emit(p, id, Data(id, p.sockets[id].stage.data), AtCheck)
    case Notify(id) => Emit(p, id, Close(id, true), Closing)
    case CloseSocket(id) => Shut(Move(p, id, Unlisting), id)
    case Unlist(id) => Move(p, id, Releasing).(conns := p.conns - {id})
    case Release(id) => Move(p, id, Finished).(connCount := p.connCount - 1)
    case StopFlag => p.(stop := Flagged)
    case StopSignal => p.(stop := Signalled)
    case StopUnbind => p.(stop := Unbound)
    case StopDrain => p.(stop := Draining(p.conns), conns := {})
    case StopClose(id) => Shut(p, id).(stop := Draining(p.stop.rest - {id}))
    case Write(id, data, n, ok) => Deliver(p, id, data, n, ok)
    case CloseConn(id) => Drop(p, id)
  }

  /** The frame an event sends to the client, if it sends one. */
  function Sends(p: Proxy, e: Event): Option<Frame>
    requires Can(p, e)
  {
    match e
    case Announce(id) => Some(Open(id))
    case Forward(id) => Some(Data(id, p.sockets[id].stage.data))
    case Notify(id) => Some(Close(id, true))
    case _ => None
  }

  // ---- The invariant -------------------------------------------------------------------

  /** The accept loop still holds the connection. */
  predicate Arriving(stage: Stage) {
    stage.Accepted? || stage.TurnedAway? || stage.Admitted? || stage.Listed? || stage.Announced?
  }

  /** The connection occupies one of the `maxConns` slots. */
  predicate HoldsSlot(stage: Stage) {
    !(stage.Accepted? || stage.TurnedAway? || stage.Refused? || stage.Finished?)
  }

  predicate MayBeListed(stage: Stage) {
    HoldsSlot(stage) && !stage.Admitted? && !stage.Releasing?
  }

  predicate SocketClosed(stage: Stage) {
    stage.Refused? || stage.Unlisting? || stage.Releasing? || stage.Finished?
  }

  /** `conn_open`, then only data. */
  predicate Opened(sent: seq<Frame>, id: ConnId) {
    |sent| > 0 && sent[0] == Open(id) && forall i :: 1 <= i < |sent| ==> sent[i].Data? && sent[i].id == id
  }

  /** What has been sent about a connection at each stage, and how it relates to what was read. */
  predicate SentOk(s: Socket, id: ConnId) {
    match s.stage
    case Announced => s.sent == [Open(id)] && s.read == []
    case AtCheck => Opened(s.sent, id) && Payload(s.sent) == s.read
    case Reading => Opened(s.sent, id) && Payload(s.sent) == s.read
    case Holding(data) => Opened(s.sent, id) && Payload(s.sent) + data == s.read
    case Ending => Opened(s.sent, id) && Payload(s.sent) == s.read
    case Closing => Ended(s, id)
    case Unlisting => Ended(s, id)
    case Releasing => Ended(s, id)
    case Finished => Ended(s, id)
    case _ => s.sent == [] && s.read == []
  }

  predicate Ended(s: Socket, id: ConnId) {
    && |s.sent| > 0 && s.sent[|s.sent| - 1] == Close(id, true)
    && Opened(s.sent[..|s.sent| - 1], id) && Payload(s.sent) == s.read
  }

  predicate SocketOk(p: Proxy, id: ConnId)
    requires id in p.sockets
  {
    var s := p.sockets[id];
    && (Arriving(s.stage) <==> p.accept == Busy(id))
    && (id in p.conns ==> MayBeListed(s.stage))
    && (SocketClosed(s.stage) ==> !s.open)
    && SentOk(s, id)
    && (s.open && MayBeListed(s.stage) && !p.stop.Draining? ==> id in p.conns)
    && (p.stop.Draining? && s.open && id !in p.stop.rest ==> !s.stage.Reading? && !s.stage.Holding? && s.read == [])
  }

  ghost function Holders(p: Proxy): set<ConnId> {
    set id | id in p.sockets && HoldsSlot(p.sockets[id].stage)
  }

  ghost predicate Inv(p: Proxy) {
    && (forall id :: id in p.sockets ==> SocketOk(p, id))
    && p.conns <= p.sockets.Keys
    && (p.accept.Busy? ==> p.accept.id in p.sockets)
    && (p.stop.Draining? ==> p.stop.rest <= p.sockets.Keys)
    && p.connCount == |Holders(p)| && p.connCount <= p.maxConns
    && (p.late > 0 ==> p.late == 1 && p.Signal() && p.accept != Listening)
  }

  lemma NewInv(device: nat, ws: Ws, port: int, maxConns: int)
    ensures Inv(NewProxy(device, ws, port, maxConns))
  {
    assert Holders(NewProxy(device, ws, port, maxConns)) == {};
  }

  predicate OfAcceptLoop(e: Event) {
    e.AcceptCheck? || e.Accept? || e.AcceptFails? || e.Admit? || e.TurnAway? || e.List? || e.Announce? || e.Spawn?
  }

  predicate OfReadLoop(e: Event) {
    || e.LoopCheck? || e.Read? || e.ReadFails? || e.Forward?
    || e.Notify? || e.CloseSocket? || e.Unlist? || e.Release?
  }

  predicate OfStop(e: Event) { e.StopFlag? || e.StopSignal? || e.StopUnbind? || e.StopDrain? || e.StopClose? }

  lemma AcceptKeeps(p: Proxy, e: Event, id: ConnId)
    requires Inv(p) && Can(p, e) && OfAcceptLoop(e) && !e.Announce? && id in Do(p, e).sockets
    ensures SocketOk(Do(p, e), id)
  {
    if id in p.sockets { assert SocketOk(p, id); }
  }

  lemma LoopReads(p: Proxy, e: Event, id: ConnId)
    requires id in p.sockets && SocketOk(p, id) && Can(p, e) && (e.LoopCheck? || e.Read? || e.ReadFails?)
    ensures SocketOk(Do(p, e), id)
  {
  }

  lemma LoopCleansUp(p: Proxy, e: Event, id: ConnId)
    requires id in p.sockets && SocketOk(p, id) && Can(p, e) && (e.CloseSocket? || e.Unlist? || e.Release?)
    ensures SocketOk(Do(p, e), id)
  {
  }

  lemma AnnounceKeeps(p: Proxy, at: ConnId, id: ConnId)
    requires id in p.sockets && SocketOk(p, id) && p.accept == Busy(at) && At(p, at, Listed)
    ensures SocketOk(Emit(p, at, Open(at), Announced), id)
  {
    PayloadStep([], Open(at));
  }

  lemma ForwardKeeps(p: Proxy, at: ConnId, id: ConnId)
    requires id in p.sockets && SocketOk(p, id) && at in p.sockets && p.sockets[at].stage.Holding?
    ensures SocketOk(Emit(p, at, Data(at, p.sockets[at].stage.data), AtCheck), id)
  {
    if id == at {
      var s := p.sockets[id];
      PayloadStep(s.sent, Data(id, s.stage.data));
    }
  }

  lemma NotifyKeeps(p: Proxy, at: ConnId, id: ConnId)
    requires id in p.sockets && SocketOk(p, id) && At(p, at, Ending)
    ensures SocketOk(Emit(p, at, Close(at, true), Closing), id)
  {
    if id == at { NotifyEnds(p.sockets[id], id); }
  }

  lemma NotifyEnds(s: Socket, id: ConnId)
    requires Opened(s.sent, id) && Payload(s.sent) == s.read
    ensures Ended(s.(sent := s.sent + [Close(id, true)], stage := Closing), id)
  {
    PayloadStep(s.sent, Close(id, true));
    assert (s.sent + [Close(id, true)])[..|s.sent|] == s.sent;
    assert s.read + [] == s.read;
  }

  lemma StopKeeps(p: Proxy, e: Event, id: ConnId)
    requires id in p.sockets && SocketOk(p, id) && Can(p, e) && OfStop(e)
    ensures SocketOk(Do(p, e), id)
  {
  }

  lemma CallKeeps(p: Proxy, e: Event, id: ConnId)
    requires id in p.sockets && SocketOk(p, id) && Can(p, e) && (e.Write? || e.CloseConn?)
    ensures SocketOk(Do(p, e), id)
  {
  }

  lemma SocketsKeep(p: Proxy, e: Event, id: ConnId)
    requires Inv(p) && Can(p, e) && id in Do(p, e).sockets
    ensures SocketOk(Do(p, e), id)
  {
    if id in p.sockets { assert SocketOk(p, id); }
    if e.Announce? { AnnounceKeeps(p, e.id, id); }
    else if OfAcceptLoop(e) { AcceptKeeps(p, e, id); }
    else if e.Forward? { ForwardKeeps(p, e.id, id); }
    else if e.Notify? { NotifyKeeps(p, e.id, id); }
    else if e.LoopCheck? || e.Read? || e.ReadFails? { LoopReads(p, e, id); }
    else if OfReadLoop(e) { LoopCleansUp(p, e, id); }
    else if OfStop(e) { StopKeeps(p, e, id); }
    else { CallKeeps(p, e, id); }
  }

  /** What an event does to the set of slot holders. */
  lemma HoldersChange(p: Proxy, e: Event)
    requires Can(p, e)
    ensures e.Admit? && p.connCount < p.maxConns ==> Holders(Do(p, e)) == Holders(p) + {e.id} && e.id !in Holders(p)
    ensures e.Release? ==> Holders(Do(p, e)) == Holders(p) - {e.id} && e.id in Holders(p)
    ensures !(e.Admit? && p.connCount < p.maxConns) && !e.Release? ==> Holders(Do(p, e)) == Holders(p)
  {
    forall id ensures id in Holders(Do(p, e)) <==>
                      if e.Admit? && p.connCount < p.maxConns then id in Holders(p) || id == e.id
                      else if e.Release? then id in Holders(p) && id != e.id else id in Holders(p)
    { HolderChange(p, e, id); }
  }

  lemma HolderChange(p: Proxy, e: Event, id: ConnId)
    requires Can(p, e)
    ensures var holds := id in p.sockets && HoldsSlot(p.sockets[id].stage);
            var held := id in Do(p, e).sockets && HoldsSlot(Do(p, e).sockets[id].stage);
            held == if e.Admit? && p.connCount < p.maxConns then holds || id == e.id
                    else if e.Release? then holds && id != e.id else holds
  {
    if OfAcceptLoop(e) {} else if OfReadLoop(e) { LoopStages(p, e); } else if OfStop(e) {} else {}
  }

  /** Of the read loop's steps only the last gives the slot back. */
  lemma LoopStages(p: Proxy, e: Event)
    requires Can(p, e) && OfReadLoop(e)
    ensures e.id in p.sockets && HoldsSlot(p.sockets[e.id].stage)
    ensures Do(p, e).sockets.Keys == p.sockets.Keys
    ensures HoldsSlot(Do(p, e).sockets[e.id].stage) == !e.Release?
    ensures forall id :: id in p.sockets && id != e.id ==> Do(p, e).sockets[id] == p.sockets[id]
  {
  }

  lemma CountKeeps(p: Proxy, e: Event)
    requires p.connCount == |Holders(p)| && p.connCount <= p.maxConns && Can(p, e)
    ensures Do(p, e).connCount == |Holders(Do(p, e))| && Do(p, e).connCount <= Do(p, e).maxConns
  {
    HoldersChange(p, e);
  }

  lemma FramesKeep(p: Proxy, e: Event)
    requires Inv(p) && Can(p, e)
    ensures var p' := Do(p, e);
      && p'.conns <= p'.sockets.Keys && (p'.accept.Busy? ==> p'.accept.id in p'.sockets)
      && (p'.stop.Draining? ==> p'.stop.rest <= p'.sockets.Keys)
      && (p'.late > 0 ==> p'.late == 1 && p'.Signal() && p'.accept != Listening)
  {
    if OfAcceptLoop(e) {} else if OfReadLoop(e) {} else if OfStop(e) {} else {}
  }

  lemma StepInv(p: Proxy, e: Event)
    requires Inv(p) && Can(p, e)
    ensures Inv(Do(p, e))
  {
    forall id | id in Do(p, e).sockets ensures SocketOk(Do(p, e), id) { SocketsKeep(p, e, id); }
    CountKeeps(p, e);
    FramesKeep(p, e);
  }

  // ---- What never goes back ------------------------------------------------------------

  /** The connection was announced and is no longer in `conns`. */
  predicate Delisted(p: Proxy, id: ConnId) {
    id in p.sockets && id !in p.conns && p.sockets[id].sent != []
  }

  /** A later state of one socket: histories only grow, and a closed or broken socket stays so. */
  predicate SocketEvolves(s: Socket, s': Socket) {
    && s.sent <= s'.sent && s.read <= s'.read && s.written <= s'.written
    && (!s.open ==> !s'.open) && (s.broken ==> s'.broken)
  }

  ghost predicate Evolves(p: Proxy, p': Proxy) {
    && p'.device == p.device && p'.ws == p.ws && p'.port == p.port
    && (!p.stop.Running? ==> !p'.stop.Running?)
    && (!p.Bound() ==> !p'.Bound())
    && (forall id :: id in p.sockets ==> id in p'.sockets && SocketEvolves(p.sockets[id], p'.sockets[id]))
    && (forall id :: Delisted(p, id) ==> Delisted(p', id))
  }

  lemma StepEvolves(p: Proxy, e: Event)
    requires Inv(p) && Can(p, e)
    ensures Evolves(p, Do(p, e))
  {
    var p' := Do(p, e);
    forall id | id in p.sockets ensures id in p'.sockets && SocketEvolves(p.sockets[id], p'.sockets[id]) {
      SocketStepEvolves(p, e, id);
    }
    forall id | Delisted(p, id) ensures Delisted(p', id) {
      assert SocketOk(p, id);
      SocketStepEvolves(p, e, id);
      StaysDelisted(p, e, id);
    }
    if OfAcceptLoop(e) {} else if OfReadLoop(e) {} else if OfStop(e) {} else {}
  }

  lemma SocketStepEvolves(p: Proxy, e: Event, id: ConnId)
    requires Can(p, e) && id in p.sockets
    ensures id in Do(p, e).sockets && SocketEvolves(p.sockets[id], Do(p, e).sockets[id])
  {
    if OfAcceptLoop(e) {} else if OfReadLoop(e) {} else if OfStop(e) {} else {}
  }

  lemma StaysDelisted(p: Proxy, e: Event, id: ConnId)
    requires Can(p, e) && id in p.sockets && SocketOk(p, id) && Delisted(p, id)
    ensures id !in Do(p, e).conns
  {
    if OfAcceptLoop(e) {} else if OfReadLoop(e) {} else if OfStop(e) {} else {}
  }

  /** The frame an event sends is appended to the history of its own connection, and of no other. */
  lemma SendsOwnFrame(p: Proxy, e: Event, id: ConnId)
    requires Can(p, e) && id in p.sockets
    ensures id in Do(p, e).sockets
    ensures Do(p, e).sockets[id].sent ==
            p.sockets[id].sent + (if Sends(p, e).Some? && About(Sends(p, e).value, id) then [Sends(p, e).value] else [])
  {
    if OfAcceptLoop(e) {} else if OfReadLoop(e) {} else if OfStop(e) {} else {}
  }

  /** Only a write from the routing adds to what was written, and only on its own connection. */
  lemma WritesOnly(p: Proxy, e: Event, id: ConnId)
    requires Can(p, e) && id in p.sockets
    ensures id in Do(p, e).sockets
    ensures !(e.Write? && e.id == id) ==>
              && Do(p, e).sockets[id].written == p.sockets[id].written
              && Do(p, e).sockets[id].broken == p.sockets[id].broken
  {
    if OfAcceptLoop(e) {} else if OfReadLoop(e) {} else if OfStop(e) {} else {}
  }

  lemma NewSockets(p: Proxy, e: Event, id: ConnId)
    requires Can(p, e) && id !in p.sockets && id in Do(p, e).sockets
    ensures e == Accept(id) && Do(p, e).sockets[id] == Socket(true, false, [], [], [], Accepted)
  {
    if OfAcceptLoop(e) {} else if OfReadLoop(e) {} else if OfStop(e) {} else {}
  }
}
