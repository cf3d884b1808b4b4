/**
 How a connection ends. Once its external side has ended, every step of the system leaves a
 well-founded rank as it is or lowers it, and until the identifier is out of the maps on both
 sides for good, whatever the goroutine in charge of it does next lowers it.
 */
module TunnelClosing {
  import opened Wrappers
  import opened Frames
  import opened Tunnel
  import opened TunnelInv
  import opened TunnelPlaces
  import TA = TunnelAdmin
  import TC = TunnelClient
  import TT = TunnelTheorems
  import R = Registries
  import P = Proxies
  import PS = ProxyStop
  import C = Clients

  // ---- After the close has arrived, the connection is not listed any more --------------

  /** A listed connection belongs to the current session, and its close is being handled or has not arrived. */
  predicate ClosingOk(k: C.Client, id: ConnId) {
    && (id in k.localConns || k.main == C.Dialed(id) ==>
          && id in k.locals && k.session == Some(k.locals[id].home)
          && (k.session.value in k.rx && Close(id, true) in k.rx[k.session.value] ==> k.main == C.Got(Close(id, true))))
    && (k.main == C.Got(Open(id)) && k.session.Some? && k.session.value in k.rx ==>
          Close(id, true) !in k.rx[k.session.value])
  }

  /** Nothing about a connection arrives before its conn_open. */
  predicate InOrderFor(k: C.Client, e: C.Event, id: ConnId) {
    e == C.Session(C.Receive(Open(id))) && k.session.Some? && k.session.value in k.rx ==>
      Close(id, true) !in k.rx[k.session.value]
  }

  lemma ClosingOnSession(k: C.Client, e: C.SessionEvent, id: ConnId)
    requires C.MainOk(k) && C.CanSession(k, e) && ClosingOk(k, id) && InOrderFor(k, C.Session(e), id)
    ensures ClosingOk(C.DoSession(k, e), id)
  {
  }

  lemma ClosingOnHandler(k: C.Client, e: C.HandlerEvent, id: ConnId)
    requires C.MainOk(k) && C.CanHandler(k, e) && ClosingOk(k, id)
    ensures ClosingOk(C.DoHandler(k, e), id)
  {
  }

  lemma ClosingOnLink(k: C.Client, e: C.LinkEvent, id: ConnId)
    requires C.MainOk(k) && C.TokenWhole(k) && C.CanLink(k, e) && ClosingOk(k, id)
    ensures ClosingOk(C.DoLink(k, e), id)
  {
    if e.WriteMessage? {} else {}
  }

  lemma ClosingOnReader(k: C.Client, at: ConnId, e: C.ReaderEvent, id: ConnId)
    requires C.MainOk(k) && C.CanReader(k, at, e) && ClosingOk(k, id)
    ensures ClosingOk(C.DoReader(k, at, e), id)
  {
  }

  lemma ClosingKeeps(k: C.Client, e: C.Event, id: ConnId)
    requires C.MainOk(k) && C.TokenWhole(k) && C.Can(k, e) && ClosingOk(k, id) && InOrderFor(k, e, id)
    ensures ClosingOk(C.Do(k, e), id)
  {
    match e
    case Session(s) => ClosingOnSession(k, s, id);
    case Handler(h) => ClosingOnHandler(k, h, id);
    case Link(l) => ClosingOnLink(k, l, id);
    case OfReader(at, r) => ClosingOnReader(k, at, r, id);
  }

  ghost predicate Closing(w: World) {
    forall k, id {:trigger ClosingOk(w.clients[k], id)} :: k in w.clients ==> ClosingOk(w.clients[k], id)
  }

  lemma OpenComesFirst(w: World, k: Cid, e: C.Event, id: ConnId)
    requires Inv(w) && CanClient(w, k, e)
    ensures InOrderFor(w.clients[k], e, id)
  {
    if e == C.Session(C.Receive(Open(id))) {
      var c := w.clients[k];
      var ws := c.session.value;
      assert C.Inv(c) && C.WsOk(c, ws) && OwnerOk(w, k, ws) && WireOk(w, ws) && OutOk(w, ws, id);
      TC.CarriedHome(w, ws, Open(id));
      assert P.Inv(HomeProxy(w, id)) && P.SocketOk(HomeProxy(w, id), id);
      var log := w.wires[ws].out.log;
      assert log[..|c.rx[ws]|] == c.rx[ws];
      TC.OpenArrivesFirst(log, |c.rx[ws]|, id, HomeProxy(w, id));
      OnlyAbout(c.rx[ws], id);
    }
  }

  lemma StepClosing(w: World, s: Step)
    requires Inv(w) && Closing(w) && Can(w, s)
    ensures Closing(Do(w, s))
  {
    if s.OfClient? {
      assert C.Inv(w.clients[s.k]);
      forall k, id | k in Do(w, s).clients ensures ClosingOk(Do(w, s).clients[k], id) {
        assert ClosingOk(w.clients[k], id);
        if k == s.k {
          OpenComesFirst(w, k, s.act, id);
          ClosingKeeps(w.clients[k], s.act, id);
        }
      }
    } else {
      TT.ClientsStay(w, s);
    }
  }

  ghost predicate Good(w: World) { Inv(w) && Closing(w) }

  lemma StepGood(w: World, s: Step)
    requires Good(w) && Can(w, s)
    ensures Good(Do(w, s))
  {
    TA.StepInv(w, s);
    StepClosing(w, s);
  }

  lemma {:induction false} ReachableGood(w: World, steps: seq<Step>)
    requires Good(w) && Allowed(w, steps)
    ensures Good(After(w, steps))
    decreases |steps|
  {
    if steps != [] {
      StepGood(w, steps[0]);
      ReachableGood(Do(w, steps[0]), steps[1..]);
    }
  }

  lemma InitialGood(w: World)
    requires Initial(w)
    ensures Good(w)
  {
    TA.InitialInv(w);
  }

  // ---- The measure ---------------------------------------------------------------------

  /** The steps the read loop of a closed socket has left. */
  function StageRank(stage: P.Stage): nat {
    match stage
    case Accepted => 12
    case Admitted => 11
    case Listed => 10
    case Announced => 9
    case Holding(_) => 8
    case AtCheck => 7
    case Reading => 6
    case Ending => 5
    case Closing => 4
    case Unlisting => 3
    case Releasing => 2
    case TurnedAway => 1
    case Refused => 0
    case Finished => 0
  }

  /** How far the client is from leaving the session; `mine`: its main goroutine is in its write. */
  function SessionRank(main: C.MainLoop, mine: bool): nat {
    match main
    case Registering => if mine then 4 else 5
    case AwaitingReply => 3
    case CleaningUp => 1
    case Head => 0
    case Over => 0
    case Crashed => 0
    case _ => 2
  }

  /** The steps the main goroutine has left with the message in its hands; `mine`: it is in its write. */
  function MainRank(main: C.MainLoop, mine: bool): nat {
    match main
    case Got(_) => 4
    case Dialed(_) => 2
    case Starting(_) => 1
    case Found(_, _) => 2
    case WriteFailed(_) => 1
    case DialFailed(_) => if mine then 1 else 2
    case Missing(_) => if mine then 1 else 2
    case _ => 0
  }

  /** One past the position of the last frame about `id`. */
  function LastAbout(log: seq<Frame>, id: ConnId): nat {
    if log == [] then 0 else if About(log[|log| - 1], id) then |log| else LastAbout(log[..|log| - 1], id)
  }

  function Minus(a: nat, b: nat): nat { if a > b then a - b else 0 }

  /** Ordered lexicographically, `stage` first. */
  datatype Rank = Rank(stage: nat, up: nat, session: nat, pending: nat, main: nat)

  predicate Below(a: Rank, b: Rank) {
    || a.stage < b.stage
    || (a.stage == b.stage && (
        || a.up < b.up
        || (a.up == b.up && (
            || a.session < b.session
            || (a.session == b.session && (
                || a.pending < b.pending
                || (a.pending == b.pending && a.main < b.main)))))))
  }

  predicate AtMost(a: Rank, b: Rank) { a == b || Below(a, b) }

  function Mine(c: C.Client): bool { c.token.Some? && c.token.value.who == C.ByMain }

  /** The frames the client has to take from its session before it has all it will get of `id`. */
  function Pending(out: C.Outgoing, received: nat, id: ConnId): nat {
    Minus(if out.down then |out.log| else LastAbout(out.log, id), received)
  }

  function ClientRank(c: C.Client, ws: R.Ws, out: C.Outgoing, id: ConnId, stage: nat): Rank {
    var up := if out.down then 0 else 1;
    if c.session != Some(ws) || ws !in c.rx || SessionRank(c.main, Mine(c)) == 0 then Rank(stage, up, 0, 0, 0)
    else
      var pending := Pending(out, |c.rx[ws]|, id);
      Rank(stage, up, SessionRank(c.main, Mine(c)), pending,
           if out.down || pending > 0 || C.MainId(c.main) == Some(id) then MainRank(c.main, Mine(c)) else 0)
  }

  function ConnRank(w: World, id: ConnId): Rank
    requires Homed(w, id) && w.wires[HomeWs(w, id)].owner in w.clients
  {
    var wire := w.wires[HomeWs(w, id)];
    ClientRank(w.clients[wire.owner], HomeWs(w, id), wire.out, id, StageRank(HomeSocket(w, id).stage))
  }

  // ---- No step raises it ---------------------------------------------------------------

  lemma {:induction false} LastAboutGrows(log: seq<Frame>, f: Frame, id: ConnId)
    ensures LastAbout(log + [f], id) == if About(f, id) then |log| + 1 else LastAbout(log, id)
    ensures LastAbout(log, id) <= |log|
    decreases |log|
  {
    assert (log + [f])[..|log|] == log;
    if log != [] {
      LastAboutGrows(log[..|log| - 1], log[|log| - 1], id);
      assert log == log[..|log| - 1] + [log[|log| - 1]];
    }
  }

  /** What the server side does to one connection in a step that does not lower its rank. */
  predicate Quieter(out: C.Outgoing, out': C.Outgoing, id: ConnId) {
    || out' == out
    || (!out.down && out'.down && out'.log == out.log)
    || (!out.down && !out'.down && LastAbout(out'.log, id) == LastAbout(out.log, id))
  }

  lemma QuieterRank(c: C.Client, ws: R.Ws, out: C.Outgoing, out': C.Outgoing, id: ConnId, stage: nat)
    requires Quieter(out, out', id)
    ensures AtMost(ClientRank(c, ws, out', id, stage), ClientRank(c, ws, out, id, stage))
  {
  }

  lemma LowerStageRank(c: C.Client, ws: R.Ws, out: C.Outgoing, out': C.Outgoing, id: ConnId, stage: nat, stage': nat)
    requires stage' < stage
    ensures Below(ClientRank(c, ws, out', id, stage'), ClientRank(c, ws, out, id, stage))
  {
  }

  lemma RankOnSession(k: C.Client, e: C.SessionEvent, ws: R.Ws, out: C.Outgoing, id: ConnId, stage: nat)
    requires C.MainOk(k) && C.TokenWhole(k) && C.CanSession(k, e) && ws in k.tx && ws in k.rx
    requires e.Receive? && k.session == Some(ws) ==>
               |k.rx[ws]| < |out.log| && out.log[|k.rx[ws]|] == e.frame
               && (About(e.frame, id) ==> |k.rx[ws]| < LastAbout(out.log, id))
    ensures AtMost(ClientRank(C.DoSession(k, e), ws, out, id, stage), ClientRank(k, ws, out, id, stage))
    ensures k.session == Some(ws) && (k.main.AwaitingReply? || e.ReceiveFails? || e.Crash?
                                      || (e.Receive? && (out.down || Pending(out, |k.rx[ws]|, id) > 0))) ==>
              Below(ClientRank(C.DoSession(k, e), ws, out, id, stage), ClientRank(k, ws, out, id, stage))
  {
  }

  /** The main goroutine has something in hand that counts. */
  predicate Counts(k: C.Client, ws: R.Ws, out: C.Outgoing, id: ConnId) {
    && k.session == Some(ws) && ws in k.rx
    && (out.down || Pending(out, |k.rx[ws]|, id) > 0 || C.MainId(k.main) == Some(id))
  }

  lemma RankOnHandler(k: C.Client, e: C.HandlerEvent, ws: R.Ws, out: C.Outgoing, id: ConnId, stage: nat)
    requires C.MainOk(k) && C.TokenWhole(k) && C.CanHandler(k, e)
    ensures AtMost(ClientRank(C.DoHandler(k, e), ws, out, id, stage), ClientRank(k, ws, out, id, stage))
    ensures Counts(k, ws, out, id) || (e.CleanUp? && k.session == Some(ws) && ws in k.rx) ==>
              Below(ClientRank(C.DoHandler(k, e), ws, out, id, stage), ClientRank(k, ws, out, id, stage))
  {
    HandlingMoves(k, e);
  }

  /** Handling a message only changes where the main goroutine is, of what the rank looks at. */
  lemma HandlingMoves(k: C.Client, e: C.HandlerEvent)
    requires C.MainOk(k) && C.TokenWhole(k) && C.CanHandler(k, e)
    ensures var k' := C.DoHandler(k, e);
      && k'.session == k.session && k'.rx == k.rx && k'.token == k.token && !Mine(k)
      && (e.CleanUp? ==> SessionRank(k'.main, false) == 0 && SessionRank(k.main, false) == 1)
      && (!e.CleanUp? ==>
            && SessionRank(k'.main, false) == 2 && SessionRank(k.main, false) == 2
            && MainRank(k'.main, false) < MainRank(k.main, false)
            && (C.MainId(k'.main) == C.MainId(k.main) || C.MainId(k'.main) == None))
  {
    if e.Lookup? || e.WriteLocal? { LookingMoves(k, e); }
  }

  lemma LookingMoves(k: C.Client, e: C.HandlerEvent)
    requires C.CanHandler(k, e) && (e.Lookup? || e.WriteLocal?)
    ensures var k' := C.DoHandler(k, e);
      && k'.session == k.session && k'.rx == k.rx && k'.token == k.token
      && (e.Lookup? ==> k'.main.Found? || k'.main.Missing?)
      && (e.WriteLocal? ==> k'.main.Serving? || k'.main.WriteFailed?)
      && (C.MainId(k'.main) == C.MainId(k.main) || C.MainId(k'.main) == None)
  {
  }

  /** The main goroutine asks for the write lock, or finishes its write. */
  predicate MainWrites(k: C.Client, e: C.LinkEvent) { e.MainSend? || (e.WriteMessage? && Mine(k)) }

  lemma RankOnLink(k: C.Client, e: C.LinkEvent, ws: R.Ws, out: C.Outgoing, id: ConnId, stage: nat)
    requires C.MainOk(k) && C.TokenWhole(k) && C.CanLink(k, e)
    ensures AtMost(ClientRank(C.DoLink(k, e), ws, out, id, stage), ClientRank(k, ws, out, id, stage))
    ensures MainWrites(k, e)
            && (Counts(k, ws, out, id) || (k.main.Registering? && k.session == Some(ws) && ws in k.rx)) ==>
              Below(ClientRank(C.DoLink(k, e), ws, out, id, stage), ClientRank(k, ws, out, id, stage))
  {
    SendingMoves(k, e);
  }

  /** Sending leaves the main goroutine where it is, or brings it on. */
  lemma SendingMoves(k: C.Client, e: C.LinkEvent)
    requires C.MainOk(k) && C.TokenWhole(k) && C.CanLink(k, e)
    ensures var k' := C.DoLink(k, e);
      && k'.session == k.session && k'.rx == k.rx
      && SessionRank(k'.main, Mine(k')) <= SessionRank(k.main, Mine(k))
      && (k.main.Registering? && MainWrites(k, e) ==> SessionRank(k'.main, Mine(k')) < SessionRank(k.main, Mine(k)))
      && (SessionRank(k'.main, Mine(k')) == SessionRank(k.main, Mine(k)) ==>
            && MainRank(k'.main, Mine(k')) <= MainRank(k.main, Mine(k))
            && (C.MainId(k'.main) == C.MainId(k.main) || C.MainId(k'.main) == None)
            && (MainWrites(k, e) ==> MainRank(k'.main, Mine(k')) < MainRank(k.main, Mine(k))))
  {
    if e.WriteMessage? { WritingMoves(k, e.ok); }
  }

  lemma WritingMoves(k: C.Client, ok: bool)
    requires C.TokenWhole(k) && C.CanLink(k, C.WriteMessage(ok))
    ensures var k' := C.DoLink(k, C.WriteMessage(ok));
      && k'.session == k.session && k'.rx == k.rx && k'.token.None?
      && (!Mine(k) ==> k'.main == k.main)
      && (Mine(k) && k.main.Registering? ==> k'.main.AwaitingReply? || k'.main.Head?)
      && (Mine(k) && !k.main.Registering? ==> (k.main.DialFailed? || k.main.Missing?) && k'.main == C.Serving)
  {
  }

  lemma RankOnReader(k: C.Client, at: ConnId, e: C.ReaderEvent, ws: R.Ws, out: C.Outgoing, id: ConnId, stage: nat)
    requires C.MainOk(k) && C.TokenWhole(k) && C.CanReader(k, at, e)
    ensures AtMost(ClientRank(C.DoReader(k, at, e), ws, out, id, stage), ClientRank(k, ws, out, id, stage))
  {
  }

  lemma {:induction false} LastAboutCovers(log: seq<Frame>, n: nat, id: ConnId)
    requires n < |log| && About(log[n], id)
    ensures n < LastAbout(log, id)
    decreases |log|
  {
    if n < |log| - 1 { LastAboutCovers(log[..|log| - 1], n, id); }
  }

  /** Nothing more will be read from the socket: it is closed, or its read has failed. */
  predicate Ended(s: P.Socket) { !s.open || s.stage.Ending? || s.stage.Closing? }

  /** The external side of the connection has ended. */
  predicate Shut(w: World, id: ConnId) {
    Homed(w, id) && w.wires[HomeWs(w, id)].owner in w.clients && Ended(HomeSocket(w, id))
  }

  /** The connection stays where it is, and its server side goes down or stays. */
  predicate ServerSide(w: World, w': World, id: ConnId) {
    && Shut(w, id) && Shut(w', id) && HomeWs(w', id) == HomeWs(w, id)
    && w'.wires[HomeWs(w, id)].owner == w.wires[HomeWs(w, id)].owner
    && (|| StageRank(HomeSocket(w', id).stage) < StageRank(HomeSocket(w, id).stage)
        || (&& StageRank(HomeSocket(w', id).stage) == StageRank(HomeSocket(w, id).stage)
            && Quieter(w.wires[HomeWs(w, id)].out, w'.wires[HomeWs(w, id)].out, id)))
  }

  lemma ServerSideRank(w: World, w': World, id: ConnId)
    requires ServerSide(w, w', id) && w'.clients == w.clients
    ensures AtMost(ConnRank(w', id), ConnRank(w, id))
    ensures StageRank(HomeSocket(w', id).stage) < StageRank(HomeSocket(w, id).stage) ==>
            Below(ConnRank(w', id), ConnRank(w, id))
  {
    var ws := HomeWs(w, id);
    var c := w.clients[w.wires[ws].owner];
    var stage, stage' := StageRank(HomeSocket(w, id).stage), StageRank(HomeSocket(w', id).stage);
    if stage' < stage { LowerStageRank(c, ws, w.wires[ws].out, w'.wires[ws].out, id, stage, stage'); }
    else { QuieterRank(c, ws, w.wires[ws].out, w'.wires[ws].out, id, stage); }
  }

  /** A closed socket's goroutine only moves on, and every frame it sends is such a move. */
  lemma StageDrops(p: P.Proxy, e: P.Event, id: ConnId)
    requires P.Can(p, e) && id in p.sockets && Ended(p.sockets[id])
    ensures id in P.Do(p, e).sockets && Ended(P.Do(p, e).sockets[id])
    ensures var s, s' := p.sockets[id].stage, P.Do(p, e).sockets[id].stage;
      s' == s || StageRank(s') < StageRank(s)
  {
    if P.OfAcceptLoop(e) {} else if P.OfReadLoop(e) {} else if P.OfStop(e) {} else {}
  }

  lemma SendingDrops(p: P.Proxy, e: P.Event, id: ConnId)
    requires P.Can(p, e) && id in p.sockets && P.Sends(p, e).Some? && About(P.Sends(p, e).value, id)
    ensures id in P.Do(p, e).sockets && StageRank(P.Do(p, e).sockets[id].stage) < StageRank(p.sockets[id].stage)
  {
  }

  lemma AppendIsQuieter(out: C.Outgoing, f: Frame, ok: bool, id: ConnId)
    requires (ok ==> !out.down) && !About(f, id)
    ensures Quieter(out, Append(out, f, ok), id)
  {
    LastAboutGrows(out.log, f, id);
  }

  lemma SendsOfOwn(p: P.Proxy, e: P.Event)
    requires P.Can(p, e) && P.Sends(p, e).Some?
    ensures !P.Sends(p, e).value.Other? && P.Sends(p, e).value.id in p.sockets
  {
  }

  lemma ProxySide(w: World, p: Pid, e: P.Event, ok: bool, id: ConnId)
    requires CanProxy(w, p, e, ok) && Shut(w, id) && SocketHome(w, p, id)
    ensures ServerSide(w, DoProxy(w, p, e, ok), id)
  {
    var sent := P.Sends(w.proxies[p], e);
    ProxyKeepsWs(w.proxies[p], e);
    if w.home[id] == p { StageDrops(w.proxies[p], e, id); }
    if sent.Some? {
      SendsOfOwn(w.proxies[p], e);
      if About(sent.value, id) {
        SendingDrops(w.proxies[p], e, id);
      } else {
        AppendIsQuieter(w.wires[w.proxies[p].ws].out, sent.value, ok, id);
      }
    }
    MovesSide(w, p, P.Do(w.proxies[p], e), if e.Accept? then Some(e.id) else None, sent, ok, id);
  }

  /** The same for any new state `q` of the proxy that moves the connection on, or leaves it. */
  lemma MovesSide(w: World, p: Pid, q: P.Proxy, born: Option<ConnId>, sent: Option<Frame>, ok: bool, id: ConnId)
    requires Shut(w, id) && p in w.proxies && q.ws == w.proxies[p].ws && q.ws in w.wires && born != Some(id)
    requires w.home[id] == p ==>
               && id in q.sockets && Ended(q.sockets[id])
               && var s, s' := StageRank(HomeSocket(w, id).stage), StageRank(q.sockets[id].stage);
                  s' < s || (s' == s && !(sent.Some? && About(sent.value, id)))
    requires sent.Some? ==> !About(sent.value, id) || w.home[id] == p
    requires sent.Some? && !About(sent.value, id) ==>
               Quieter(w.wires[q.ws].out, Append(w.wires[q.ws].out, sent.value, ok), id)
    ensures ServerSide(w, PutProxy(w, p, q, born, sent, ok), id)
  {
  }

  lemma ProxyKeepsWs(p: P.Proxy, e: P.Event)
    requires P.Can(p, e)
    ensures P.Do(p, e).ws == p.ws
  {
  }

  // ---- The other steps of the server ---------------------------------------------------

  lemma HandlerOut(w: World, ws: R.Ws, h: Handling, task: TaskId, id: ConnId)
    requires CanHandler(w, ws, h, task)
    ensures ws in DoHandler(w, ws, h, task).wires
    ensures DoHandler(w, ws, h, task).wires[ws].owner == w.wires[ws].owner
    ensures Quieter(w.wires[ws].out, DoHandler(w, ws, h, task).wires[ws].out, id)
  {
    if h.Reply? { AppendIsQuieter(w.wires[ws].out, Other(w.wires[ws].handler.reply), h.ok, id); }
  }

  lemma CallKeepsStage(p: P.Proxy, e: P.Event, id: ConnId)
    requires P.Can(p, e) && (e.CloseConn? || e.Write? || e.StopFlag?) && id in p.sockets && Ended(p.sockets[id])
    ensures var q := P.Do(p, e);
            q.ws == p.ws && id in q.sockets && Ended(q.sockets[id]) && q.sockets[id].stage == p.sockets[id].stage
  {
  }

  lemma HandlerSide(w: World, ws: R.Ws, h: Handling, task: TaskId, id: ConnId)
    requires CanHandler(w, ws, h, task) && Shut(w, id)
    ensures ServerSide(w, DoHandler(w, ws, h, task), id)
  {
    HandlerLeaves(w, ws, h, task);
    HandlerOut(w, ws, h, task, id);
    TT.ClientsStay(w, OfHandler(ws, h, task));
    if HomeWs(w, id) != ws { OtherWiresStay(w, ws, h, task, HomeWs(w, id)); }
    if h.CloseConn? { CalledSide(w, ws, h, task, P.CloseConn(w.wires[ws].handler.frame.id), id); }
    else if h.Write? {
      CalledSide(w, ws, h, task, P.Write(w.wires[ws].handler.id, w.wires[ws].handler.data, h.n, h.ok), id);
    }
  }

  lemma CalledSide(w: World, ws: R.Ws, h: Handling, task: TaskId, e: P.Event, id: ConnId)
    requires CanHandler(w, ws, h, task) && Shut(w, id) && (h.CloseConn? || h.Write?)
    requires e == if h.CloseConn? then P.CloseConn(w.wires[ws].handler.frame.id)
                  else P.Write(w.wires[ws].handler.id, w.wires[ws].handler.data, h.n, h.ok)
    ensures var w' := DoHandler(w, ws, h, task); var p := w.home[id];
      && p in w'.proxies && id in w'.proxies[p].sockets && w'.proxies[p].ws == w.proxies[p].ws
      && Ended(w'.proxies[p].sockets[id]) && w'.proxies[p].sockets[id].stage == w.proxies[p].sockets[id].stage
  {
    if w.wires[ws].handler.proxy == w.home[id] { CallKeepsStage(w.proxies[w.home[id]], e, id); }
  }

  lemma AdminSide(w: World, a: Admin, task: TaskId, id: ConnId)
    requires Inv(w) && CanAdmin(w, a, task) && Shut(w, id)
    ensures ServerSide(w, DoAdmin(w, a, task), id)
  {
    AdminLeaves(w, a, task);
    AdminOut(w, a, task, HomeWs(w, id));
    TT.ClientsStay(w, OfAdmin(a, task));
    assert PidOk(w, w.home[id]);
  }

  lemma AdminOut(w: World, a: Admin, task: TaskId, ws: R.Ws)
    requires ws in w.wires
    ensures ws in DoAdmin(w, a, task).wires
    ensures var wire, wire' := w.wires[ws], DoAdmin(w, a, task).wires[ws];
            wire'.owner == wire.owner && (wire'.out == wire.out || wire'.out == wire.out.(down := true))
  {
  }

  lemma TaskSide(w: World, t: TaskId, id: ConnId)
    requires CanTask(w, t) && Shut(w, id)
    ensures ServerSide(w, DoTask(w, t), id)
  {
    var p := w.tasks[t][0];
    if w.proxies[p].stop.Running? && w.home[id] == p { CallKeepsStage(w.proxies[p], P.StopFlag, id); }
  }

  // ---- A step of the client ------------------------------------------------------------

  lemma ClientSide(w: World, k: Cid, e: C.Event, id: ConnId)
    requires Inv(w) && CanClient(w, k, e) && Shut(w, id)
    ensures Shut(DoClient(w, k, e), id) && AtMost(ConnRank(DoClient(w, k, e), id), ConnRank(w, id))
  {
    var ws := HomeWs(w, id);
    var w' := DoClient(w, k, e);
    assert w'.wires[ws] == w.wires[ws];
    if k == w.wires[ws].owner {
      assert C.Inv(w.clients[k]) && WireOk(w, ws);
      RankOnClient(w.clients[k], e, ws, w.wires[ws].out, id, StageRank(HomeSocket(w, id).stage));
    }
  }

  /** What the client receives comes off the log in order. */
  predicate OffTheLog(k: C.Client, e: C.Event, ws: R.Ws, out: C.Outgoing) {
    e.Session? && e.session.Receive? && k.session == Some(ws) ==>
      ws in k.rx && |k.rx[ws]| < |out.log| && out.log[|k.rx[ws]|] == e.session.frame
  }

  lemma RankOnClient(k: C.Client, e: C.Event, ws: R.Ws, out: C.Outgoing, id: ConnId, stage: nat)
    requires C.MainOk(k) && C.TokenWhole(k) && C.Can(k, e) && ws in k.tx && ws in k.rx && OffTheLog(k, e, ws, out)
    ensures AtMost(ClientRank(C.Do(k, e), ws, out, id, stage), ClientRank(k, ws, out, id, stage))
  {
    match e
    case Session(s) =>
      if s.Receive? && k.session == Some(ws) && About(s.frame, id) { LastAboutCovers(out.log, |k.rx[ws]|, id); }
      RankOnSession(k, s, ws, out, id, stage);
    case Handler(h) => RankOnHandler(k, h, ws, out, id, stage);
    case Link(l) => RankOnLink(k, l, ws, out, id, stage);
    case OfReader(at, r) => RankOnReader(k, at, r, ws, out, id, stage);
  }

  /** Once the external side of a connection has ended, no step raises its rank. */
  lemma NeverRaised(w: World, s: Step, id: ConnId)
    requires Inv(w) && Can(w, s) && Shut(w, id)
    ensures Shut(Do(w, s), id) && AtMost(ConnRank(Do(w, s), id), ConnRank(w, id))
  {
    if s.OfClient? {
      ClientSide(w, s.k, s.act, id);
    } else {
      ServerSteps(w, s, id);
      TT.ClientsStay(w, s);
      ServerSideRank(w, Do(w, s), id);
    }
  }

  lemma ServerSteps(w: World, s: Step, id: ConnId)
    requires Inv(w) && Can(w, s) && Shut(w, id) && !s.OfClient?
    ensures ServerSide(w, Do(w, s), id)
  {
    match s
    case OfProxy(p, e, ok) =>
      assert SocketHome(w, p, id);
      ProxySide(w, p, e, ok, id);
    case OfHandler(ws, h, task) => HandlerSide(w, ws, h, task, id);
    case OfAdmin(a, task) => AdminSide(w, a, task, id);
    case OfTask(t) => TaskSide(w, t, id);
  }

  // ---- Out of both maps for good -------------------------------------------------------

  /** The client is about to list the connection. */
  predicate Listing(main: C.MainLoop, id: ConnId) { main == C.Got(Open(id)) || main == C.Dialed(id) }

  /**
   The client does not list the connection, and nothing that could make it list the connection
   is on its way: everything about it has arrived, or the session is over.
   */
  predicate ClientGone(c: C.Client, ws: R.Ws, last: nat, id: ConnId) {
    || c.main.Crashed?
    || (&& id !in c.localConns && !Listing(c.main, id)
        && (c.session != Some(ws) || ws !in c.rx || SessionRank(c.main, Mine(c)) == 0 || last <= |c.rx[ws]|))
  }

  /** The identifier is out of the proxy's map and of the client's, unless the client has crashed. */
  predicate Gone(w: World, id: ConnId)
    requires Shut(w, id)
  {
    var wire := w.wires[HomeWs(w, id)];
    && StageRank(HomeSocket(w, id).stage) == 0 && id !in HomeProxy(w, id).conns
    && ClientGone(w.clients[wire.owner], HomeWs(w, id), LastAbout(wire.out.log, id), id)
  }

  /** Frames about the connection are received on its home WebSocket only. */
  predicate FromHome(k: C.Client, e: C.Event, ws: R.Ws, id: ConnId) {
    e.Session? && e.session.Receive? && About(e.session.frame, id) ==> k.session == Some(ws)
  }

  lemma GoneOnClient(k: C.Client, e: C.Event, ws: R.Ws, out: C.Outgoing, id: ConnId)
    requires C.MainOk(k) && C.TokenWhole(k) && C.Can(k, e) && ws in k.tx && ws in k.rx
    requires OffTheLog(k, e, ws, out) && FromHome(k, e, ws, id)
    requires ClientGone(k, ws, LastAbout(out.log, id), id)
    ensures ClientGone(C.Do(k, e), ws, LastAbout(out.log, id), id)
  {
    match e
    case Session(s) =>
      if s.Receive? && About(s.frame, id) { LastAboutCovers(out.log, |k.rx[ws]|, id); }
      GoneOnSession(k, s, ws, LastAbout(out.log, id), id);
    case Handler(h) => HandlingMoves(k, h); GoneOnHandler(k, h, ws, LastAbout(out.log, id), id);
    case Link(l) => SendingMoves(k, l); GoneOnLink(k, l, ws, LastAbout(out.log, id), id);
    case OfReader(at, r) => GoneOnReader(k, at, r, ws, LastAbout(out.log, id), id);
  }

  lemma GoneOnSession(k: C.Client, e: C.SessionEvent, ws: R.Ws, last: nat, id: ConnId)
    requires C.MainOk(k) && C.TokenWhole(k) && C.CanSession(k, e) && ws in k.tx && ws in k.rx
             && ClientGone(k, ws, last, id)
    requires e.Receive? && About(e.frame, id) ==> k.session == Some(ws) && |k.rx[ws]| < last
    ensures ClientGone(C.DoSession(k, e), ws, last, id)
  {
  }

  lemma GoneOnHandler(k: C.Client, e: C.HandlerEvent, ws: R.Ws, last: nat, id: ConnId)
    requires C.MainOk(k) && C.TokenWhole(k) && C.CanHandler(k, e) && ClientGone(k, ws, last, id)
    ensures ClientGone(C.DoHandler(k, e), ws, last, id)
  {
  }

  lemma GoneOnLink(k: C.Client, e: C.LinkEvent, ws: R.Ws, last: nat, id: ConnId)
    requires C.MainOk(k) && C.TokenWhole(k) && C.CanLink(k, e) && ClientGone(k, ws, last, id)
    ensures ClientGone(C.DoLink(k, e), ws, last, id)
  {
    if e.WriteMessage? {} else {}
  }

  lemma GoneOnReader(k: C.Client, at: ConnId, e: C.ReaderEvent, ws: R.Ws, last: nat, id: ConnId)
    requires C.MainOk(k) && C.CanReader(k, at, e) && ClientGone(k, ws, last, id)
    ensures ClientGone(C.DoReader(k, at, e), ws, last, id)
  {
  }

  /** Once out for good, the identifier stays out, whoever moves. */
  lemma GoneStays(w: World, s: Step, id: ConnId)
    requires Inv(w) && Can(w, s) && Shut(w, id) && Gone(w, id)
    ensures Shut(Do(w, s), id) && Gone(Do(w, s), id)
  {
    NeverRaised(w, s, id);
    var ws := HomeWs(w, id);
    if s.OfClient? {
      GoneOnStep(w, s.k, s.act, id);
    } else {
      ServerSteps(w, s, id);
      TT.ClientsStay(w, s);
    }
    OutOfTheProxy(w, s, id);
  }

  lemma GoneOnStep(w: World, k: Cid, e: C.Event, id: ConnId)
    requires Inv(w) && CanClient(w, k, e) && Shut(w, id) && Gone(w, id)
    ensures var w' := DoClient(w, k, e); var ws := HomeWs(w, id);
      && w'.wires[ws] == w.wires[ws] && w'.proxies == w.proxies
      && w.wires[ws].owner in w'.clients
      && ClientGone(w'.clients[w.wires[ws].owner], ws, LastAbout(w.wires[ws].out.log, id), id)
  {
    var ws := HomeWs(w, id);
    if k == w.wires[ws].owner {
      assert C.Inv(w.clients[k]) && WireOk(w, ws);
      ArrivesHome(w, k, e, id);
      GoneOnClient(w.clients[k], e, ws, w.wires[ws].out, id);
    }
  }

  lemma ArrivesHome(w: World, k: Cid, e: C.Event, id: ConnId)
    requires Inv(w) && CanClient(w, k, e) && Homed(w, id)
    ensures FromHome(w.clients[k], e, HomeWs(w, id), id)
  {
    if e.Session? && e.session.Receive? && About(e.session.frame, id) {
      var ws := w.clients[k].session.value;
      assert OutOk(w, ws, id);
      TC.CarriedHome(w, ws, e.session.frame);
    }
  }

  lemma OutOfTheProxy(w: World, s: Step, id: ConnId)
    requires Inv(w) && Can(w, s) && Shut(Do(w, s), id) && StageRank(HomeSocket(Do(w, s), id).stage) == 0
    ensures id !in HomeProxy(Do(w, s), id).conns
  {
    TA.StepInv(w, s);
    assert P.Inv(HomeProxy(Do(w, s), id)) && P.SocketOk(HomeProxy(Do(w, s), id), id);
  }

  // ---- Who is in charge ----------------------------------------------------------------

  /** The steps of the goroutine that serves one external connection. */
  predicate Serves(e: P.Event, id: ConnId) {
    match e
    case Admit(i) => i == id
    case TurnAway(i) => i == id
    case List(i) => i == id
    case Announce(i) => i == id
    case Spawn(i) => i == id
    case LoopCheck(i) => i == id
    case Read(i, _) => i == id
    case ReadFails(i) => i == id
    case Forward(i) => i == id
    case Notify(i) => i == id
    case CloseSocket(i) => i == id
    case Unlist(i) => i == id
    case Release(i) => i == id
    case _ => false
  }

  /** The steps of the client's main goroutine. */
  predicate MainActs(k: C.Client, e: C.Event) { e.Session? || e.Handler? || (e.Link? && MainWrites(k, e.link)) }

  /**
   `s` is a step of the goroutine in charge of an ended connection: the one that serves it in
   the proxy, and when that has finished the main goroutine of the client.
   */
  ghost predicate InCharge(w: World, id: ConnId, s: Step)
    requires Shut(w, id)
  {
    if StageRank(HomeSocket(w, id).stage) > 0 then s.OfProxy? && s.p == w.home[id] && Serves(s.event, id)
    else
      var k := w.wires[HomeWs(w, id)].owner;
      s.OfClient? && s.k == k && MainActs(w.clients[k], s.act)
  }

  lemma ServingLowers(p: P.Proxy, e: P.Event, id: ConnId)
    requires P.Can(p, e) && Serves(e, id) && id in p.sockets && Ended(p.sockets[id])
    ensures id in P.Do(p, e).sockets && StageRank(P.Do(p, e).sockets[id].stage) < StageRank(p.sockets[id].stage)
  {
  }

  /** What a client that is not done with an ended connection is busy with. */
  predicate Busy(c: C.Client, ws: R.Ws, out: C.Outgoing, id: ConnId) {
    && c.session == Some(ws) && ws in c.rx && SessionRank(c.main, Mine(c)) > 0
    && (|| c.main.Registering? || c.main.AwaitingReply? || c.main.CleaningUp?
        || out.down || Pending(out, |c.rx[ws]|, id) > 0 || C.MainId(c.main) == Some(id))
  }

  /** Then whatever its main goroutine does, and however its I/O ends, the rank goes down. */
  lemma MainLowers(c: C.Client, e: C.Event, ws: R.Ws, out: C.Outgoing, id: ConnId, stage: nat)
    requires C.MainOk(c) && C.TokenWhole(c) && C.Can(c, e) && ws in c.tx && OffTheLog(c, e, ws, out)
    requires Busy(c, ws, out, id) && MainActs(c, e)
    ensures Below(ClientRank(C.Do(c, e), ws, out, id, stage), ClientRank(c, ws, out, id, stage))
  {
    match e
    case Session(s) =>
      if s.Receive? && About(s.frame, id) { LastAboutCovers(out.log, |c.rx[ws]|, id); }
      RankOnSession(c, s, ws, out, id, stage);
    case Handler(h) => RankOnHandler(c, h, ws, out, id, stage);
    case Link(l) => RankOnLink(c, l, ws, out, id, stage);
  }

  /** With the WebSocket up and nothing pending, the close has arrived. */
  lemma CloseArrived(w: World, id: ConnId)
    requires Inv(w) && Shut(w, id) && StageRank(HomeSocket(w, id).stage) == 0
    requires var wire := w.wires[HomeWs(w, id)];
      && id in w.clients[wire.owner].locals && HomeWs(w, id) in w.clients[wire.owner].rx
      && !wire.out.down && Pending(wire.out, |w.clients[wire.owner].rx[HomeWs(w, id)]|, id) == 0
    ensures var ws := HomeWs(w, id); Close(id, true) in w.clients[w.wires[ws].owner].rx[ws]
  {
    var ws := HomeWs(w, id);
    var c := w.clients[w.wires[ws].owner];
    assert WireOk(w, ws) && OutOk(w, ws, id) && C.Inv(c) && KnownAt(w, w.wires[ws].owner, id);
    assert P.Inv(HomeProxy(w, id)) && P.SocketOk(HomeProxy(w, id), id);
    EndIsInLog(w.wires[ws].out.log, c.rx[ws], HomeSocket(w, id), id);
  }

  lemma EndIsInLog(log: seq<Frame>, rx: seq<Frame>, s: P.Socket, id: ConnId)
    requires rx <= log && LastAbout(log, id) <= |rx| && Only(log, id) == s.sent && Open(id) in rx
    requires s.stage.Refused? || s.stage.Finished?
    requires P.SentOk(s, id)
    ensures Close(id, true) in rx
  {
    OnlyAbout(log, id);
    assert Open(id) in log;
    assert Close(id, true) in s.sent;
    var n :| 0 <= n < |log| && log[n] == Close(id, true);
    LastAboutCovers(log, n, id);
    assert rx[n] == log[n];
  }

  /**
   Without failures: once the proxy is done with a connection, its WebSocket is up and the client
   has taken everything that was sent about it, the client does not list it any more, unless it is
   at this moment handling the close.
   */
  lemma CloseIsHandled(w: World, id: ConnId)
    requires Good(w) && Shut(w, id) && StageRank(HomeSocket(w, id).stage) == 0
    requires var wire := w.wires[HomeWs(w, id)];
      && HomeWs(w, id) in w.clients[wire.owner].rx
      && !wire.out.down && LastAbout(wire.out.log, id) <= |w.clients[wire.owner].rx[HomeWs(w, id)]|
    ensures var c := w.clients[w.wires[HomeWs(w, id)].owner];
            id in c.localConns || c.main == C.Dialed(id) ==> c.main == C.Got(Close(id, true))
  {
    var k := w.wires[HomeWs(w, id)].owner;
    var c := w.clients[k];
    assert C.Inv(c) && LocalAt(w, k, id) && ClosingOk(c, id);
    if id in c.localConns || c.main == C.Dialed(id) { CloseArrived(w, id); }
  }

  /** Until the identifier is gone, the client is busy with it, once the proxy is done. */
  lemma StillBusy(w: World, id: ConnId)
    requires Good(w) && Shut(w, id) && !Gone(w, id) && StageRank(HomeSocket(w, id).stage) == 0
    ensures var ws := HomeWs(w, id); var c := w.clients[w.wires[ws].owner];
            ws in c.tx && Busy(c, ws, w.wires[ws].out, id) && C.MainOk(c) && C.TokenWhole(c) && !c.main.Crashed?
  {
    var ws := HomeWs(w, id);
    var k, out := w.wires[ws].owner, w.wires[ws].out;
    var c := w.clients[k];
    assert P.Inv(HomeProxy(w, id)) && P.SocketOk(HomeProxy(w, id), id);
    assert C.Inv(c) && LocalAt(w, k, id) && ClosingOk(c, id) && WireOk(w, ws);
    LastAboutGrows(out.log, Other(Heartbeat), id);
    if c.main == C.Got(Open(id)) { OpenedAtHome(w, k, id); }
    if !out.down && LastAbout(out.log, id) <= |c.rx[ws]| { CloseIsHandled(w, id); }
    NotGoneIsBusy(c, ws, out, id);
  }

  lemma NotGoneIsBusy(c: C.Client, ws: R.Ws, out: C.Outgoing, id: ConnId)
    requires C.MainOk(c) && ws in c.rx && ClosingOk(c, id) && !ClientGone(c, ws, LastAbout(out.log, id), id)
    requires id in c.localConns ==> c.locals[id].home == ws
    requires c.main == C.Dialed(id) ==> c.locals[id].home == ws
    requires c.main == C.Got(Open(id)) ==> c.session == Some(ws)
    requires LastAbout(out.log, id) <= |out.log|
    requires !out.down && LastAbout(out.log, id) <= |c.rx[ws]| && (id in c.localConns || c.main == C.Dialed(id)) ==>
               c.main == C.Got(Close(id, true))
    ensures Busy(c, ws, out, id)
  {
  }

  lemma OpenedAtHome(w: World, k: Cid, id: ConnId)
    requires Inv(w) && Homed(w, id) && k in w.clients && w.clients[k].main == C.Got(Open(id))
    ensures w.clients[k].session == Some(HomeWs(w, id))
  {
    var c := w.clients[k];
    assert C.Inv(c);
    var ws := c.session.value;
    assert C.WsOk(c, ws) && OwnerOk(w, k, ws) && WireOk(w, ws) && OutOk(w, ws, id);
    assert Open(id) in c.rx[ws];
    TC.CarriedHome(w, ws, Open(id));
  }

  /**
   Until the identifier is out for good, every step of the goroutine in charge lowers the rank,
   whatever the step is and however its I/O ends.
   */
  lemma InChargeLowers(w: World, s: Step, id: ConnId)
    requires Good(w) && Shut(w, id) && !Gone(w, id) && Can(w, s) && InCharge(w, id, s)
    ensures Shut(Do(w, s), id) && Below(ConnRank(Do(w, s), id), ConnRank(w, id))
  {
    if StageRank(HomeSocket(w, id).stage) > 0 {
      ServerSteps(w, s, id);
      ServingLowers(HomeProxy(w, id), s.event, id);
      TT.ClientsStay(w, s);
      ServerSideRank(w, Do(w, s), id);
    } else {
      StillBusy(w, id);
      ClientSide(w, s.k, s.act, id);
      var ws := HomeWs(w, id);
      MainLowers(w.clients[s.k], s.act, ws, w.wires[ws].out, id, StageRank(HomeSocket(w, id).stage));
    }
  }

  // ---- The goroutine in charge is never stuck ------------------------------------------

  lemma HelpfulServes(p: P.Proxy, id: ConnId)
    requires id in p.sockets && P.SocketOk(p, id) && StageRank(p.sockets[id].stage) > 0
    ensures P.Can(p, PS.Helpful(p, id)) && Serves(PS.Helpful(p, id), id)
  {
  }

  /** The main goroutine asks for the write lock while another goroutine of the client holds it. */
  predicate MainWaits(c: C.Client) {
    (c.main.Registering? || c.main.DialFailed? || c.main.Missing?) && c.token.Some? && !Mine(c)
  }

  /** One thing the main goroutine can do. */
  function NextOfMain(c: C.Client): C.Event {
    match c.main
    case Registering =>
      C.Link(if c.token.Some? then C.WriteMessage(false) else C.MainSend(Register(R.Request("", "", 0), true)))
    case AwaitingReply => C.Session(C.ReceiveFails)
    case Serving => C.Session(C.ReceiveFails)
    case DialFailed(_) => C.Link(if c.token.Some? then C.WriteMessage(false) else C.MainSend(Heartbeat))
    case Missing(_) => C.Link(if c.token.Some? then C.WriteMessage(false) else C.MainSend(Heartbeat))
    case Got(frame) =>
      C.Handler(if frame.Open? then C.Dial(true)
                else if frame.Data? then C.Lookup
                else if frame.Close? then C.CloseLocal
                else C.Ignore)
    case Dialed(_) => C.Handler(C.ListLocal)
    case Starting(_) => C.Handler(C.StartReader)
    case Found(_, _) => C.Handler(C.WriteLocal(0, false))
    case WriteFailed(_) => C.Handler(C.CloseLocal)
    case _ => C.Handler(C.CleanUp)
  }

  lemma MainCanAct(c: C.Client)
    requires C.MainOk(c) && C.TokenWhole(c) && SessionRank(c.main, Mine(c)) > 0 && !MainWaits(c)
    ensures C.Can(c, NextOfMain(c)) && MainActs(c, NextOfMain(c))
    ensures !(NextOfMain(c).Session? && (NextOfMain(c).session.Connect? || NextOfMain(c).session.Receive?))
  {
  }

  /**
   Until the identifier is out for good, the goroutine in charge can take a step, or it waits for
   the client's write lock, whose holder is in its write; and that write, however it ends, frees
   the lock without raising the rank.
   */
  lemma NeverStuck(w: World, id: ConnId)
    requires Good(w) && Shut(w, id) && !Gone(w, id)
    ensures var k := w.wires[HomeWs(w, id)].owner;
      || (exists s :: Can(w, s) && InCharge(w, id, s))
      || (&& MainWaits(w.clients[k]) && Can(w, OfClient(k, C.Link(C.WriteMessage(false))))
          && forall ok :: Can(w, OfClient(k, C.Link(C.WriteMessage(ok)))) ==>
               var w' := Do(w, OfClient(k, C.Link(C.WriteMessage(ok))));
               k in w'.clients && w'.clients[k].token.None? && Shut(w', id)
               && AtMost(ConnRank(w', id), ConnRank(w, id)))
  {
    var k := w.wires[HomeWs(w, id)].owner;
    if StageRank(HomeSocket(w, id).stage) > 0 {
      var p := w.home[id];
      assert P.Inv(w.proxies[p]) && P.SocketOk(w.proxies[p], id);
      HelpfulServes(w.proxies[p], id);
      var s := OfProxy(p, PS.Helpful(w.proxies[p], id), false);
      assert Can(w, s) && InCharge(w, id, s);
    } else {
      StillBusy(w, id);
      if MainWaits(w.clients[k]) {
        forall ok | Can(w, OfClient(k, C.Link(C.WriteMessage(ok))))
          ensures var w' := Do(w, OfClient(k, C.Link(C.WriteMessage(ok))));
                  k in w'.clients && w'.clients[k].token.None? && Shut(w', id)
                  && AtMost(ConnRank(w', id), ConnRank(w, id))
        { WriteFreesLock(w, k, ok, id); }
      } else {
        MainCanAct(w.clients[k]);
        var s := OfClient(k, NextOfMain(w.clients[k]));
        assert Can(w, s) && InCharge(w, id, s);
      }
    }
  }

  lemma WriteFreesLock(w: World, k: Cid, ok: bool, id: ConnId)
    requires Inv(w) && Shut(w, id) && Can(w, OfClient(k, C.Link(C.WriteMessage(ok))))
    ensures var w' := Do(w, OfClient(k, C.Link(C.WriteMessage(ok))));
            k in w'.clients && w'.clients[k].token.None? && Shut(w', id) && AtMost(ConnRank(w', id), ConnRank(w, id))
  {
    ClientSide(w, k, C.Link(C.WriteMessage(ok)), id);
    TokenFreed(w.clients[k], ok);
  }

  lemma TokenFreed(c: C.Client, ok: bool)
    requires C.CanLink(c, C.WriteMessage(ok))
    ensures C.DoLink(c, C.WriteMessage(ok)).token.None?
  {
  }

  // ---- Fair runs -----------------------------------------------------------------------

  ghost predicate StepAt(states: nat -> World, steps: nat -> Step, n: nat) {
    Can(states(n), steps(n)) && states(n + 1) == Do(states(n), steps(n))
  }

  /** An endless run. */
  ghost predicate Run(states: nat -> World, steps: nat -> Step) { forall n: nat :: StepAt(states, steps, n) }

  /** The goroutine in charge moves at step `n`, or has nothing left to do. */
  ghost predicate Attended(states: nat -> World, steps: nat -> Step, id: ConnId, n: nat) {
    Shut(states(n), id) ==> Gone(states(n), id) || InCharge(states(n), id, steps(n))
  }

  /** It happens again and again. */
  ghost predicate Recurs(happens: nat -> bool) { forall n: nat :: HappensAfter(happens, n) }

  ghost predicate HappensAfter(happens: nat -> bool, n: nat) { exists m: nat :: n <= m && happens(m) }

  /** The goroutine in charge is never left out for ever. */
  ghost predicate Fair(states: nat -> World, steps: nat -> Step, id: ConnId) {
    Recurs((n: nat) => Attended(states, steps, id, n))
  }

  lemma {:induction false} Persists(holds: nat -> bool, n: nat, m: nat)
    requires holds(n) && n <= m && forall i: nat :: n <= i && holds(i) ==> holds(i + 1)
    ensures holds(m)
    decreases m - n
  {
    if n < m { Persists(holds, n, m - 1); }
  }

  /** After step `n` a smaller bound holds. */
  ghost predicate Sinks(within: (nat, Rank) -> bool, n: nat, r: Rank) {
    exists next :: within(n + 1, next) && Below(next, r)
  }

  /** `within(n, r)` bounds the rank at step `n`; at attended steps the bound sinks until the end is reached. */
  lemma {:induction false} Descends(within: (nat, Rank) -> bool, attended: nat -> bool, ends: nat -> bool, n: nat,
      rank: Rank)
    returns (m: nat)
    requires within(n, rank) && Recurs(attended)
    requires forall i: nat, r :: within(i, r) ==> within(i + 1, r)
    requires forall i: nat, r :: within(i, r) && attended(i) ==> ends(i) || Sinks(within, i, r)
    ensures n <= m && ends(m)
    decreases rank.stage, rank.up, rank.session, rank.pending, rank.main
  {
    assert HappensAfter(attended, n);
    var i: nat :| n <= i && attended(i);
    Persists((j: nat) => within(j, rank), n, i);
    if ends(i) { return i; }
    var next :| within(i + 1, next) && Below(next, rank);
    m := Descends(within, attended, ends, i + 1, next);
  }

  ghost predicate GoodAt(states: nat -> World, n: nat) { Good(states(n)) }

  lemma GoodNext(states: nat -> World, steps: nat -> Step, n: nat)
    requires StepAt(states, steps, n) && GoodAt(states, n)
    ensures GoodAt(states, n + 1)
  {
    StepGood(states(n), steps(n));
  }

  lemma RunGood(states: nat -> World, steps: nat -> Step)
    requires Run(states, steps) && GoodAt(states, 0)
    ensures forall n: nat :: GoodAt(states, n)
  {
    forall n: nat ensures GoodAt(states, n) {
      forall i: nat | GoodAt(states, i) ensures GoodAt(states, i + 1) { GoodStep(states, steps, i); }
      Persists((i: nat) => GoodAt(states, i), 0, n);
    }
  }

  lemma GoodStep(states: nat -> World, steps: nat -> Step, n: nat)
    requires Run(states, steps) && GoodAt(states, n)
    ensures GoodAt(states, n + 1)
  {
    assert StepAt(states, steps, n);
    GoodNext(states, steps, n);
  }

  /** The external side has ended by step `n`, and the rank is then at most `rank`. */
  predicate ShutBelow(states: nat -> World, id: ConnId, n: nat, rank: Rank) {
    Shut(states(n), id) && AtMost(ConnRank(states(n), id), rank)
  }

  lemma AtMostTransitive(a: Rank, b: Rank, c: Rank)
    requires AtMost(a, b) && AtMost(b, c)
    ensures AtMost(a, c)
  {
  }

  lemma RankNext(states: nat -> World, steps: nat -> Step, id: ConnId, n: nat, rank: Rank)
    requires StepAt(states, steps, n) && GoodAt(states, n) && ShutBelow(states, id, n, rank)
    ensures ShutBelow(states, id, n + 1, rank)
  {
    NeverRaised(states(n), steps(n), id);
    AtMostTransitive(ConnRank(states(n + 1), id), ConnRank(states(n), id), rank);
  }

  predicate GoneAt(states: nat -> World, id: ConnId, n: nat) { Shut(states(n), id) && Gone(states(n), id) }

  lemma GoneNext(states: nat -> World, steps: nat -> Step, id: ConnId, n: nat)
    requires StepAt(states, steps, n) && GoodAt(states, n) && GoneAt(states, id, n)
    ensures GoneAt(states, id, n + 1)
  {
    GoneStays(states(n), steps(n), id);
  }

  /** A moment when the goroutine in charge moves. */
  lemma NextBelow(states: nat -> World, steps: nat -> Step, id: ConnId, n: nat, rank: Rank) returns (next: Rank)
    requires StepAt(states, steps, n) && GoodAt(states, n) && Attended(states, steps, id, n)
             && ShutBelow(states, id, n, rank)
    ensures GoneAt(states, id, n) || (ShutBelow(states, id, n + 1, next) && Below(next, rank))
  {
    next := rank;
    if !Gone(states(n), id) {
      InChargeLowers(states(n), steps(n), id);
      next := ConnRank(states(n + 1), id);
    }
  }

  lemma BoundsHold(states: nat -> World, steps: nat -> Step, id: ConnId)
    requires Run(states, steps) && GoodAt(states, 0)
    ensures forall i: nat, r :: ShutBelow(states, id, i, r) ==> ShutBelow(states, id, i + 1, r)
  {
    RunGood(states, steps);
    forall i: nat, r | ShutBelow(states, id, i, r) ensures ShutBelow(states, id, i + 1, r) {
      assert StepAt(states, steps, i);
      RankNext(states, steps, id, i, r);
    }
  }

  lemma BoundsSink(states: nat -> World, steps: nat -> Step, id: ConnId, within: (nat, Rank) -> bool)
    requires Run(states, steps) && GoodAt(states, 0)
    requires within == ((i: nat, r: Rank) => ShutBelow(states, id, i, r))
    ensures forall i: nat, r :: within(i, r) && Attended(states, steps, id, i) ==>
              GoneAt(states, id, i) || Sinks(within, i, r)
  {
    RunGood(states, steps);
    forall i: nat, r | within(i, r) && Attended(states, steps, id, i)
      ensures GoneAt(states, id, i) || Sinks(within, i, r)
    {
      assert StepAt(states, steps, i);
      var next := NextBelow(states, steps, id, i, r);
      assert GoneAt(states, id, i) || within(i + 1, next);
    }
  }

  lemma Arrives(states: nat -> World, steps: nat -> Step, id: ConnId, n: nat, rank: Rank) returns (m: nat)
    requires Run(states, steps) && GoodAt(states, 0) && Fair(states, steps, id) && ShutBelow(states, id, n, rank)
    ensures n <= m && GoneAt(states, id, m)
  {
    var within: (nat, Rank) -> bool := (i: nat, r: Rank) => ShutBelow(states, id, i, r);
    var attended: nat -> bool := (i: nat) => Attended(states, steps, id, i);
    var ends: nat -> bool := (i: nat) => GoneAt(states, id, i);
    BoundsHold(states, steps, id);
    BoundsSink(states, steps, id, within);
    m := Descends(within, attended, ends, n, rank);
  }

  lemma GoneOverTime(states: nat -> World, steps: nat -> Step, id: ConnId, n: nat, m: nat)
    requires Run(states, steps) && GoodAt(states, 0) && n <= m && GoneAt(states, id, n)
    ensures GoneAt(states, id, m)
  {
    RunGood(states, steps);
    forall i: nat | GoneAt(states, id, i) ensures GoneAt(states, id, i + 1) {
      assert StepAt(states, steps, i);
      GoneNext(states, steps, id, i);
    }
    Persists((i: nat) => GoneAt(states, id, i), n, m);
  }

  /**
   Closing terminates: in every endless run from the start in which the goroutine in charge is not
   left out for ever, a connection whose external side has ended is some time out of the maps on
   both sides, and stays out.
   */
  lemma ClosedConnectionsLeave(states: nat -> World, steps: nat -> Step, id: ConnId, n: nat)
    requires Initial(states(0)) && Run(states, steps) && Fair(states, steps, id) && Shut(states(n), id)
    ensures exists m: nat :: n <= m && GoneAt(states, id, m)
    ensures forall m: nat, i: nat :: m <= i && GoneAt(states, id, m) ==> GoneAt(states, id, i)
  {
    InitialGood(states(0));
    var m := Arrives(states, steps, id, n, ConnRank(states(n), id));
    forall m: nat, i: nat | m <= i && GoneAt(states, id, m) ensures GoneAt(states, id, i) {
      GoneOverTime(states, steps, id, m, i);
    }
  }
}
