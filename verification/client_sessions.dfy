/**
 The protocol of one client: it registers once on each WebSocket, says nothing but what the
 server knows, and serves only after `assigned` was the first thing it received.
 */
module ClientSessions {
  import opened Wrappers
  import opened Frames
  import opened Clients
  import R = Registries

  predicate IsRegister(f: Frame) { f.Other? && f.control.Register? }

  predicate IsAssigned(f: Frame) { f.Other? && f.control.Assigned? }

  /** The messages of protocol/message.go that clients send ... */
  predicate ClientSays(f: Frame) {
    f.Data? || f.Close? || (f.Other? && (f.control.Register? || f.control.Heartbeat?))
  }

  /** ... and those that the server sends. */
  predicate ServerSays(f: Frame) {
    f.Other? ==> f.control.Assigned? || f.control.Error? || f.control.HeartbeatAck?
  }

  ghost predicate Silent(log: seq<Frame>) { forall f :: f in log ==> !IsRegister(f) }

  /** Two different entries are not both registrations. */
  ghost predicate AtMostOnce(log: seq<Frame>) {
    forall i, j :: 0 <= i < j < |log| ==> !(IsRegister(log[i]) && IsRegister(log[j]))
  }

  predicate InSession(main: MainLoop) {
    !main.Head? && !main.Over? && !main.Crashed? && !main.Registering? && !main.AwaitingReply?
  }

  /** The frame being written: a registration only by the goroutine of `Start`, on its new WebSocket. */
  predicate TokenTalks(k: Client) {
    k.token.Some? ==>
      && ClientSays(k.token.value.frame)
      && (IsRegister(k.token.value.frame) ==>
            k.token.value.who == ByMain && k.main.Registering? && k.session == Some(k.token.value.ws))
  }

  ghost predicate LogTalks(k: Client, ws: R.Ws) {
    ws in k.tx ==>
      && AtMostOnce(k.tx[ws].log) && (forall f :: f in k.tx[ws].log ==> ClientSays(f))
      && (k.main.Registering? && k.session == Some(ws) ==> Silent(k.tx[ws].log))
  }

  /** Nothing is received before the reply; what follows it follows an `assigned`. */
  predicate Greeted(k: Client) {
    && (k.main.Registering? || k.main.AwaitingReply? ==>
          k.session.Some? && k.session.value in k.rx && k.rx[k.session.value] == [])
    && (InSession(k.main) ==>
          && k.session.Some? && k.session.value in k.rx
          && k.rx[k.session.value] != [] && IsAssigned(k.rx[k.session.value][0]))
    && (k.main.Over? ==> k.stopping)
  }

  predicate RxGreeted(k: Client, ws: R.Ws) { ws in k.rx && |k.rx[ws]| > 1 ==> IsAssigned(k.rx[ws][0]) }

  ghost predicate Talks(k: Client) {
    && TokenTalks(k) && Greeted(k)
    && (forall ws {:trigger LogTalks(k, ws)} :: LogTalks(k, ws))
    && (forall ws {:trigger RxGreeted(k, ws)} :: RxGreeted(k, ws))
  }

  lemma NewTalks()
    ensures Talks(NewClient())
  {
  }

  // ---- Every step keeps it -------------------------------------------------------------

  lemma TokenOnHandler(k: Client, e: HandlerEvent)
    requires CanHandler(k, e) && TokenTalks(k)
    ensures TokenTalks(DoHandler(k, e))
  {
  }

  lemma TokenOnStep(k: Client, e: Event)
    requires MainOk(k) && Can(k, e) && TokenTalks(k)
    ensures TokenTalks(Do(k, e))
  {
    match e
    case Session(_) =>
    case Handler(h) => TokenOnHandler(k, h);
    case Link(_) =>
    case OfReader(_, _) =>
  }

  lemma GreetedOnSession(k: Client, e: SessionEvent)
    requires CanSession(k, e) && Greeted(k)
    ensures Greeted(DoSession(k, e))
  {
  }

  lemma GreetedOnHandler(k: Client, e: HandlerEvent)
    requires CanHandler(k, e) && Greeted(k)
    ensures Greeted(DoHandler(k, e))
  {
  }

  lemma GreetedOnLink(k: Client, e: LinkEvent)
    requires CanLink(k, e) && Greeted(k) && TokenWhole(k)
    ensures Greeted(DoLink(k, e))
  {
    if e.WriteMessage? {} else {}
  }

  lemma GreetedOnStep(k: Client, e: Event)
    requires TokenWhole(k) && Can(k, e) && Greeted(k)
    ensures Greeted(Do(k, e))
  {
    match e
    case Session(s) => GreetedOnSession(k, s);
    case Handler(h) => GreetedOnHandler(k, h);
    case Link(l) => GreetedOnLink(k, l);
    case OfReader(_, _) =>
  }

  lemma RxOnStep(k: Client, e: Event, ws: R.Ws)
    requires Can(k, e) && Greeted(k) && RxGreeted(k, ws)
    ensures RxGreeted(Do(k, e), ws)
  {
    if ws in k.rx { RxChange(k, e, ws); } else { NewRx(k, e, ws); }
  }

  lemma NewRx(k: Client, e: Event, ws: R.Ws)
    requires Can(k, e) && ws !in k.rx && Greeted(k)
    ensures ws in Do(k, e).rx ==> Do(k, e).rx[ws] == []
  {
    match e
    case Session(_) =>
    case Handler(_) =>
    case Link(_) =>
    case OfReader(_, _) =>
  }

  /** The goroutine of `Start` only begins to register on a WebSocket that is new. */
  lemma RegisteringOnStep(k: Client, e: Event)
    requires MainOk(k) && Can(k, e)
    ensures Do(k, e).main.Registering? && !(e.Session? && e.session.Connect?) ==>
              k.main.Registering? && Do(k, e).session == k.session
    ensures k.main.Registering? && e.Link? && e.link.WriteMessage? && k.token.value.who == ByMain ==>
              !Do(k, e).main.Registering?
  {
    match e
    case Session(_) =>
    case Handler(_) =>
    case Link(_) =>
    case OfReader(_, _) =>
  }

  /** Only a write adds to a log, and it adds the frame that was being written. */
  lemma LogOnStep(k: Client, e: Event, ws: R.Ws)
    requires MainOk(k) && TokenWhole(k) && WsOk(k, ws) && Can(k, e) && ws in Do(k, e).tx
    ensures ws !in k.tx ==> Do(k, e).tx[ws].log == []
    ensures ws in k.tx && Do(k, e).tx[ws].log != k.tx[ws].log ==>
              && e == Link(WriteMessage(true)) && k.token.Some? && k.token.value.ws == ws
              && Do(k, e).tx[ws].log == k.tx[ws].log + [k.token.value.frame]
  {
    match e
    case Session(s) => WsOnSession(k, s, ws);
    case Handler(h) => WsOnHandler(k, h, ws);
    case Link(WriteMessage(ok)) => WsOnLink(k, e.link, ws); if ws in k.tx { OnWrite(k, ok, ws); }
    case Link(l) => WsOnLink(k, l, ws);
    case OfReader(at, r) => WsOnReader(k, at, r, ws);
  }

  lemma LogTalksOnStep(k: Client, e: Event, ws: R.Ws)
    requires MainOk(k) && TokenWhole(k) && WsOk(k, ws) && Can(k, e) && TokenTalks(k) && LogTalks(k, ws)
    ensures LogTalks(Do(k, e), ws)
  {
    var k' := Do(k, e);
    if ws in k'.tx {
      LogOnStep(k, e, ws);
      RegisteringOnStep(k, e);
      if ws in k.tx && e.Session? && e.session.Connect? { assert e.session.ws != ws; }
      if ws in k.tx && k'.tx[ws].log != k.tx[ws].log { LogTalksOn(k, k', ws, k.token.value.frame); }
    }
  }

  lemma LogTalksOn(k: Client, k': Client, ws: R.Ws, frame: Frame)
    requires ws in k.tx && ws in k'.tx && LogTalks(k, ws) && ClientSays(frame)
    requires k'.tx[ws].log == k.tx[ws].log + [frame]
    requires IsRegister(frame) ==> k.main.Registering? && k.session == Some(ws) && !k'.main.Registering?
    requires k'.main.Registering? && k'.session == Some(ws) ==> k.main.Registering? && k.session == Some(ws)
    ensures LogTalks(k', ws)
  {
  }

  lemma StepTalks(k: Client, e: Event)
    requires Inv(k) && Talks(k) && Can(k, e)
    ensures Talks(Do(k, e))
  {
    TokenOnStep(k, e);
    GreetedOnStep(k, e);
    forall ws ensures LogTalks(Do(k, e), ws) {
      assert LogTalks(k, ws) && WsOk(k, ws);
      LogTalksOnStep(k, e, ws);
    }
    forall ws ensures RxGreeted(Do(k, e), ws) {
      assert RxGreeted(k, ws);
      RxOnStep(k, e, ws);
    }
  }

  // ---- When the client crashes ---------------------------------------------------------

  ghost predicate Allowed(k: Client, events: seq<Event>)
    decreases |events|
  {
    events == [] || (Can(k, events[0]) && Allowed(Do(k, events[0]), events[1..]))
  }

  ghost function After(k: Client, events: seq<Event>): Client
    requires Allowed(k, events)
    decreases |events|
  {
    if events == [] then k else After(Do(k, events[0]), events[1..])
  }

  /** The connection is there whenever the goroutine of `Start` may use it. */
  predicate Online(k: Client) {
    && !k.main.Crashed? && (!k.main.Head? && !k.main.Over? ==> k.conn.Some?)
    && (k.token.Some? && k.token.value.who == ByMain ==> k.main.Registering? || k.main.DialFailed? || k.main.Missing?)
  }

  lemma OnlineOnLink(k: Client, e: LinkEvent)
    requires Online(k) && CanLink(k, e) && e != DropConn
    ensures Online(DoLink(k, e))
  {
    if e.WriteMessage? {} else {}
  }

  lemma OnlineOnHandler(k: Client, e: HandlerEvent)
    requires Online(k) && CanHandler(k, e)
    ensures Online(DoHandler(k, e))
  {
  }

  lemma OnlineOnStep(k: Client, e: Event)
    requires Online(k) && Can(k, e) && e != Link(DropConn)
    ensures Online(Do(k, e))
  {
    match e
    case Session(_) =>
    case Handler(h) => OnlineOnHandler(k, h);
    case Link(l) => OnlineOnLink(k, l);
    case OfReader(_, _) =>
  }

  /** Unless the heartbeat or `Stop` closes the connection, no run of a client crashes ... */
  lemma {:induction false} CrashesOnlyAfterDrop(k: Client, events: seq<Event>)
    requires Online(k) && Allowed(k, events) && Link(DropConn) !in events
    ensures !After(k, events).main.Crashed? && Online(NewClient())
    decreases |events|
  {
    if events != [] {
      assert events[0] in events;
      OnlineOnStep(k, events[0]);
      CrashesOnlyAfterDrop(Do(k, events[0]), events[1..]);
    }
  }

  /** ... and when one of them does while the client waits for a message, the next read may. */
  lemma DropMayCrash(k: Client)
    requires k.main.AwaitingReply? || k.main.Serving?
    ensures Allowed(k, [Link(DropConn), Session(Crash)])
    ensures After(k, [Link(DropConn), Session(Crash)]).main.Crashed?
  {
    var dropped := Do(k, Link(DropConn));
    assert [Link(DropConn), Session(Crash)][1..] == [Session(Crash)];
    assert [Session(Crash)][1..] == [];
    assert Allowed(Do(dropped, Session(Crash)), []);
    assert Allowed(dropped, [Session(Crash)]);
  }
}
