/**
 One client (internal/client/client.go) as a state machine: the goroutine of `Start`, one
 reader per local connection, the heartbeat and `Stop`, each advancing one atomic step at a
 time. A reader belongs to the client and not to a session: after a reconnect it goes on
 sending on whatever WebSocket is current.
 */
module Clients {
  import opened Wrappers
  import opened Registries
  import opened Frames

  /** Where the goroutine of `Start` is. */
  datatype MainLoop =
    | Head                          // about to connect, or sleeping before a retry
    | Registering                   // connected, about to send `register`
    | AwaitingReply                 // in the read that should return `assigned`
    | Serving                       // in run(), reading the next message
    | Got(frame: Frame)             // handleMessage
    | DialFailed(id: ConnId)        // about to report the failed dial
    | Dialed(id: ConnId)            // about to add the connection to `localConns`
    | Starting(id: ConnId)          // about to start its reader
    | Found(id: ConnId, data: Bytes)// handleData: about to write to the local connection
    | Missing(id: ConnId)           // handleData: no such connection, about to report it
    | WriteFailed(id: ConnId)       // about to close the local connection
    | CleaningUp                    // run() has returned
    | Over                          // Start has returned
    | Crashed                       // read through a nil connection

  datatype Reader =
    | NotStarted
    | Reading
    | Holding(data: Bytes)          // read these bytes, about to send them
    | Sending(data: Bytes)          // in WriteMessage
    | Ending                        // deferred: about to close the local connection
    | Reporting                     // deferred: about to send conn_close
    | SendingClose
    | Gone

  /** `home` is the WebSocket whose conn_open created the connection. */
  datatype Local = Local(home: Ws, open: bool, broken: bool, read: Bytes, written: Bytes, reader: Reader)

  datatype Sender = ByMain | ByReader(id: ConnId) | ByHeartbeat

  /** The holder of `connMu`, and the connection it picked before releasing `mu`. */
  datatype Token = Token(who: Sender, ws: Ws, frame: Frame)

  /** What was written to a WebSocket; after a failed write or a close nothing more is. */
  datatype Outgoing = Outgoing(log: seq<Frame>, down: bool)

  /**
   `session` is the WebSocket connected last. `heard`, `known`, `undelivered`, `closes` and `refused`
   are histories: the identifiers any message was received for, those a conn_open was handled for,
   the data messages that found no
   local connection, the calls of sendConnClose, and the dials that failed and were reported.
   */
  datatype Client = Client(
    session: Option<Ws>, conn: Option<Ws>, main: MainLoop, stopping: bool,
    localConns: set<ConnId>, locals: map<ConnId, Local>,
    token: Option<Token>, tx: map<Ws, Outgoing>, rx: map<Ws, seq<Frame>>,
    heard: set<ConnId>, known: set<ConnId>, undelivered: multiset<ConnId>, closes: multiset<ConnId>,
    refused: set<ConnId>)

  function NewClient(): Client {
    Client(None, None, Head, false, {}, map[], None, map[], map[], {}, {}, multiset{}, multiset{}, {})
  }

  /** The goroutine of `Start`: its sessions ... */
  datatype SessionEvent =
    | Connect(ws: Ws)
    | Quit
    | Receive(frame: Frame)
    | ReceiveFails
    | Crash

  /** ... and what it does with one message. */
  datatype HandlerEvent =
    | Dial(ok: bool)
    | ListLocal
    | StartReader
    | Lookup
    | WriteLocal(n: nat, ok: bool)
    | CloseLocal
    | Ignore
    | CleanUp

  /** The WebSocket: sending takes `connMu` and picks the connection first, and writes later. */
  datatype LinkEvent =
    | MainSend(request: Control)
    | WriteMessage(ok: bool)
    | HeartbeatSend
    | DropConn                       // closeConn by the heartbeat goroutine, or by Stop
    | StopRequest

  /** The reader of one local connection. */
  datatype ReaderEvent =
    | LocalRead(data: Bytes)
    | LocalReadFails
    | Send
    | CloseOwn
    | Report

  datatype Event =
    | Session(session: SessionEvent)
    | Handler(handler: HandlerEvent)
    | Link(link: LinkEvent)
    | OfReader(id: ConnId, reader: ReaderEvent)

  predicate CanSession(k: Client, e: SessionEvent) {
    match e
    case Connect(ws) => k.main == Head && ws !in k.tx && ws !in k.rx
    case Quit => k.main == Head && k.stopping
    case Receive(_) => (k.main == AwaitingReply || k.main == Serving) && k.session.Some? && k.session.value in k.rx
    case ReceiveFails => k.main == AwaitingReply || k.main == Serving
    case Crash => (k.main == AwaitingReply || k.main == Serving) && k.conn.None?
  }

  predicate CanHandler(k: Client, e: HandlerEvent) {
    match e
    case Dial(_) => k.main.Got? && k.main.frame.Open? && k.session.Some?
    case ListLocal => k.main.Dialed?
    case StartReader => k.main.Starting? && k.main.id in k.locals
    case Lookup => k.main.Got? && k.main.frame.Data?
    case WriteLocal(n, ok) =>
      && k.main.Found? && k.main.id in k.locals && n <= |k.main.data|
      && (ok ==> n == |k.main.data| && k.locals[k.main.id].open && !k.locals[k.main.id].broken)
      && (!k.locals[k.main.id].open || k.locals[k.main.id].broken ==> n == 0)
    case CloseLocal => k.main.WriteFailed? || (k.main.Got? && k.main.frame.Close?)
    case Ignore => k.main.Got? && k.main.frame.Other?
    case CleanUp => k.main == CleaningUp
  }

  predicate CanLink(k: Client, e: LinkEvent) {
    match e
    case MainSend(request) => k.token.None? && MainFrame(k.main, request).Some?
    case WriteMessage(ok) =>
      k.token.Some? && k.token.value.ws in k.tx && (ok ==> !k.tx[k.token.value.ws].down)
    case HeartbeatSend => k.token.None? && k.conn.Some?
    case DropConn => true
    case StopRequest => true
  }

  predicate CanReader(k: Client, id: ConnId, e: ReaderEvent) {
    && id in k.locals
    && var l := k.locals[id];
       match e
       case LocalRead(_) => l.reader == Reading && l.open
       case LocalReadFails => l.reader == Reading
       case Send => k.token.None? && l.reader.Holding?
       case CloseOwn => l.reader == Ending
       case Report => k.token.None? && l.reader == Reporting
  }

  predicate Can(k: Client, e: Event) {
    && !k.main.Crashed?
    && match e
       case Session(s) => CanSession(k, s)
       case Handler(h) => CanHandler(k, h)
       case Link(l) => CanLink(k, l)
       case OfReader(id, r) => CanReader(k, id, r)
  }

  /** The frame the goroutine of `Start` is about to send. */
  function MainFrame(main: MainLoop, request: Control): Option<Frame> {
    match main
    case Registering => if request.Register? then Some(Other(request)) else None
    case DialFailed(id) => Some(Close(id, false))
    case Missing(id) => Some(Close(id, false))
    case _ => None
  }

  function SetLocal(k: Client, id: ConnId, l: Local): Client { k.(locals := k.locals[id := l]) }

  /** What closing the current WebSocket does to the outgoing streams. */
  function Downed(tx: map<Ws, Outgoing>, conn: Option<Ws>): map<Ws, Outgoing> {
    if conn.Some? && conn.value in tx then tx[conn.value := tx[conn.value].(down := true)] else tx
  }

  /** closeConn: closes the current WebSocket, if there is one, and forgets it. */
  function Drop(k: Client, main: MainLoop): Client { k.(conn := None, tx := Downed(k.tx, k.conn), main := main) }

  /** closeLocalConn closes a connection only while it is listed. */
  function ClosedIn(locals: map<ConnId, Local>, listed: set<ConnId>, id: ConnId): map<ConnId, Local> {
    if id in listed && id in locals then locals[id := locals[id].(open := false)] else locals
  }

  function AllClosed(locals: map<ConnId, Local>, listed: set<ConnId>): map<ConnId, Local> {
    map id | id in locals :: if id in listed then locals[id].(open := false) else locals[id]
  }

  function DoSession(k: Client, e: SessionEvent): Client
    requires CanSession(k, e)
  {
    match e
    case Connect(ws) =>
      k.(session := Some(ws), conn := Some(ws), main := Registering,
         tx := k.tx[ws := Outgoing([], false)], rx := k.rx[ws := []])
    case Quit => k.(main := Over)
    case Receive(frame) =>
      var rx := k.rx[k.session.value := k.rx[k.session.value] + [frame]];
      var heard := if frame.Other? then k.heard else k.heard + {frame.id};
      if k.main == Serving then
        k.(rx := rx, heard := heard, main := Got(frame), known := if frame.Open? then k.known + {frame.id} else k.known)
      else if frame.Other? && frame.control.Assigned? then k.(rx := rx, heard := heard, main := Serving)
      else k.(rx := rx, heard := heard, conn := None, tx := Downed(k.tx, k.conn), main := Head)
    case ReceiveFails => if k.main == Serving then k.(main := CleaningUp) else Drop(k, Head)
    case Crash => k.(main := Crashed)
  }

  function DoHandler(k: Client, e: HandlerEvent): Client
    requires CanHandler(k, e)
  {
    match e
    case Dial(ok) =>
      var id := k.main.frame.id;
      if ok then
        k.(locals := k.locals[id := Local(k.session.value, true, false, [], [], NotStarted)], main := Dialed(id))
      else k.(main := DialFailed(id))
    case ListLocal => k.(localConns := k.localConns + {k.main.id}, main := Starting(k.main.id))
    case StartReader =>
      k.(locals := k.locals[k.main.id := k.locals[k.main.id].(reader := Reading)], main := Serving)
    case Lookup =>
      var id := k.main.frame.id;
      if id in k.localConns then k.(main := Found(id, k.main.frame.data))
      else k.(main := Missing(id), undelivered := k.undelivered + multiset{id})
    case WriteLocal(n, ok) =>
      var l := k.locals[k.main.id];
      k.(locals := k.locals[k.main.id := l.(written := l.written + k.main.data[..n], broken := l.broken || !ok)],
         main := if ok then Serving else WriteFailed(k.main.id))
    case CloseLocal =>
      var id := if k.main.WriteFailed? then k.main.id else k.main.frame.id;
      k.(locals := ClosedIn(k.locals, k.localConns, id), localConns := k.localConns - {id}, main := Serving)
    case Ignore => k.(main := Serving)
    case CleanUp =>
      k.(locals := AllClosed(k.locals, k.localConns), localConns := {},
         conn := None, tx := Downed(k.tx, k.conn), main := Head)
  }

  /** What the goroutine of `Start` does once its write has returned. */
  function MainResumes(k: Client, ok: bool): Client {
    if !k.main.Registering? then k.(main := Serving)
    else if ok then k.(main := AwaitingReply)
    else Drop(k, Head)
  }

  function ReaderResumes(reader: Reader, ok: bool): Reader {
    if reader.SendingClose? then Gone else if ok then Reading else Ending
  }

  function DoLink(k: Client, e: LinkEvent): Client
    requires CanLink(k, e)
  {
    match e
    case MainSend(request) =>
      var frame := MainFrame(k.main, request).value;
      var closes := if frame.Close? then k.closes + multiset{frame.id} else k.closes;
      var refused := if k.main.DialFailed? then k.refused + {k.main.id} else k.refused;
      if k.conn.Some? then
        k.(token := Some(Token(ByMain, k.conn.value, frame)), closes := closes, refused := refused)
      else
        k.(main := if k.main.Registering? then Head else Serving, closes := closes, refused := refused)
    case WriteMessage(ok) =>
      var t := k.token.value;
      var out := k.tx[t.ws];
      var tx := k.tx[t.ws := if ok then out.(log := out.log + [t.frame]) else out.(down := true)];
      (match t.who
       case ByHeartbeat => k.(token := None, tx := tx)
       case ByMain => MainResumes(k.(token := None, tx := tx), ok)
       case ByReader(id) =>
         if id in k.locals
         then k.(token := None, tx := tx,
                 locals := k.locals[id := k.locals[id].(reader := ReaderResumes(k.locals[id].reader, ok))])
         else k.(token := None, tx := tx))
    case HeartbeatSend => k.(token := Some(Token(ByHeartbeat, k.conn.value, Other(Heartbeat))))
    case DropConn => Drop(k, k.main)
    case StopRequest => k.(stopping := true)
  }

  function DoReader(k: Client, id: ConnId, e: ReaderEvent): Client
    requires CanReader(k, id, e)
  {
    var l := k.locals[id];
    match e
    case LocalRead(data) => SetLocal(k, id, l.(read := l.read + data, reader := Holding(data)))
    case LocalReadFails => SetLocal(k, id, l.(reader := Ending))
    case Send =>
      if k.conn.None? then SetLocal(k, id, l.(reader := Ending))
      else k.(locals := k.locals[id := l.(reader := Sending(l.reader.data))],
              token := Some(Token(ByReader(id), k.conn.value, Data(id, l.reader.data))))
    case CloseOwn =>
      k.(locals := k.locals[id := l.(reader := Reporting, open := l.open && id !in k.localConns)],
         localConns := k.localConns - {id})
    case Report =>
      if k.conn.None? then
        k.(locals := k.locals[id := l.(reader := Gone)], closes := k.closes + multiset{id})
      else
        k.(locals := k.locals[id := l.(reader := SendingClose)], closes := k.closes + multiset{id},
           token := Some(Token(ByReader(id), k.conn.value, Close(id, true))))
  }

  function Do(k: Client, e: Event): Client
    requires Can(k, e)
  {
    match e
    case Session(s) => DoSession(k, s)
    case Handler(h) => DoHandler(k, h)
    case Link(l) => DoLink(k, l)
    case OfReader(id, r) => DoReader(k, id, r)
  }

  // ---- The invariant -------------------------------------------------------------------

  /** Bytes handed to `handleData` and not yet written. */
  function InHand(main: MainLoop, id: ConnId): Bytes {
    match main
    case Got(frame) => if frame.Data? && frame.id == id then frame.data else []
    case Found(i, data) => if i == id then data else []
    case _ => []
  }

  /** Bytes read from the local connection and not yet sent. */
  function Held(reader: Reader): Bytes {
    match reader
    case Holding(data) => data
    case Sending(data) => data
    case _ => []
  }

  /**
   Towards the local service: `got` is what arrived for the connection. While it is listed and
   unbroken, what was written and what is in hand make up `got`; afterwards the written bytes
   stay a prefix of it.
   */
  predicate DownRel(l: Local, listed: bool, main: MainLoop, session: Option<Ws>, id: ConnId, got: Bytes) {
    && l.written <= got
    && (listed && !l.broken ==> l.written + InHand(main, id) == got)
    && (listed ==> l.open && main != Dialed(id))
    && (!listed && main != Dialed(id) ==> !l.open)
    && (listed && l.broken ==> main == WriteFailed(id))
    && (main == Dialed(id) ==> got == [] && l.written == [] && l.open && !l.broken)
    && (main == Dialed(id) || main == Starting(id) <==> l.reader.NotStarted?)
    && (InHand(main, id) != [] || main == Dialed(id) ==> session == Some(l.home))
  }

  predicate DownOk(k: Client, id: ConnId)
    requires id in k.locals
  {
    var l := k.locals[id];
    l.home in k.rx && DownRel(l, id in k.localConns, k.main, k.session, id, Payload(Only(k.rx[l.home], id)))
  }

  /**
   Towards the server: `sent` is what was written to the home WebSocket. Until that goes down,
   what was sent and what the reader holds make up what it read; `ended` is set once the end
   of the stream was reported there.
   */
  predicate UpRel(l: Local, down: bool, sent: Bytes, ended: bool) {
    && sent <= l.read
    && (!down ==> sent + Held(l.reader) == l.read)
    && (ended ==> l.reader.Gone?)
  }

  /** The report of the end follows everything that was read. */
  predicate EndsLast(log: seq<Frame>, id: ConnId, read: Bytes) {
    forall i :: 0 <= i < |log| && log[i] == Close(id, true) ==> Payload(Only(log[..i], id)) == read
  }

  predicate UpOk(k: Client, id: ConnId)
    requires id in k.locals
  {
    var l := k.locals[id];
    l.home in k.tx &&
    var out := k.tx[l.home];
    UpRel(l, out.down, Payload(Only(out.log, id)), Close(id, true) in out.log) && EndsLast(out.log, id, l.read)
  }

  /** A reader that is sending holds `connMu`, and sends on its home WebSocket unless that is down. */
  predicate TokenRel(l: Local, id: ConnId, token: Option<Token>, homeDown: bool) {
    && (l.reader.Sending? ==>
         token.Some? && token.value.who == ByReader(id) && token.value.frame == Data(id, l.reader.data))
    && (l.reader.SendingClose? ==>
         token.Some? && token.value.who == ByReader(id) && token.value.frame == Close(id, true))
    && (l.reader.Sending? || l.reader.SendingClose? ==> token.value.ws == l.home || homeDown)
  }

  predicate TokenOk(k: Client, id: ConnId)
    requires id in k.locals
  {
    k.locals[id].home in k.tx && TokenRel(k.locals[id], id, k.token, k.tx[k.locals[id].home].down)
  }

  /** Nothing was ever read for `id`: no data and no end of stream was sent for it. */
  predicate SilentOn(log: seq<Frame>, id: ConnId) {
    Payload(Only(log, id)) == [] && Close(id, true) !in log
  }

  predicate WsOk(k: Client, ws: Ws) {
    && (ws in k.tx <==> ws in k.rx)
    && (ws in k.tx && k.conn != Some(ws) ==> k.tx[ws].down)
  }

  predicate Spent(k: Client, id: ConnId) {
    id in k.locals && (k.locals[id].reader.SendingClose? || k.locals[id].reader.Gone?)
  }

  predicate AboutToReport(k: Client, id: ConnId) {
    k.main == Missing(id) && !(k.token.Some? && k.token.value.who == ByMain)
  }

  /** The calls of sendConnClose balance: one per undeliverable message, one per dial or reader that ended. */
  predicate Balanced(k: Client, id: ConnId) {
    k.closes[id] + (if AboutToReport(k, id) then 1 else 0)
    == k.undelivered[id] + (if id in k.refused then 1 else 0) + (if Spent(k, id) then 1 else 0)
  }

  predicate TokenWhole(k: Client) {
    k.token.Some? ==>
      && k.token.value.ws in k.tx
      && match k.token.value.who
         case ByHeartbeat => k.token.value.frame.Other?
         case ByMain =>
           || (k.main.Registering? && k.token.value.frame.Other?)
           || (k.main.DialFailed? && k.token.value.frame == Close(k.main.id, false))
           || (k.main.Missing? && k.token.value.frame == Close(k.main.id, false))
         case ByReader(id) =>
           && id in k.locals
           && (|| (k.locals[id].reader.Sending? && k.token.value.frame == Data(id, k.locals[id].reader.data))
               || (k.locals[id].reader.SendingClose? && k.token.value.frame == Close(id, true)))
  }

  predicate MainOk(k: Client) {
    && (k.conn.Some? ==> k.conn == k.session && k.conn.value in k.tx)
    && (k.main == Head || k.main == Over ==> k.conn.None?)
    && (k.main == Head || k.main == Over || k.main == Registering || k.main == AwaitingReply ==> k.localConns == {})
    && (k.main != Head && k.main != Over && k.main != Crashed ==>
         k.session.Some? && k.session.value in k.tx && k.session.value in k.rx)
    && (k.main.Got? && k.main.frame.Open? ==>
          && k.main.frame.id !in k.locals && k.main.frame.id !in k.refused && k.main.frame.id in k.known)
    && (k.main.DialFailed? ==>
          k.main.id !in k.locals && k.main.id in k.known
          && (k.main.id in k.refused <==> k.token.Some? && k.token.value.who == ByMain))
    && (k.main.Dialed? || k.main.Starting? || k.main.Found? || k.main.WriteFailed? ==> k.main.id in k.locals)
    && (k.main.Dialed? || k.main.Starting? ==> k.locals[k.main.id].reader.NotStarted?)
    && (k.main.Got? && k.main.frame.Data? && k.main.frame.id in k.locals ==>
          k.session == Some(k.locals[k.main.frame.id].home))
  }

  /** Everything the invariant says about one local connection. */
  predicate LocalOk(k: Client, id: ConnId) {
    id in k.locals && DownOk(k, id) && UpOk(k, id) && TokenOk(k, id) && WsOk(k, k.locals[id].home)
  }

  predicate SetsOk(k: Client) {
    && k.localConns <= k.locals.Keys <= k.known && k.refused <= k.known && k.refused !! k.locals.Keys
  }

  /** The identifier the main goroutine is busy with. */
  function MainId(main: MainLoop): Option<ConnId> {
    match main
    case Got(frame) => if frame.Other? then None else Some(frame.id)
    case DialFailed(id) => Some(id)
    case Dialed(id) => Some(id)
    case Starting(id) => Some(id)
    case Found(id, _) => Some(id)
    case Missing(id) => Some(id)
    case WriteFailed(id) => Some(id)
    case _ => None
  }

  predicate HeardOk(k: Client) {
    && k.known <= k.heard
    && (MainId(k.main).Some? ==> MainId(k.main).value in k.heard)
    && (k.token.Some? && !k.token.value.frame.Other? ==> k.token.value.frame.id in k.heard)
  }

  /** The client only speaks of identifiers it heard of. */
  ghost predicate SpeaksOf(k: Client) {
    forall ws, f :: ws in k.tx && f in k.tx[ws].log && !f.Other? ==> f.id in k.heard
  }

  /**
   The message being handled is the last one received, and nothing else has arrived yet for a
   connection that is about to be dialed.
   */
  predicate FreshOpen(k: Client) {
    && (k.main.Got? ==>
          && k.session.Some? && k.session.value in k.rx && |k.rx[k.session.value]| > 0
          && k.rx[k.session.value][|k.rx[k.session.value]| - 1] == k.main.frame)
    && (k.main.Got? && k.main.frame.Open? ==>
      k.session.Some? && k.session.value in k.rx && Payload(Only(k.rx[k.session.value], k.main.frame.id)) == [])
  }

  ghost predicate Inv(k: Client) {
    && MainOk(k) && TokenWhole(k) && FreshOpen(k) && HeardOk(k) && SpeaksOf(k)
    && (forall ws :: WsOk(k, ws))
    && SetsOk(k)
    && (forall id :: id in k.locals ==> LocalOk(k, id))
    && (forall id, ws :: id !in k.locals && ws in k.tx ==> SilentOn(k.tx[ws].log, id))
    && (forall id :: Balanced(k, id))
  }

  /**
   What the client relies on in the messages it receives: an identifier is known once, before
   any data for it, and everything about it arrives on the WebSocket it was known on.
   */
  predicate Expects(k: Client, frame: Frame) {
    k.session.Some? && k.session.value in k.rx
    && (frame.Open? ==> frame.id !in k.known && Payload(Only(k.rx[k.session.value], frame.id)) == [])
    && (!frame.Other? && frame.id in k.locals ==> k.locals[frame.id].home == k.session.value)
  }

  predicate Served(k: Client, e: Event) { e.Session? && e.session.Receive? ==> Expects(k, e.session.frame) }

  // ---- Every step keeps it -------------------------------------------------------------

  /** The part of `MainOk` that handling one message needs. */
  predicate HandlerReady(k: Client) {
    && (k.main.Got? && k.main.frame.Open? ==> k.main.frame.id !in k.locals)
    && (k.main.Dialed? || k.main.Starting? ==> k.main.id in k.locals && k.locals[k.main.id].reader.NotStarted?)
    && (k.main.Got? && k.main.frame.Data? && k.main.frame.id in k.locals ==>
          k.session == Some(k.locals[k.main.frame.id].home))
    && (k.conn.Some? ==> k.conn.value in k.tx)
  }

  lemma DownOnSession(k: Client, e: SessionEvent, id: ConnId, got: Bytes)
    requires MainOk(k) && CanSession(k, e) && !e.Receive? && id in k.locals
    requires DownRel(k.locals[id], id in k.localConns, k.main, k.session, id, got)
    ensures var k' := DoSession(k, e); DownRel(k'.locals[id], id in k'.localConns, k'.main, k'.session, id, got)
  {
  }

  lemma DownOnReceive(k: Client, frame: Frame, id: ConnId, got: Bytes, got': Bytes)
    requires MainOk(k) && CanSession(k, Receive(frame)) && id in k.locals && Expects(k, frame)
    requires DownRel(k.locals[id], id in k.localConns, k.main, k.session, id, got)
    requires got' == got + if frame.Data? && frame.id == id then frame.data else []
    ensures var k' := DoSession(k, Receive(frame));
            DownRel(k'.locals[id], id in k'.localConns, k'.main, k'.session, id, got')
  {
  }

  lemma DownOnWrite(k: Client, n: nat, ok: bool, id: ConnId, got: Bytes)
    requires CanHandler(k, WriteLocal(n, ok)) && id in k.locals
    requires DownRel(k.locals[id], id in k.localConns, k.main, k.session, id, got)
    ensures var k' := DoHandler(k, WriteLocal(n, ok));
            DownRel(k'.locals[id], id in k'.localConns, k'.main, k'.session, id, got)
  {
    assert k.main.data == k.main.data[..n] + k.main.data[n..];
    assert ok ==> k.main.data[..n] == k.main.data;
  }

  lemma DownOnHandler(k: Client, e: HandlerEvent, id: ConnId, got: Bytes)
    requires HandlerReady(k) && CanHandler(k, e) && !e.WriteLocal? && id in k.locals
    requires DownRel(k.locals[id], id in k.localConns, k.main, k.session, id, got)
    ensures var k' := DoHandler(k, e); DownRel(k'.locals[id], id in k'.localConns, k'.main, k'.session, id, got)
  {
    if e.Dial? || e.ListLocal? || e.StartReader? {} else {}
  }

  lemma DownOnLink(k: Client, e: LinkEvent, id: ConnId, got: Bytes)
    requires MainOk(k) && TokenWhole(k) && CanLink(k, e) && id in k.locals
    requires DownRel(k.locals[id], id in k.localConns, k.main, k.session, id, got)
    ensures var k' := DoLink(k, e); DownRel(k'.locals[id], id in k'.localConns, k'.main, k'.session, id, got)
  {
    if e.WriteMessage? {} else if e.MainSend? {} else {}
  }

  lemma DownOnReader(k: Client, at: ConnId, e: ReaderEvent, id: ConnId, got: Bytes)
    requires MainOk(k) && CanReader(k, at, e) && id in k.locals
    requires DownRel(k.locals[id], id in k.localConns, k.main, k.session, id, got)
    ensures var k' := DoReader(k, at, e); DownRel(k'.locals[id], id in k'.localConns, k'.main, k'.session, id, got)
  {
  }

  // ---- Towards the server --------------------------------------------------------------

  /** The reader's part of the invariant, for given histories. */
  predicate ReaderOk(k: Client, id: ConnId, sent: Bytes, ended: bool)
    requires id in k.locals
  {
    && k.locals[id].home in k.tx
    && UpRel(k.locals[id], k.tx[k.locals[id].home].down, sent, ended)
    && TokenRel(k.locals[id], id, k.token, k.tx[k.locals[id].home].down)
    && (k.conn != Some(k.locals[id].home) ==> k.tx[k.locals[id].home].down)
  }

  lemma UpOnSession(k: Client, e: SessionEvent, id: ConnId, sent: Bytes, ended: bool)
    requires CanSession(k, e) && id in k.locals && ReaderOk(k, id, sent, ended)
    requires k.main == Head ==> k.conn.None?
    ensures ReaderOk(DoSession(k, e), id, sent, ended)
  {
  }

  lemma UpOnHandler(k: Client, e: HandlerEvent, id: ConnId, sent: Bytes, ended: bool)
    requires HandlerReady(k) && CanHandler(k, e) && id in k.locals && ReaderOk(k, id, sent, ended)
    ensures ReaderOk(DoHandler(k, e), id, sent, ended)
  {
  }

  lemma UpOnReader(k: Client, at: ConnId, e: ReaderEvent, id: ConnId, sent: Bytes, ended: bool)
    requires CanReader(k, at, e) && id in k.locals && ReaderOk(k, id, sent, ended)
    ensures ReaderOk(DoReader(k, at, e), id, sent, ended)
  {
  }

  lemma UpOnLink(k: Client, e: LinkEvent, id: ConnId, sent: Bytes, ended: bool)
    requires MainOk(k) && TokenWhole(k) && CanLink(k, e) && !e.WriteMessage? && id in k.locals
             && ReaderOk(k, id, sent, ended)
    ensures ReaderOk(DoLink(k, e), id, sent, ended)
  {
  }

  /** A successful write of the reader's own data moves it from `held` to `sent`. */
  lemma UpOnWrite(k: Client, ok: bool, id: ConnId, sent: Bytes, ended: bool, sent': Bytes, ended': bool)
    requires MainOk(k) && TokenWhole(k) && CanLink(k, WriteMessage(ok)) && id in k.locals
             && ReaderOk(k, id, sent, ended)
    requires var t := k.token.value;
      var arrives := ok && t.ws == k.locals[id].home && About(t.frame, id);
      && sent' == sent + (if arrives && t.frame.Data? then t.frame.data else [])
      && ended' == (ended || (arrives && t.frame == Close(id, true)))
    ensures ReaderOk(DoLink(k, WriteMessage(ok)), id, sent', ended')
  {
  }
  // ---- The main goroutine, the links and the counts ------------------------------------

  /** A log either stays as it is or is new and empty. */
  predicate LogKept(k: Client, k': Client, ws: Ws) {
    ws in k'.tx ==> (if ws in k.tx then k'.tx[ws].log == k.tx[ws].log else k'.tx[ws].log == [])
  }

  lemma MainOnSession(k: Client, e: SessionEvent)
    requires MainOk(k) && TokenWhole(k) && SetsOk(k) && CanSession(k, e) && (e.Receive? ==> Expects(k, e.frame))
    ensures MainOk(DoSession(k, e))
  {
  }

  lemma SetsOnSession(k: Client, e: SessionEvent)
    requires MainOk(k) && TokenWhole(k) && SetsOk(k) && CanSession(k, e)
    ensures SetsOk(DoSession(k, e))
  {
  }

  lemma HeardOnSession(k: Client, e: SessionEvent)
    requires HeardOk(k) && SetsOk(k) && CanSession(k, e)
    ensures HeardOk(DoSession(k, e))
  {
  }

  lemma TokenOnSession(k: Client, e: SessionEvent)
    requires MainOk(k) && TokenWhole(k) && CanSession(k, e)
    ensures TokenWhole(DoSession(k, e))
  {
  }

  lemma WsOnSession(k: Client, e: SessionEvent, ws: Ws)
    requires WsOk(k, ws) && MainOk(k) && CanSession(k, e)
    ensures WsOk(DoSession(k, e), ws)
    ensures LogKept(k, DoSession(k, e), ws)
  {
  }

  lemma BalanceOnSession(k: Client, e: SessionEvent, id: ConnId)
    requires Balanced(k, id) && CanSession(k, e) && MainOk(k) && TokenWhole(k) && SetsOk(k)
    ensures Balanced(DoSession(k, e), id)
  {
  }

  lemma MainOnHandler(k: Client, e: HandlerEvent)
    requires MainOk(k) && TokenWhole(k) && SetsOk(k) && CanHandler(k, e)
    ensures MainOk(DoHandler(k, e))
  {
  }

  lemma SetsOnHandler(k: Client, e: HandlerEvent)
    requires MainOk(k) && TokenWhole(k) && SetsOk(k) && CanHandler(k, e)
    ensures SetsOk(DoHandler(k, e))
  {
  }

  lemma HeardOnHandler(k: Client, e: HandlerEvent)
    requires HeardOk(k) && SetsOk(k) && CanHandler(k, e)
    ensures HeardOk(DoHandler(k, e))
  {
  }

  lemma TokenOnHandler(k: Client, e: HandlerEvent)
    requires MainOk(k) && TokenWhole(k) && CanHandler(k, e)
    ensures TokenWhole(DoHandler(k, e))
  {
  }

  lemma WsOnHandler(k: Client, e: HandlerEvent, ws: Ws)
    requires WsOk(k, ws) && MainOk(k) && CanHandler(k, e)
    ensures WsOk(DoHandler(k, e), ws)
    ensures LogKept(k, DoHandler(k, e), ws)
  {
  }

  lemma BalanceOnLookup(k: Client, id: ConnId)
    requires Balanced(k, id) && CanHandler(k, Lookup)
    requires !(k.token.Some? && k.token.value.who == ByMain)
    ensures Balanced(DoHandler(k, Lookup), id)
  {
  }

  lemma BalanceOnHandler(k: Client, e: HandlerEvent, id: ConnId)
    requires Balanced(k, id) && CanHandler(k, e) && HandlerReady(k)
    requires k.token.Some? && k.token.value.who == ByMain ==>
               k.main.DialFailed? || k.main.Missing? || k.main.Registering?
    ensures Balanced(DoHandler(k, e), id)
  {
    if e.Lookup? { BalanceOnLookup(k, id); }
    else if e.Dial? || e.ListLocal? || e.StartReader? {} else {}
  }

  lemma MainOnLink(k: Client, e: LinkEvent)
    requires MainOk(k) && TokenWhole(k) && SetsOk(k) && CanLink(k, e)
    ensures MainOk(DoLink(k, e))
  {
    if e.WriteMessage? {} else {}
  }

  lemma SetsOnLink(k: Client, e: LinkEvent)
    requires MainOk(k) && TokenWhole(k) && SetsOk(k) && CanLink(k, e)
    ensures SetsOk(DoLink(k, e))
  {
  }

  lemma HeardOnLink(k: Client, e: LinkEvent)
    requires HeardOk(k) && CanLink(k, e)
    ensures HeardOk(DoLink(k, e))
  {
    if e.WriteMessage? {} else {}
  }

  lemma TokenOnLink(k: Client, e: LinkEvent)
    requires MainOk(k) && TokenWhole(k) && CanLink(k, e)
    ensures TokenWhole(DoLink(k, e))
  {
  }

  lemma WsOnLink(k: Client, e: LinkEvent, ws: Ws)
    requires WsOk(k, ws) && MainOk(k) && CanLink(k, e)
    ensures WsOk(DoLink(k, e), ws)
    ensures !e.WriteMessage? ==> LogKept(k, DoLink(k, e), ws)
  {
  }

  lemma BalanceOnLink(k: Client, e: LinkEvent, id: ConnId)
    requires Balanced(k, id) && CanLink(k, e) && TokenWhole(k) && !e.WriteMessage?
    requires k.main.DialFailed? && k.token.None? ==> k.main.id !in k.refused
    ensures Balanced(DoLink(k, e), id)
  {
    if e.MainSend? {} else {}
  }

  lemma BalanceOnWrite(k: Client, ok: bool, id: ConnId)
    requires Balanced(k, id) && CanLink(k, WriteMessage(ok)) && TokenWhole(k)
    ensures Balanced(DoLink(k, WriteMessage(ok)), id)
  {
  }

  lemma MainOnReader(k: Client, at: ConnId, e: ReaderEvent)
    requires MainOk(k) && TokenWhole(k) && SetsOk(k) && CanReader(k, at, e)
    ensures MainOk(DoReader(k, at, e))
  {
  }

  lemma SetsOnReader(k: Client, at: ConnId, e: ReaderEvent)
    requires MainOk(k) && TokenWhole(k) && SetsOk(k) && CanReader(k, at, e)
    ensures SetsOk(DoReader(k, at, e))
  {
  }

  lemma HeardOnReader(k: Client, at: ConnId, e: ReaderEvent)
    requires HeardOk(k) && SetsOk(k) && CanReader(k, at, e)
    ensures HeardOk(DoReader(k, at, e))
  {
  }

  lemma TokenOnReader(k: Client, at: ConnId, e: ReaderEvent)
    requires MainOk(k) && TokenWhole(k) && CanReader(k, at, e)
    ensures TokenWhole(DoReader(k, at, e))
  {
  }

  lemma WsOnReader(k: Client, at: ConnId, e: ReaderEvent, ws: Ws)
    requires WsOk(k, ws) && MainOk(k) && CanReader(k, at, e)
    ensures WsOk(DoReader(k, at, e), ws)
    ensures LogKept(k, DoReader(k, at, e), ws)
  {
  }

  lemma BalanceOnReader(k: Client, at: ConnId, e: ReaderEvent, id: ConnId)
    requires Balanced(k, id) && CanReader(k, at, e) && MainOk(k) && TokenWhole(k) && SetsOk(k)
    ensures Balanced(DoReader(k, at, e), id)
  {
  }

  // ---- One connection at a time --------------------------------------------------------

  /** The step leaves the connection's histories alone, unless its reader was just reading. */
  predicate Kept(k: Client, k': Client, id: ConnId) {
    && id in k.locals && id in k'.locals
    && var home := k.locals[id].home;
       && k'.locals[id].home == home && home in k.rx && home in k'.rx && k'.rx[home] == k.rx[home]
       && home in k.tx && home in k'.tx && k'.tx[home].log == k.tx[home].log
       && (k'.locals[id].read == k.locals[id].read || k.locals[id].reader == Reading)
  }

  lemma Transfer(k: Client, k': Client, id: ConnId)
    requires LocalOk(k, id) && Kept(k, k', id)
    requires DownRel(k'.locals[id], id in k'.localConns, k'.main, k'.session, id,
                     Payload(Only(k.rx[k.locals[id].home], id)))
    requires var log := k.tx[k.locals[id].home].log; ReaderOk(k', id, Payload(Only(log, id)), Close(id, true) in log)
    ensures LocalOk(k', id)
  {
  }

  lemma KeptOnSession(k: Client, e: SessionEvent, id: ConnId)
    requires CanSession(k, e) && !e.Receive? && id in k.locals && k.locals[id].home in k.rx
             && k.locals[id].home in k.tx && MainOk(k)
    ensures Kept(k, DoSession(k, e), id)
  {
  }

  lemma LocalOnSession(k: Client, e: SessionEvent, id: ConnId)
    requires CanSession(k, e) && !e.Receive? && LocalOk(k, id) && MainOk(k) && TokenWhole(k)
    ensures LocalOk(DoSession(k, e), id)
  {
    var l := k.locals[id];
    var got, sent := Payload(Only(k.rx[l.home], id)), Payload(Only(k.tx[l.home].log, id));
    var ended := Close(id, true) in k.tx[l.home].log;
    KeptOnSession(k, e, id);
    DownOnSession(k, e, id, got);
    UpOnSession(k, e, id, sent, ended);
    Transfer(k, DoSession(k, e), id);
  }

  lemma KeptOnHandler(k: Client, e: HandlerEvent, id: ConnId)
    requires CanHandler(k, e) && id in k.locals && k.locals[id].home in k.rx && k.locals[id].home in k.tx && MainOk(k)
    ensures Kept(k, DoHandler(k, e), id)
  {
  }

  lemma LocalOnHandler(k: Client, e: HandlerEvent, id: ConnId)
    requires CanHandler(k, e) && LocalOk(k, id) && MainOk(k) && TokenWhole(k)
    ensures LocalOk(DoHandler(k, e), id)
  {
    var l := k.locals[id];
    var got, sent := Payload(Only(k.rx[l.home], id)), Payload(Only(k.tx[l.home].log, id));
    var ended := Close(id, true) in k.tx[l.home].log;
    KeptOnHandler(k, e, id);
    if e.WriteLocal? { DownOnWrite(k, e.n, e.ok, id, got); } else { DownOnHandler(k, e, id, got); }
    UpOnHandler(k, e, id, sent, ended);
    Transfer(k, DoHandler(k, e), id);
  }

  lemma KeptOnLink(k: Client, e: LinkEvent, id: ConnId)
    requires CanLink(k, e) && !e.WriteMessage? && id in k.locals && k.locals[id].home in k.rx
             && k.locals[id].home in k.tx && MainOk(k)
    ensures Kept(k, DoLink(k, e), id)
  {
  }

  lemma LocalOnLink(k: Client, e: LinkEvent, id: ConnId)
    requires CanLink(k, e) && !e.WriteMessage? && LocalOk(k, id) && MainOk(k) && TokenWhole(k)
    ensures LocalOk(DoLink(k, e), id)
  {
    var l := k.locals[id];
    var got, sent := Payload(Only(k.rx[l.home], id)), Payload(Only(k.tx[l.home].log, id));
    var ended := Close(id, true) in k.tx[l.home].log;
    KeptOnLink(k, e, id);
    DownOnLink(k, e, id, got);
    UpOnLink(k, e, id, sent, ended);
    Transfer(k, DoLink(k, e), id);
  }

  lemma KeptOnReader(k: Client, at: ConnId, e: ReaderEvent, id: ConnId)
    requires CanReader(k, at, e) && id in k.locals && k.locals[id].home in k.rx && k.locals[id].home in k.tx
             && MainOk(k)
    ensures Kept(k, DoReader(k, at, e), id)
  {
  }

  lemma LocalOnReader(k: Client, at: ConnId, e: ReaderEvent, id: ConnId)
    requires CanReader(k, at, e) && LocalOk(k, id) && MainOk(k) && TokenWhole(k)
    ensures LocalOk(DoReader(k, at, e), id)
  {
    var l := k.locals[id];
    var got, sent := Payload(Only(k.rx[l.home], id)), Payload(Only(k.tx[l.home].log, id));
    var ended := Close(id, true) in k.tx[l.home].log;
    KeptOnReader(k, at, e, id);
    DownOnReader(k, at, e, id, got);
    UpOnReader(k, at, e, id, sent, ended);
    Transfer(k, DoReader(k, at, e), id);
  }

  lemma LocalOnDial(k: Client, id: ConnId)
    requires CanHandler(k, Dial(true)) && k.main.frame.id == id && MainOk(k) && FreshOpen(k)
    requires id !in k.localConns && SilentOn(k.tx[k.session.value].log, id) && WsOk(k, k.session.value)
    ensures LocalOk(DoHandler(k, Dial(true)), id)
  {
  }

  /** The same, put together from what the histories have become. */
  lemma Assemble(k': Client, id: ConnId, got: Bytes, sent: Bytes, ended: bool)
    requires id in k'.locals && k'.locals[id].home in k'.rx && k'.locals[id].home in k'.tx
    requires var home := k'.locals[id].home;
      && got == Payload(Only(k'.rx[home], id)) && sent == Payload(Only(k'.tx[home].log, id))
      && (ended <==> Close(id, true) in k'.tx[home].log) && EndsLast(k'.tx[home].log, id, k'.locals[id].read)
    requires DownRel(k'.locals[id], id in k'.localConns, k'.main, k'.session, id, got) && ReaderOk(k', id, sent, ended)
    ensures LocalOk(k', id)
  {
  }

  lemma PayloadGrows(log: seq<Frame>, f: Frame, id: ConnId)
    ensures Payload(Only(log + [f], id)) == Payload(Only(log, id)) + if About(f, id) && f.Data? then f.data else []
  {
    OnlyStep(log, f, id);
    if About(f, id) { PayloadStep(Only(log, id), f); } else { assert Only(log, id) + [] == Only(log, id); }
  }

  lemma OnReceive(k: Client, frame: Frame)
    requires CanSession(k, Receive(frame))
    ensures var k' := DoSession(k, Receive(frame)); var ws := k.session.value;
      && k'.locals == k.locals && k'.rx == k.rx[ws := k.rx[ws] + [frame]]
      && forall w :: w in k.tx ==> w in k'.tx && k'.tx[w].log == k.tx[w].log
  {
  }

  lemma LocalOnReceive(k: Client, frame: Frame, id: ConnId)
    requires CanSession(k, Receive(frame)) && Expects(k, frame) && LocalOk(k, id) && MainOk(k)
    ensures LocalOk(DoSession(k, Receive(frame)), id)
  {
    var k' := DoSession(k, Receive(frame));
    var home := k.locals[id].home;
    var got, sent := Payload(Only(k.rx[home], id)), Payload(Only(k.tx[home].log, id));
    var ended := Close(id, true) in k.tx[home].log;
    OnReceive(k, frame);
    PayloadGrows(k.rx[home], frame, id);
    DownOnReceive(k, frame, id, got, Payload(Only(k'.rx[home], id)));
    UpOnSession(k, Receive(frame), id, sent, ended);
    Assemble(k', id, Payload(Only(k'.rx[home], id)), sent, ended);
  }

  /** What one write adds to a log, as seen by one connection. */
  lemma LogGrows(log: seq<Frame>, f: Frame, id: ConnId, read: Bytes)
    requires EndsLast(log, id, read)
    requires f == Close(id, true) ==> Payload(Only(log, id)) == read
    ensures Close(id, true) in log + [f] <==> Close(id, true) in log || f == Close(id, true)
    ensures EndsLast(log + [f], id, read)
  {
    var log' := log + [f];
    forall i | 0 <= i < |log'| && log'[i] == Close(id, true) ensures Payload(Only(log'[..i], id)) == read {
      if i < |log| { assert log'[..i] == log[..i] && log[i] == Close(id, true); } else { assert log'[..i] == log; }
    }
  }

  lemma OnWrite(k: Client, ok: bool, ws: Ws)
    requires CanLink(k, WriteMessage(ok)) && TokenWhole(k) && ws in k.tx
    ensures var k' := DoLink(k, WriteMessage(ok));
      && k'.rx == k.rx && k'.locals.Keys == k.locals.Keys && ws in k'.tx
      && k'.tx[ws].log == k.tx[ws].log + (if ok && k.token.value.ws == ws then [k.token.value.frame] else [])
      && forall id :: id in k.locals ==>
           k'.locals[id].home == k.locals[id].home && k'.locals[id].read == k.locals[id].read
  {
  }

  /** The report of the end of a connection is written after all that was read. */
  lemma ReportFollowsAll(k: Client, id: ConnId, sent: Bytes, ended: bool)
    requires CanLink(k, WriteMessage(true)) && TokenWhole(k) && id in k.locals && ReaderOk(k, id, sent, ended)
    requires k.token.value.ws == k.locals[id].home && k.token.value.frame == Close(id, true)
    ensures sent == k.locals[id].read
  {
  }

  lemma HomeLogAfterWrite(k: Client, ok: bool, id: ConnId, sent: Bytes)
    requires CanLink(k, WriteMessage(ok)) && TokenWhole(k) && id in k.locals && k.locals[id].home in k.tx
    requires var log := k.tx[k.locals[id].home].log;
      && sent == Payload(Only(log, id)) && EndsLast(log, id, k.locals[id].read)
      && ReaderOk(k, id, sent, Close(id, true) in log)
    ensures var k' := DoLink(k, WriteMessage(ok)); var home := k.locals[id].home; var t := k.token.value;
      && k'.rx == k.rx && id in k'.locals && k'.locals[id].home == home && home in k'.tx
      && k'.tx[home].log == k.tx[home].log + (if ok && t.ws == home then [t.frame] else [])
      && Payload(Only(k'.tx[home].log, id)) ==
          sent + (if ok && t.ws == home && About(t.frame, id) && t.frame.Data? then t.frame.data else [])
      && EndsLast(k'.tx[home].log, id, k'.locals[id].read)
  {
    var log := k.tx[k.locals[id].home].log;
    OnWrite(k, ok, k.locals[id].home);
    if ok && k.token.value.ws == k.locals[id].home {
      PayloadGrows(log, k.token.value.frame, id);
      if k.token.value.frame == Close(id, true) { ReportFollowsAll(k, id, sent, Close(id, true) in log); }
      LogGrows(log, k.token.value.frame, id, k.locals[id].read);
    }
  }

  lemma LocalOnWrite(k: Client, ok: bool, id: ConnId)
    requires CanLink(k, WriteMessage(ok)) && LocalOk(k, id) && MainOk(k) && TokenWhole(k)
    ensures LocalOk(DoLink(k, WriteMessage(ok)), id)
  {
    var sent := Payload(Only(k.tx[k.locals[id].home].log, id));
    HomeLogAfterWrite(k, ok, id, sent);
    LocalAfterWrite(k, ok, id, Payload(Only(k.rx[k.locals[id].home], id)), sent);
  }

  lemma LocalAfterWrite(k: Client, ok: bool, id: ConnId, got: Bytes, sent: Bytes)
    requires CanLink(k, WriteMessage(ok)) && MainOk(k) && TokenWhole(k) && id in k.locals
    requires DownRel(k.locals[id], id in k.localConns, k.main, k.session, id, got)
    requires k.locals[id].home in k.tx && k.locals[id].home in k.rx
    requires var log := k.tx[k.locals[id].home].log;
             && ReaderOk(k, id, sent, Close(id, true) in log)
             && got == Payload(Only(k.rx[k.locals[id].home], id))
    requires var k' := DoLink(k, WriteMessage(ok)); var home := k.locals[id].home; var t := k.token.value;
      && k'.rx == k.rx && id in k'.locals && k'.locals[id].home == home && home in k'.tx
      && k'.tx[home].log == k.tx[home].log + (if ok && t.ws == home then [t.frame] else [])
      && Payload(Only(k'.tx[home].log, id)) ==
          sent + (if ok && t.ws == home && About(t.frame, id) && t.frame.Data? then t.frame.data else [])
      && EndsLast(k'.tx[home].log, id, k'.locals[id].read)
    ensures LocalOk(DoLink(k, WriteMessage(ok)), id)
  {
    var k' := DoLink(k, WriteMessage(ok));
    var log, log' := k.tx[k.locals[id].home].log, k'.tx[k.locals[id].home].log;
    DownOnLink(k, WriteMessage(ok), id, got);
    UpOnWrite(k, ok, id, sent, Close(id, true) in log, Payload(Only(log', id)), Close(id, true) in log');
    Assemble(k', id, got, Payload(Only(log', id)), Close(id, true) in log');
  }

  lemma SilentGrows(log: seq<Frame>, f: Frame, id: ConnId)
    requires SilentOn(log, id) && !(f.Data? && f.id == id) && f != Close(id, true)
    ensures SilentOn(log + [f], id)
  {
    PayloadGrows(log, f, id);
  }

  lemma LocalKeeps(k: Client, e: Event, id: ConnId)
    requires MainOk(k) && TokenWhole(k) && Can(k, e) && Served(k, e) && LocalOk(k, id)
    ensures LocalOk(Do(k, e), id)
  {
    match e
    case Session(s) => if s.Receive? { LocalOnReceive(k, s.frame, id); } else { LocalOnSession(k, s, id); }
    case Handler(h) => LocalOnHandler(k, h, id);
    case Link(l) => if l.WriteMessage? { LocalOnWrite(k, l.ok, id); } else { LocalOnLink(k, l, id); }
    case OfReader(at, r) => LocalOnReader(k, at, r, id);
  }

  lemma SilentKeeps(k: Client, e: Event, id: ConnId, ws: Ws)
    requires MainOk(k) && TokenWhole(k) && WsOk(k, ws) && Can(k, e) && id !in k.locals && ws in Do(k, e).tx
    requires ws in k.tx ==> SilentOn(k.tx[ws].log, id)
    ensures SilentOn(Do(k, e).tx[ws].log, id)
  {
    match e
    case Session(s) => WsOnSession(k, s, ws);
    case Handler(h) => WsOnHandler(k, h, ws);
    case Link(WriteMessage(ok)) => SilentOnWrite(k, ok, id, ws);
    case Link(l) => WsOnLink(k, l, ws);
    case OfReader(at, r) => WsOnReader(k, at, r, ws);
  }

  lemma SilentOnWrite(k: Client, ok: bool, id: ConnId, ws: Ws)
    requires TokenWhole(k) && CanLink(k, WriteMessage(ok)) && id !in k.locals && ws in k.tx
             && SilentOn(k.tx[ws].log, id)
    ensures SilentOn(DoLink(k, WriteMessage(ok)).tx[ws].log, id)
  {
    OnWrite(k, ok, ws);
    if ok && k.token.value.ws == ws { SilentGrows(k.tx[ws].log, k.token.value.frame, id); }
  }

  lemma LocalsOnLink(k: Client, e: LinkEvent)
    requires CanLink(k, e)
    ensures DoLink(k, e).locals.Keys == k.locals.Keys
  {
    if e.WriteMessage? {} else {}
  }

  lemma LocalsOnReader(k: Client, at: ConnId, e: ReaderEvent)
    requires CanReader(k, at, e)
    ensures DoReader(k, at, e).locals.Keys == k.locals.Keys
  {
  }

  /** Only a successful dial adds a local connection. */
  lemma NewLocal(k: Client, e: Event, id: ConnId)
    requires Can(k, e) && id !in k.locals && id in Do(k, e).locals
    ensures e == Handler(Dial(true)) && k.main.frame.id == id
  {
    match e
    case Session(_) =>
    case Handler(h) => LocalsOnHandler(k, h);
    case Link(l) => LocalsOnLink(k, l);
    case OfReader(at, r) => LocalsOnReader(k, at, r);
  }

  lemma LocalsOnHandler(k: Client, e: HandlerEvent)
    requires CanHandler(k, e)
    ensures e != Dial(true) ==> DoHandler(k, e).locals.Keys == k.locals.Keys
    ensures e == Dial(true) ==> DoHandler(k, e).locals.Keys == k.locals.Keys + {k.main.frame.id}
  {
  }

  lemma RestKeeps(k: Client, e: Event)
    requires MainOk(k) && TokenWhole(k) && SetsOk(k) && HeardOk(k) && FreshOpen(k) && Can(k, e) && Served(k, e)
    ensures MainOk(Do(k, e)) && TokenWhole(Do(k, e)) && SetsOk(Do(k, e)) && HeardOk(Do(k, e)) && FreshOpen(Do(k, e))
  {
    match e
    case Session(s) =>
      MainOnSession(k, s); TokenOnSession(k, s); SetsOnSession(k, s); HeardOnSession(k, s); FreshOnSession(k, s);
    case Handler(h) =>
      MainOnHandler(k, h); TokenOnHandler(k, h); SetsOnHandler(k, h); HeardOnHandler(k, h); SameOnHandler(k, h);
    case Link(l) => MainOnLink(k, l); TokenOnLink(k, l); SetsOnLink(k, l); HeardOnLink(k, l); SameOnLink(k, l);
    case OfReader(at, r) =>
      MainOnReader(k, at, r); TokenOnReader(k, at, r); SetsOnReader(k, at, r); HeardOnReader(k, at, r);
      SameOnReader(k, at, r);
  }

  /** The step does not hand the main goroutine another message. */
  predicate SameMessage(k: Client, k': Client) {
    (k'.main.Got? ==> k'.main == k.main) && k'.rx == k.rx && k'.session == k.session
  }

  lemma SameOnHandler(k: Client, e: HandlerEvent)
    requires CanHandler(k, e)
    ensures SameMessage(k, DoHandler(k, e))
  {
  }

  lemma SameOnLink(k: Client, e: LinkEvent)
    requires CanLink(k, e)
    ensures SameMessage(k, DoLink(k, e))
  {
  }

  lemma SameOnReader(k: Client, at: ConnId, e: ReaderEvent)
    requires CanReader(k, at, e)
    ensures SameMessage(k, DoReader(k, at, e))
  {
  }

  lemma FreshOnSession(k: Client, e: SessionEvent)
    requires CanSession(k, e) && (e.Receive? ==> Expects(k, e.frame))
    ensures FreshOpen(DoSession(k, e))
  {
    if e.Receive? && e.frame.Open? { PayloadGrows(k.rx[k.session.value], e.frame, e.frame.id); }
  }

  lemma WsKeeps(k: Client, e: Event, ws: Ws)
    requires MainOk(k) && WsOk(k, ws) && Can(k, e)
    ensures WsOk(Do(k, e), ws)
  {
    match e
    case Session(s) => WsOnSession(k, s, ws);
    case Handler(h) => WsOnHandler(k, h, ws);
    case Link(l) => WsOnLink(k, l, ws);
    case OfReader(at, r) => WsOnReader(k, at, r, ws);
  }

  lemma BalanceKeeps(k: Client, e: Event, id: ConnId)
    requires MainOk(k) && TokenWhole(k) && SetsOk(k) && Balanced(k, id) && Can(k, e)
    ensures Balanced(Do(k, e), id)
  {
    match e
    case Session(s) => BalanceOnSession(k, s, id);
    case Handler(h) => BalanceOnHandler(k, h, id);
    case Link(l) => if l.WriteMessage? { BalanceOnWrite(k, l.ok, id); } else { BalanceOnLink(k, l, id); }
    case OfReader(at, r) => BalanceOnReader(k, at, r, id);
  }

  lemma LocalsStay(k: Client, e: Event, id: ConnId)
    requires Can(k, e) && id in k.locals
    ensures id in Do(k, e).locals
  {
    match e
    case Session(_) =>
    case Handler(_) =>
    case Link(l) => LocalsOnLink(k, l);
    case OfReader(at, r) => LocalsOnReader(k, at, r);
  }

  lemma HeardGrows(k: Client, e: Event)
    requires Can(k, e)
    ensures k.heard <= Do(k, e).heard
  {
    match e
    case Session(_) =>
    case Handler(_) =>
    case Link(_) =>
    case OfReader(_, _) =>
  }

  lemma LogKeeps(k: Client, e: Event, ws: Ws)
    requires MainOk(k) && TokenWhole(k) && WsOk(k, ws) && Can(k, e) && ws in Do(k, e).tx
    ensures ws in k.tx ==>
              || Do(k, e).tx[ws].log == k.tx[ws].log
              || (k.token.Some? && Do(k, e).tx[ws].log == k.tx[ws].log + [k.token.value.frame])
    ensures ws !in k.tx ==> Do(k, e).tx[ws].log == []
  {
    match e
    case Session(s) => WsOnSession(k, s, ws);
    case Handler(h) => WsOnHandler(k, h, ws);
    case Link(WriteMessage(ok)) => WsOnLink(k, e.link, ws); if ws in k.tx { OnWrite(k, ok, ws); }
    case Link(l) => WsOnLink(k, l, ws);
    case OfReader(at, r) => WsOnReader(k, at, r, ws);
  }

  lemma SpeaksKeeps(k: Client, e: Event)
    requires MainOk(k) && TokenWhole(k) && HeardOk(k) && SpeaksOf(k) && Can(k, e)
    requires forall ws :: WsOk(k, ws)
    ensures SpeaksOf(Do(k, e))
  {
    var k' := Do(k, e);
    HeardGrows(k, e);
    forall ws, f | ws in k'.tx && f in k'.tx[ws].log && !f.Other? ensures f.id in k'.heard {
      assert WsOk(k, ws);
      LogKeeps(k, e, ws);
    }
  }

  lemma StepInv(k: Client, e: Event)
    requires Inv(k) && Can(k, e) && Served(k, e)
    ensures Inv(Do(k, e))
  {
    var k' := Do(k, e);
    RestKeeps(k, e);
    SpeaksKeeps(k, e);
    forall ws ensures WsOk(k', ws) { assert WsOk(k, ws); WsKeeps(k, e, ws); }
    forall id ensures Balanced(k', id) { assert Balanced(k, id); BalanceKeeps(k, e, id); }
    forall id | id in k'.locals ensures LocalOk(k', id) {
      if id in k.locals {
        LocalKeeps(k, e, id);
      } else {
        NewLocal(k, e, id);
        assert SilentOn(k.tx[k.session.value].log, id) && WsOk(k, k.session.value);
        LocalOnDial(k, id);
      }
    }
    forall id, ws | id !in k'.locals && ws in k'.tx ensures SilentOn(k'.tx[ws].log, id) {
      if id in k.locals { LocalsStay(k, e, id); }
      assert (ws in k.tx ==> SilentOn(k.tx[ws].log, id)) && WsOk(k, ws);
      SilentKeeps(k, e, id, ws);
    }
  }

  // ---- What a step adds to the histories -----------------------------------------------

  predicate Receives(k: Client, e: Event, ws: Ws) { e.Session? && e.session.Receive? && k.session == Some(ws) }

  lemma RxChange(k: Client, e: Event, ws: Ws)
    requires Can(k, e) && ws in k.rx
    ensures ws in Do(k, e).rx
    ensures Do(k, e).rx[ws] == if Receives(k, e, ws) then k.rx[ws] + [e.session.frame] else k.rx[ws]
  {
    match e
    case Session(_) =>
    case Handler(_) =>
    case Link(_) =>
    case OfReader(_, _) =>
  }

  lemma TxOnHandler(k: Client, e: HandlerEvent)
    requires CanHandler(k, e)
    ensures DoHandler(k, e).tx.Keys == k.tx.Keys
  {
  }

  lemma TxOnLink(k: Client, e: LinkEvent)
    requires CanLink(k, e)
    ensures DoLink(k, e).tx.Keys == k.tx.Keys
  {
    if e.WriteMessage? {} else {}
  }

  lemma TxOnReader(k: Client, at: ConnId, e: ReaderEvent)
    requires CanReader(k, at, e)
    ensures DoReader(k, at, e).tx.Keys == k.tx.Keys
  {
  }

  lemma WsChange(k: Client, e: Event, ws: Ws)
    requires Can(k, e)
    ensures ws in k.tx ==> ws in Do(k, e).tx
    ensures ws !in k.tx && ws in Do(k, e).tx ==>
              e == Session(Connect(ws)) && Do(k, e).tx[ws].log == [] && Do(k, e).rx[ws] == []
  {
    match e
    case Session(_) =>
    case Handler(h) => TxOnHandler(k, h);
    case Link(l) => TxOnLink(k, l);
    case OfReader(at, r) => TxOnReader(k, at, r);
  }

  lemma HeardChange(k: Client, e: Event, id: ConnId)
    requires Can(k, e)
    ensures id in Do(k, e).heard && id !in k.heard ==> e.Session? && e.session.Receive? && About(e.session.frame, id)
    ensures id in Do(k, e).known && id !in k.known ==> e.Session? && e.session.Receive? && e.session.frame == Open(id)
  {
    match e
    case Session(_) =>
    case Handler(_) =>
    case Link(_) =>
    case OfReader(_, _) =>
  }

  lemma HomeOnHandler(k: Client, e: HandlerEvent, id: ConnId)
    requires HandlerReady(k) && CanHandler(k, e) && id in k.locals
    ensures id in DoHandler(k, e).locals && DoHandler(k, e).locals[id].home == k.locals[id].home
  {
  }

  lemma HomeOnLink(k: Client, e: LinkEvent, id: ConnId)
    requires CanLink(k, e) && id in k.locals
    ensures id in DoLink(k, e).locals && DoLink(k, e).locals[id].home == k.locals[id].home
  {
  }

  lemma HomeOnReader(k: Client, at: ConnId, e: ReaderEvent, id: ConnId)
    requires CanReader(k, at, e) && id in k.locals
    ensures id in DoReader(k, at, e).locals && DoReader(k, at, e).locals[id].home == k.locals[id].home
  {
  }

  lemma HomeChange(k: Client, e: Event, id: ConnId)
    requires HandlerReady(k) && Can(k, e) && id in Do(k, e).locals
    ensures id in k.locals ==> Do(k, e).locals[id].home == k.locals[id].home
    ensures id !in k.locals ==>
              k.session.Some? && Do(k, e).locals[id].home == k.session.value && k.main.Got? && k.main.frame == Open(id)
  {
    if id !in k.locals {
      NewLocal(k, e, id);
    } else {
      match e
      case Session(s) =>
      case Handler(h) => HomeOnHandler(k, h, id);
      case Link(l) => HomeOnLink(k, l, id);
      case OfReader(at, r) => HomeOnReader(k, at, r, id);
    }
  }

  lemma NewInv()
    ensures Inv(NewClient())
  {
  }
}
