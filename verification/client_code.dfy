/**
 `Client` of client.go in the code's own form. The ghost field `model` follows the state machine
 of `Clients`; what each method does to it is one of the machine's events, or a run of them.
 */
module ClientCode {
  import opened Wrappers
  import opened Frames
  import opened Objects
  import R = Registries
  import C = Clients

  /** The object shows what the machine says of one local connection. */
  ghost predicate Mirrors(c: Conn, l: C.Local)
    reads c
  {
    c.open == l.open && c.broken == l.broken && c.written == l.written
  }

  /** The same, once a listed connection has been closed. */
  ghost predicate MirrorsClosed(c: Conn, l: C.Local, listed: bool)
    reads c
  {
    c.open == (l.open && !listed) && c.broken == l.broken && c.written == l.written
  }

  // ---- Effects on the machine ----------------------------------------------------------

  /** closeLocalConn. */
  function Closed(k: C.Client, id: ConnId): C.Client {
    k.(locals := C.ClosedIn(k.locals, k.localConns, id), localConns := k.localConns - {id})
  }

  /** cleanup. */
  function CleanedUp(k: C.Client): C.Client {
    C.Drop(k, k.main).(locals := C.AllClosed(k.locals, k.localConns), localConns := {})
  }

  /** A write to the listed connection `id`. */
  function Written(k: C.Client, id: ConnId, data: Bytes, n: nat, fails: bool): C.Client
    requires id in k.locals && n <= |data|
  {
    var l := k.locals[id];
    var m := Through(l.open, l.broken, data, n, fails);
    k.(locals := k.locals[id := l.(written := l.written + data[..m], broken := l.broken || fails || !l.open)])
  }

  /** `frame` was written to `ws`, or the write failed. */
  function Sent(k: C.Client, ws: R.Ws, frame: Frame, fails: bool): C.Client
    requires ws in k.tx
  {
    k.(tx := k.tx[ws := Attempted(k.tx[ws], frame, fails)])
  }

  // ---- ... are events of the machine ---------------------------------------------------

  lemma CloseIsAnEvent(k: C.Client, id: ConnId, ended: bool)
    requires k.main == C.Got(Close(id, ended))
    ensures C.CanHandler(k, C.CloseLocal) && C.DoHandler(k, C.CloseLocal) == Closed(k, id).(main := C.Serving)
  {
  }

  lemma CleanUpIsAnEvent(k: C.Client)
    requires k.main == C.CleaningUp
    ensures C.CanHandler(k, C.CleanUp) && C.DoHandler(k, C.CleanUp) == CleanedUp(k).(main := C.Head)
  {
  }

  /** handleData for a listed connection: the lookup, the write, and the close if it failed. */
  lemma DataIsARun(k: C.Client, id: ConnId, data: Bytes, n: nat, fails: bool)
    requires k.main == C.Got(Data(id, data)) && id in k.localConns && id in k.locals && n <= |data|
    ensures C.CanHandler(k, C.Lookup)
    ensures var l := k.locals[id];
            var ok := l.open && !l.broken && !fails;
            var write := C.WriteLocal(Through(l.open, l.broken, data, n, fails), ok);
            var found := C.DoHandler(k, C.Lookup);
            && C.CanHandler(found, write)
            && var wrote := C.DoHandler(found, write);
               if ok then wrote == Written(k, id, data, n, fails).(main := C.Serving)
               else C.CanHandler(wrote, C.CloseLocal) &&
                    C.DoHandler(wrote, C.CloseLocal) == Closed(Written(k, id, data, n, fails), id).(main := C.Serving)
  {
  }

  /** The message handler gives an identifier up: the report goes out on whatever WebSocket is current. */
  function GivenUp(k: C.Client, id: ConnId, fails: bool): C.Client {
    SentOn(k, Close(id, false), fails).(closes := k.closes + multiset{id}, main := C.Serving)
  }

  /** After a failed dial, and for data of an unknown identifier, the report is a send and a write. */
  lemma ReportIsARun(k: C.Client, id: ConnId, request: Control, fails: bool)
    requires k.main == C.Missing(id) || k.main == C.DialFailed(id)
    requires k.token.None? && (k.conn.Some? ==> k.conn.value in k.tx)
    ensures C.CanLink(k, C.MainSend(request))
    ensures var sent := C.DoLink(k, C.MainSend(request));
            var given := GivenUp(k, id, fails).(refused := if k.main.DialFailed? then k.refused + {id} else k.refused);
            if k.conn.None? then sent == given
            else
              var ok := !fails && !k.tx[k.conn.value].down;
              C.CanLink(sent, C.WriteMessage(ok)) && C.DoLink(sent, C.WriteMessage(ok)) == given
  {
    var sent := C.DoLink(k, C.MainSend(request));
    if k.conn.Some? { assert sent.token == Some(C.Token(C.ByMain, k.conn.value, Close(id, false))); }
  }

  /** What leads to such a report: a failed dial, or data for an identifier that is not listed. */
  lemma GivesUpExactly(k: C.Client, id: ConnId, data: Bytes)
    ensures k.main == C.Got(Open(id)) && k.session.Some? ==>
              C.CanHandler(k, C.Dial(false)) && C.DoHandler(k, C.Dial(false)) == k.(main := C.DialFailed(id))
    ensures k.main == C.Got(Data(id, data)) ==>
              && C.CanHandler(k, C.Lookup)
              && (id !in k.localConns <==> C.DoHandler(k, C.Lookup).main == C.Missing(id))
              && (id in k.localConns <==> C.DoHandler(k, C.Lookup).main == C.Found(id, data))
  {
  }

  /** A dialed connection is listed and its reader started. */
  function Opened(k: C.Client, id: ConnId): C.Client
    requires k.session.Some?
  {
    k.(locals := k.locals[id := C.Local(k.session.value, true, false, [], [], C.Reading)],
        localConns := k.localConns + {id})
  }

  lemma OpenIsARun(k: C.Client, id: ConnId)
    requires k.main == C.Got(Open(id)) && k.session.Some?
    ensures C.CanHandler(k, C.Dial(true)) && C.CanHandler(C.DoHandler(k, C.Dial(true)), C.ListLocal)
    ensures var dialed := C.DoHandler(C.DoHandler(k, C.Dial(true)), C.ListLocal);
            C.CanHandler(dialed, C.StartReader) &&
            C.DoHandler(dialed, C.StartReader) == Opened(k, id).(main := C.Serving)
  {
    var dialed := C.DoHandler(C.DoHandler(k, C.Dial(true)), C.ListLocal);
    assert C.DoHandler(dialed, C.StartReader).locals == Opened(k, id).locals;
  }

  /** `data` was read from the connection, whose reader is now at `next`. */
  function Took(k: C.Client, id: ConnId, data: Bytes, next: C.Reader): C.Client
    requires id in k.locals
  {
    k.(locals := k.locals[id := k.locals[id].(read := k.locals[id].read + data, reader := next)])
  }

  /** The WebSocket that is current takes frames. */
  predicate Connected(k: C.Client) { k.conn.Some? && k.conn.value in k.tx && !k.tx[k.conn.value].down }

  function SentOn(k: C.Client, frame: Frame, fails: bool): C.Client {
    if k.conn.Some? && k.conn.value in k.tx then Sent(k, k.conn.value, frame, fails) else k
  }

  /** One turn of readFromLocal: `data` was read and sent on whatever WebSocket is current. */
  function Relayed(k: C.Client, id: ConnId, data: Bytes, fails: bool): C.Client
    requires id in k.locals
  {
    Took(SentOn(k, Data(id, data), fails), id, data, if Connected(k) && !fails then C.Reading else C.Ending)
  }

  /** The connection is picked and written to by whoever holds `connMu`. */
  lemma RelayIsARun(k: C.Client, id: ConnId, data: Bytes, fails: bool)
    requires C.CanReader(k, id, C.LocalRead(data)) && k.token.None? && (k.conn.Some? ==> k.conn.value in k.tx)
    ensures var read := C.DoReader(k, id, C.LocalRead(data));
      && C.CanReader(read, id, C.Send)
      && var picked := C.DoReader(read, id, C.Send);
         if k.conn.None? then picked == Relayed(k, id, data, fails)
         else
           var ok := !fails && !k.tx[k.conn.value].down;
           C.CanLink(picked, C.WriteMessage(ok)) && C.DoLink(picked, C.WriteMessage(ok)) == Relayed(k, id, data, fails)
  {
    var read := C.DoReader(k, id, C.LocalRead(data));
    var picked := C.DoReader(read, id, C.Send);
    if k.conn.Some? {
      var ok := !fails && !k.tx[k.conn.value].down;
      assert picked.token.value == C.Token(C.ByReader(id), k.conn.value, Data(id, data));
      assert C.DoLink(picked, C.WriteMessage(ok)).locals == Relayed(k, id, data, fails).locals;
    } else {
      assert picked.locals == Relayed(k, id, data, fails).locals;
    }
  }

  predicate Follows(k: C.Client, k': C.Client, id: ConnId, data: Bytes, fails: bool) {
    id in k.locals && k' == Relayed(k, id, data, fails)
  }

  /** The states the loop goes through; the send of chunk number `failing`, if there is one, fails. */
  predicate Trace(states: seq<C.Client>, id: ConnId, inputs: seq<Bytes>, failing: nat) {
    && 0 < |states| <= |inputs| + 1
    && forall i :: 0 <= i < |states| - 1 ==> Follows(states[i], states[i + 1], id, inputs[i], i == failing)
  }

  lemma TraceGrows(states: seq<C.Client>, k: C.Client, id: ConnId, inputs: seq<Bytes>, failing: nat)
    requires Trace(states, id, inputs, failing) && |states| <= |inputs|
    requires Follows(states[|states| - 1], k, id, inputs[|states| - 1], |states| - 1 == failing)
    ensures Trace(states + [k], id, inputs, failing)
  {
  }

  /** While the WebSocket takes frames, everything read is on it, in order. */
  lemma {:induction false} TraceLog(states: seq<C.Client>, id: ConnId, inputs: seq<Bytes>, failing: nat)
    requires Trace(states, id, inputs, failing) && Connected(states[|states| - 1])
    ensures Connected(states[0]) && states[|states| - 1].conn == states[0].conn
    ensures states[|states| - 1].tx[states[0].conn.value].log ==
            states[0].tx[states[0].conn.value].log + Chunks(id, inputs[..|states| - 1])
    decreases |states|
  {
    var n := |states| - 1;
    if n == 0 {
      assert Chunks(id, inputs[..n]) == [];
    } else {
      assert Follows(states[n - 1], states[n], id, inputs[n - 1], n - 1 == failing);
      RelayedLog(states[n - 1], id, inputs[n - 1], n - 1 == failing);
      TraceLog(states[..n], id, inputs, failing);
      assert Chunks(id, inputs[..n]) == Chunks(id, inputs[..n - 1]) + [Data(id, inputs[n - 1])];
    }
  }

  lemma RelayedLog(k: C.Client, id: ConnId, data: Bytes, fails: bool)
    requires id in k.locals && Connected(Relayed(k, id, data, fails))
    ensures Connected(k) && Relayed(k, id, data, fails).conn == k.conn
    ensures Relayed(k, id, data, fails).tx[k.conn.value].log == k.tx[k.conn.value].log + [Data(id, data)]
  {
  }

  /** The deferred part: the connection is closed if it is still listed, and its end reported. */
  function Departed(k: C.Client, id: ConnId, fails: bool): C.Client
    requires id in k.locals
  {
    Reported(SentOn(Closed(k, id), Close(id, true), fails), id)
  }

  function Reported(k: C.Client, id: ConnId): C.Client
    requires id in k.locals
  {
    k.(locals := k.locals[id := k.locals[id].(reader := C.Gone)], closes := k.closes + multiset{id})
  }

  /** The reader's own close, and the call that reports it. */
  lemma OwnCloseIsAnEvent(k: C.Client, id: ConnId)
    requires id in k.locals && k.locals[id].reader == C.Ending && k.token.None?
    ensures C.CanReader(k, id, C.CloseOwn) && C.CanReader(C.DoReader(k, id, C.CloseOwn), id, C.Report)
    ensures var r := C.DoReader(C.DoReader(k, id, C.CloseOwn), id, C.Report);
      && r.tx == k.tx && r.closes == k.closes + multiset{id} && r.localConns == k.localConns - {id}
      && r.locals == Closed(k, id).locals[id :=
           Closed(k, id).locals[id].(reader := if k.conn.None? then C.Gone else C.SendingClose)]
      && r.token == (if k.conn.None? then None else Some(C.Token(C.ByReader(id), k.conn.value, Close(id, true))))
      && r == k.(locals := r.locals, localConns := r.localConns, closes := r.closes, token := r.token)
  {
  }

  lemma DepartureIsARun(k: C.Client, id: ConnId, fails: bool)
    requires id in k.locals && k.locals[id].reader == C.Ending && k.token.None?
             && (k.conn.Some? ==> k.conn.value in k.tx)
    ensures C.CanReader(k, id, C.CloseOwn) && C.CanReader(C.DoReader(k, id, C.CloseOwn), id, C.Report)
    ensures var reported := C.DoReader(C.DoReader(k, id, C.CloseOwn), id, C.Report);
            if k.conn.None? then reported == Departed(k, id, fails)
            else
              var ok := !fails && !k.tx[k.conn.value].down;
              C.CanLink(reported, C.WriteMessage(ok)) &&
              C.DoLink(reported, C.WriteMessage(ok)) == Departed(k, id, fails)
  {
    OwnCloseIsAnEvent(k, id);
    var reported := C.DoReader(C.DoReader(k, id, C.CloseOwn), id, C.Report);
    if k.conn.Some? {
      var ok := !fails && !k.tx[k.conn.value].down;
      assert C.DoLink(reported, C.WriteMessage(ok)).locals == Departed(k, id, fails).locals;
    } else {
      assert reported.locals == Departed(k, id, fails).locals;
    }
  }

  /** The reply to a registration, if one came: only `assigned` starts the session. */
  function Answered(k: C.Client, reply: Option<Frame>): C.Client
    requires k.session.Some? && k.session.value in k.rx
  {
    if reply.None? then C.Drop(k, C.Head)
    else
      var frame := reply.value;
      var got := k.(rx := k.rx[k.session.value := k.rx[k.session.value] + [frame]],
                    heard := if frame.Other? then k.heard else k.heard + {frame.id});
      if frame.Other? && frame.control.Assigned? then got.(main := C.Serving) else C.Drop(got, C.Head)
  }

  /** The registration is sent and answered; whatever goes wrong, the WebSocket is closed. */
  function Registered(k: C.Client, request: Control, fails: bool, reply: Option<Frame>): C.Client
    requires k.session.Some? && k.session.value in k.rx
  {
    var asked := SentOn(k, Other(request), fails);
    if Connected(k) && !fails then Answered(asked, reply) else C.Drop(asked, C.Head)
  }

  lemma RegisterIsARun(k: C.Client, request: Control, fails: bool, reply: Option<Frame>)
    requires k.main == C.Registering && k.token.None? && request.Register?
    requires k.session.Some? && k.session.value in k.rx && (k.conn.Some? ==> k.conn.value in k.tx)
    ensures C.CanLink(k, C.MainSend(request))
    ensures var sent := C.DoLink(k, C.MainSend(request));
            if k.conn.None? then sent == Registered(k, request, fails, reply)
            else
              var ok := !fails && !k.tx[k.conn.value].down;
              && C.CanLink(sent, C.WriteMessage(ok))
              && var wrote := C.DoLink(sent, C.WriteMessage(ok));
                 if !ok then wrote == Registered(k, request, fails, reply)
                 else
                   var e := if reply.Some? then C.Receive(reply.value) else C.ReceiveFails;
                   C.CanSession(wrote, e) && C.DoSession(wrote, e) == Registered(k, request, fails, reply)
  {
    var sent := C.DoLink(k, C.MainSend(request));
    if k.conn.Some? {
      var ok := !fails && !k.tx[k.conn.value].down;
      assert sent.token == Some(C.Token(C.ByMain, k.conn.value, Other(request)));
      var wrote := C.DoLink(sent, C.WriteMessage(ok));
      assert C.Downed(wrote.tx, wrote.conn) == wrote.tx || ok;
    }
  }

  /** A read that fails leads to the deferred part, and to nothing else. */
  lemma ReadFailureEnds(k: C.Client, id: ConnId, fails: bool)
    requires id in k.locals && k.locals[id].reader == C.Reading
    ensures C.CanReader(k, id, C.LocalReadFails)
    ensures var ended := C.DoReader(k, id, C.LocalReadFails);
            ended.locals[id].reader == C.Ending && Departed(ended, id, fails) == Departed(k, id, fails)
  {
    var ended := C.DoReader(k, id, C.LocalReadFails);
    assert Departed(ended, id, fails).locals == Departed(k, id, fails).locals;
  }

  /** A heartbeat that cannot be sent takes the WebSocket down. */
  function Beaten(k: C.Client, fails: bool): C.Client {
    var sent := SentOn(k, Other(Heartbeat), fails);
    if Connected(k) && !fails then sent else C.Drop(sent, k.main)
  }

  lemma HeartbeatIsARun(k: C.Client, fails: bool)
    requires k.token.None? && k.conn.Some? && k.conn.value in k.tx
    ensures C.CanLink(k, C.HeartbeatSend)
    ensures var sent := C.DoLink(k, C.HeartbeatSend);
            var ok := !fails && !k.tx[k.conn.value].down;
            && C.CanLink(sent, C.WriteMessage(ok))
            && var wrote := C.DoLink(sent, C.WriteMessage(ok));
               if ok then wrote == Beaten(k, fails)
               else C.CanLink(wrote, C.DropConn) && C.DoLink(wrote, C.DropConn) == Beaten(k, fails)
  {
    var sent := C.DoLink(k, C.HeartbeatSend);
    assert sent.token == Some(C.Token(C.ByHeartbeat, k.conn.value, Other(Heartbeat)));
  }

  ghost predicate SameShown(k: C.Client, k': C.Client) {
    && k'.tx == k.tx && k'.conn == k.conn && k'.stopping == k.stopping
    && k'.localConns == k.localConns && k'.locals.Keys == k.locals.Keys
    && forall i :: i in k.locals ==> SameConn(k.locals[i], k'.locals[i])
  }

  predicate SameConn(l: C.Local, l': C.Local) { l'.open == l.open && l'.broken == l.broken && l'.written == l.written }

  lemma TookShowsSame(k: C.Client, id: ConnId, data: Bytes, next: C.Reader)
    requires id in k.locals
    ensures SameShown(k, Took(k, id, data, next))
  {
  }

  lemma ReportedShowsSame(k: C.Client, id: ConnId)
    requires id in k.locals
    ensures SameShown(k, Reported(k, id))
  {
  }

  lemma ClosedKeeps(k: C.Client, id: ConnId, frame: Frame, fails: bool)
    ensures Closed(k, id).locals.Keys == k.locals.Keys && SentOn(k, frame, fails).locals == k.locals
    ensures Connected(Closed(k, id)) == Connected(k) && (Connected(SentOn(k, frame, fails)) ==> Connected(k))
  {
  }

  lemma NothingToClose(k: C.Client, id: ConnId)
    requires id !in k.localConns
    ensures Closed(k, id) == k
  {
  }

  lemma CleanedUpInTurn(k: C.Client)
    ensures var closed := k.(locals := C.AllClosed(k.locals, k.localConns), localConns := {});
            C.Drop(closed, closed.main) == CleanedUp(k)
  {
  }

  class Client {
    var conn: Option<WebSocket>
    var localConns: map<ConnId, Conn>
    var remotePort: int
    var stopping: bool                           // `stopCh` is closed
    ghost var model: C.Client
    ghost var dialed: map<ConnId, Conn>          // every local connection there ever was
    ghost var sessions: map<R.Ws, WebSocket>     // every WebSocket there ever was

    ghost predicate Valid()
      reads this, dialed.Values, sessions.Values
    {
      Sessions() && Locals()
    }

    ghost predicate Sessions()
      reads this, sessions.Values
    {
      && sessions.Keys == model.tx.Keys && stopping == model.stopping
      && (forall ws :: ws in sessions ==> sessions[ws].id == ws && sessions[ws].Out() == model.tx[ws])
      && model.conn == (if conn.Some? then Some(conn.value.id) else None)
      && (conn.Some? ==> conn.value.id in sessions && sessions[conn.value.id] == conn.value)
    }

    ghost predicate Locals()
      reads this, dialed.Values
    {
      ListedAreDialed() && forall i :: i in dialed ==> Mirrors(dialed[i], model.locals[i])
    }

    ghost predicate ListedAreDialed()
      reads this
    {
      && localConns.Keys == model.localConns && dialed.Keys == model.locals.Keys
      && (forall i :: i in localConns ==> i in dialed && localConns[i] == dialed[i])
      && (forall i, j :: i in dialed && j in dialed && i != j ==> dialed[i] != dialed[j])
    }

    constructor ()
      ensures Valid() && model == C.NewClient()
    {
      conn, localConns, remotePort, stopping := None, map[], 0, false;
      model, dialed, sessions := C.NewClient(), map[], map[];
    }

    /** The dial succeeded with `ws`. */
    method Connect(ws: WebSocket)
      requires Valid() && ws.id !in sessions && ws.Out() == C.Outgoing([], false)
      requires model.main == C.Head && ws.id !in model.rx
      modifies this
      ensures Valid() && C.CanSession(old(model), C.Connect(ws.id))
      ensures model == C.DoSession(old(model), C.Connect(ws.id)) && conn == Some(ws)
      ensures dialed == old(dialed) && sessions == old(sessions)[ws.id := ws]
    {
      conn := Some(ws);
      sessions := sessions[ws.id := ws];
      model := C.DoSession(model, C.Connect(ws.id));
    }

    method CloseConn()
      requires Valid()
      modifies this`conn, this`model, if conn.Some? then {conn.value} else {}
      ensures Valid() && model == C.Drop(old(model), old(model.main)) && conn == None
      ensures old(conn).Some? ==> old(conn).value.down && old(conn).value.log == old(conn.value.log)
    {
      if conn.Some? {
        conn.value.Close();
        conn := None;
      }
      model := C.Drop(model, model.main);
    }

    method CloseLocalConn(id: ConnId)
      requires Valid()
      modifies this`localConns, this`model, dialed.Values
      ensures Valid() && model == Closed(old(model), id)
      ensures localConns == old(localConns) - {id}
      ensures id in old(localConns) ==> !old(localConns)[id].open
      ensures forall i :: i in dialed && !(i == id && id in old(localConns)) ==> dialed[i].open == old(dialed[i].open)
    {
      if id in localConns { CloseListed(id); } else { NothingToClose(model, id); }
    }

    method CloseListed(id: ConnId)
      requires Valid() && id in localConns
      modifies this`localConns, this`model, localConns[id]
      ensures Valid() && model == Closed(old(model), id)
      ensures localConns == old(localConns) - {id} && !old(localConns)[id].open
    {
      localConns[id].Close();
      localConns := localConns - {id};
      model := Closed(model, id);
    }

    /** `handleConnClose`. */
    method HandleConnClose(id: ConnId)
      requires Valid()
      modifies this`localConns, this`model, dialed.Values
      ensures Valid() && model == Closed(old(model), id) && localConns == old(localConns) - {id}
      ensures id in old(localConns) ==> !old(localConns)[id].open
      ensures forall i :: i in dialed && !(i == id && id in old(localConns)) ==> dialed[i].open == old(dialed[i].open)
    {
      CloseLocalConn(id);
    }

    /** Closes every listed connection, in whatever order the map is walked, and the WebSocket. */
    method Cleanup()
      requires Valid()
      modifies this`localConns, this`conn, this`model, dialed.Values, if conn.Some? then {conn.value} else {}
      ensures Valid() && model == CleanedUp(old(model))
      ensures localConns == map[] && conn == None
      ensures forall i :: i in old(localConns) ==> !old(localConns)[i].open
      ensures old(conn).Some? ==> old(conn).value.down && old(conn).value.log == old(conn.value.log)
    {
      CleanedUpInTurn(model);
      CloseLocals();
      CloseConn();
    }

    method CloseLocals()
      requires Valid()
      modifies this`localConns, this`model, dialed.Values
      ensures Valid() && localConns == map[]
      ensures model == old(model).(locals := C.AllClosed(old(model).locals, old(model).localConns), localConns := {})
      ensures forall i :: i in old(localConns) ==> !old(localConns)[i].open
    {
      CloseAll(localConns);
      ForgetLocals();
    }

    /** The listed connections have been closed, and the map is to be emptied. */
    method ForgetLocals()
      requires Sessions() && ListedAreDialed()
               && forall i :: i in dialed ==> MirrorsClosed(dialed[i], model.locals[i], i in localConns)
      modifies this`localConns, this`model
      ensures Valid() && localConns == map[]
      ensures model == old(model).(locals := C.AllClosed(old(model).locals, old(model).localConns), localConns := {})
    {
      model := model.(locals := C.AllClosed(model.locals, model.localConns), localConns := {});
      localConns := map[];
    }

    /** The machine moves on to `k`, in which nothing the object shows has changed. */
    ghost method Note(k: C.Client)
      requires Valid() && SameShown(model, k)
      modifies this`model
      ensures Valid() && model == k
    {
      model := k;
    }

    /** `fails` is the outcome of the write. */
    method SendMessage(frame: Frame, fails: bool) returns (err: bool)
      requires Valid()
      modifies this`model, if conn.Some? then {conn.value} else {}
      ensures Valid() && err == (conn.None? || fails || old(conn.value.down))
      ensures model == SentOn(old(model), frame, fails) && err == !(Connected(old(model)) && !fails)
      ensures conn.Some? ==>
                conn.value.down == err && conn.value.log == old(conn.value.log) + if err then [] else [frame]
    {
      if conn.None? { return true; }
      err := conn.value.WriteMessage(frame, fails);
      model := SentOn(model, frame, fails);
    }

    /**
     `register`, and the close that follows in `Start` if it fails: `reply` is what the read that
     waits for the answer returns, nothing if it fails.
     */
    method Register(request: Control, sendFails: bool, reply: Option<Frame>) returns (err: bool)
      requires Valid() && request.Register? && model.session.Some? && model.session.value in model.rx
      modifies this`conn, this`model, this`remotePort, if conn.Some? then {conn.value} else {}
      ensures Valid() && model == Registered(old(model), request, sendFails, reply)
      ensures err <==>
              || old(conn).None? || old(conn.value.down) || sendFails
              || reply.None? || !reply.value.Other? || !reply.value.control.Assigned?
      ensures !err ==> conn == old(conn) && remotePort == reply.value.control.port && model.main == C.Serving
      ensures err ==> conn == None && remotePort == old(remotePort) && model.main == C.Head
      ensures old(conn).Some? ==>
                && (err ==> old(conn).value.down)
                && old(conn).value.log ==
                    old(conn.value.log) + if sendFails || old(conn.value.down) then [] else [Other(request)]
    {
      err := SendMessage(Other(request), sendFails);
      if !err {
        err := Answer(reply);
      } else {
        HangUp();
      }
    }

    method Answer(reply: Option<Frame>) returns (err: bool)
      requires Valid() && model.session.Some? && model.session.value in model.rx
      modifies this`conn, this`model, this`remotePort, if conn.Some? then {conn.value} else {}
      ensures Valid() && model == Answered(old(model), reply)
      ensures err <==> reply.None? || !reply.value.Other? || !reply.value.control.Assigned?
      ensures !err ==> conn == old(conn) && remotePort == reply.value.control.port
      ensures err ==> conn == None && remotePort == old(remotePort)
      ensures old(conn).Some? ==>
                && old(conn).value.down == (err || old(conn.value.down))
                && old(conn).value.log == old(conn.value.log)
    {
      if reply.None? { HangUp(); return true; }
      var frame := reply.value;
      Note(model.(rx := model.rx[model.session.value := model.rx[model.session.value] + [frame]],
                  heard := if frame.Other? then model.heard else model.heard + {frame.id}));
      if frame.Other? && frame.control.Assigned? {
        remotePort := frame.control.port;
        Note(model.(main := C.Serving));
        return false;
      }
      HangUp();
      return true;
    }

    /** closeConn, and back to the head of the loop of `Start`. */
    method HangUp()
      requires Valid()
      modifies this`conn, this`model, if conn.Some? then {conn.value} else {}
      ensures Valid() && model == C.Drop(old(model), C.Head) && conn == None
      ensures old(conn).Some? ==> old(conn).value.down && old(conn).value.log == old(conn.value.log)
    {
      CloseConn();
      Note(model.(main := C.Head));
    }

    /** One tick of `heartbeatLoop`: the loop ends, and the WebSocket is closed, when the send fails. */
    method HeartbeatTick(fails: bool) returns (again: bool)
      requires Valid()
      modifies this`conn, this`model, if conn.Some? then {conn.value} else {}
      ensures Valid() && model == Beaten(old(model), fails)
      ensures again <==> old(conn).Some? && !old(conn.value.down) && !fails
      ensures again ==> conn == old(conn) && conn.value.log == old(conn.value.log) + [Other(Heartbeat)]
      ensures !again ==> conn == None
      ensures old(conn).Some? && !again ==> old(conn).value.down && old(conn).value.log == old(conn.value.log)
    {
      var err := SendMessage(Other(Heartbeat), fails);
      if err { CloseConn(); }
      again := !err;
    }

    /** `Stop`, up to its wait for `Start` to return. */
    method Stop()
      requires Valid()
      modifies this`conn, this`stopping, this`model, if conn.Some? then {conn.value} else {}
      ensures Valid() && stopping
      ensures model ==
              if old(stopping) then old(model) else C.Drop(old(model), old(model.main)).(stopping := true)
      ensures old(stopping) ==> conn == old(conn)
      ensures !old(stopping) ==>
                && conn == None
                && (old(conn).Some? ==> old(conn).value.down && old(conn).value.log == old(conn.value.log))
    {
      if stopping { return; }
      stopping := true;
      model := model.(stopping := true);
      CloseConn();
    }

    /** `local` is the connection dialed, if the dial succeeded. */
    method HandleConnOpen(id: ConnId, local: Option<Conn>, sendFails: bool)
      requires Valid() && model.session.Some?
      requires local.Some? ==>
                 && id !in dialed && local.value !in dialed.Values && local.value.open && !local.value.broken
                 && local.value.written == []
      modifies this`localConns, this`model, this`dialed, if conn.Some? then {conn.value} else {}
      ensures Valid()
      ensures local.Some? ==> model == Opened(old(model), id) && localConns == old(localConns)[id := local.value]
      ensures local.None? ==> model == SentOn(old(model), Close(id, false), sendFails) && localConns == old(localConns)
      ensures local.None? && conn.Some? && !old(conn.value.down) && !sendFails ==>
                conn.value.log == old(conn.value.log) + [Close(id, false)]
    {
      if local.None? {
        var err := SendMessage(Close(id, false), sendFails);
        return;
      }
      Enlist(id, local.value);
    }

    method Enlist(id: ConnId, local: Conn)
      requires Valid() && model.session.Some?
      requires id !in dialed && local !in dialed.Values && local.open && !local.broken && local.written == []
      modifies this`localConns, this`model, this`dialed
      ensures Valid() && model == Opened(old(model), id)
      ensures localConns == old(localConns)[id := local] && dialed == old(dialed)[id := local]
    {
      localConns := localConns[id := local];
      dialed := dialed[id := local];
      model := Opened(model, id);
    }

    /**
     `handleData`: a listed connection gets the bytes, and is closed and delisted if the write
     fails; for any other identifier a conn_close goes back.
     */
    method HandleData(id: ConnId, data: Bytes, n: nat, fails: bool, sendFails: bool)
      requires Valid() && n <= |data|
      modifies this`localConns, this`model, dialed.Values, if conn.Some? then {conn.value} else {}
      ensures Valid()
      ensures id in old(localConns) ==>
                var c := old(localConns)[id];
                var err := fails || old(c.broken) || !old(c.open);
                && c.written == old(c.written) + data[..Through(old(c.open), old(c.broken), data, n, fails)]
                && localConns == (if err then old(localConns) - {id} else old(localConns)) && (err ==> !c.open)
                && model == (if err then Closed(Written(old(model), id, data, n, fails), id)
                             else Written(old(model), id, data, n, fails))
      ensures id !in old(localConns) ==> model == SentOn(old(model), Close(id, false), sendFails)
      ensures id !in old(localConns) && conn.Some? && !old(conn.value.down) && !sendFails ==>
                conn.value.log == old(conn.value.log) + [Close(id, false)]
    {
      if id !in localConns {
        var err := SendMessage(Close(id, false), sendFails);
      } else {
        var err := WriteLocal(id, data, n, fails);
        if err { CloseLocalConn(id); }
      }
    }

    method WriteLocal(id: ConnId, data: Bytes, n: nat, fails: bool) returns (err: bool)
      requires Valid() && n <= |data| && id in localConns
      modifies this`model, dialed.Values
      ensures Valid() && model == Written(old(model), id, data, n, fails)
      ensures err == (fails || old(localConns[id].broken) || !old(localConns[id].open))
      ensures localConns[id].written == old(localConns[id].written)
              + data[..Through(old(localConns[id].open), old(localConns[id].broken), data, n, fails)]
    {
      err := localConns[id].Write(data, n, fails);
      model := Written(model, id, data, n, fails);
    }

    /**
     `readFromLocal`: every chunk read goes out in order until a send fails, then the connection
     is closed and its end reported. `count` chunks were read.
     */
    method ReadFromLocal(id: ConnId, inputs: seq<Bytes>, failing: nat, lastFails: bool)
      returns (count: nat, ghost states: seq<C.Client>)
      requires Valid() && id in model.locals
      modifies this`localConns, this`model, dialed.Values, if conn.Some? then {conn.value} else {}
      ensures Valid() && |states| == count + 1 && states[0] == old(model) && Trace(states, id, inputs, failing)
      ensures id in states[count].locals && model == Departed(states[count], id, lastFails)
      ensures count < |inputs| ==> !Connected(model)
    {
      count, states := ForwardAll(id, inputs, failing);
      Depart(id, lastFails);
    }

    /** The deferred function. */
    method Depart(id: ConnId, fails: bool)
      requires Valid() && id in model.locals
      modifies this`localConns, this`model, dialed.Values, if conn.Some? then {conn.value} else {}
      ensures Valid() && model == Departed(old(model), id, fails)
      ensures Connected(model) ==> Connected(old(model))
      ensures conn.Some? && !old(conn.value.down) && !fails ==>
                conn.value.log == old(conn.value.log) + [Close(id, true)]
    {
      ClosedKeeps(model, id, Close(id, true), fails);
      CloseLocalConn(id);
      ClosedKeeps(model, id, Close(id, true), fails);
      var err := SendMessage(Close(id, true), fails);
      ReportedShowsSame(model, id);
      Note(Reported(model, id));
    }

    /** The loop: it ends early only when a send fails. */
    method ForwardAll(id: ConnId, inputs: seq<Bytes>, failing: nat) returns (count: nat, ghost states: seq<C.Client>)
      requires Valid() && id in model.locals
      modifies this`model, if conn.Some? then {conn.value} else {}
      ensures Valid() && id in model.locals && (count < |inputs| ==> !Connected(model))
      ensures |states| == count + 1 && states[0] == old(model) && states[count] == model
              && Trace(states, id, inputs, failing)
    {
      count, states := 0, [model];
      while count < |inputs|
        invariant count <= |inputs| && Valid() && id in model.locals
        invariant |states| == count + 1 && states[0] == old(model) && states[count] == model
                  && Trace(states, id, inputs, failing)
      {
        var err;
        err, states := RelayNext(id, inputs, failing, count, states);
        count := count + 1;
        if err { return; }
      }
    }

    method RelayNext(id: ConnId, inputs: seq<Bytes>, failing: nat, count: nat, ghost states: seq<C.Client>)
      returns (err: bool, ghost next: seq<C.Client>)
      requires Valid() && id in model.locals && count < |inputs|
      requires |states| == count + 1 && states[count] == model && Trace(states, id, inputs, failing)
      modifies this`model, if conn.Some? then {conn.value} else {}
      ensures Valid() && id in model.locals && err == !Connected(model)
      ensures next == states + [model] && Trace(next, id, inputs, failing)
    {
      err := Relay(id, inputs[count], count == failing);
      TraceGrows(states, model, id, inputs, failing);
      next := states + [model];
    }

    method Relay(id: ConnId, data: Bytes, fails: bool) returns (err: bool)
      requires Valid() && id in model.locals
      modifies this`model, if conn.Some? then {conn.value} else {}
      ensures Valid() && Follows(old(model), model, id, data, fails) && err == !Connected(model)
      ensures id in model.locals
    {
      err := SendMessage(Data(id, data), fails);
      TookShowsSame(model, id, data, if err then C.Ending else C.Reading);
      Note(Took(model, id, data, if err then C.Ending else C.Reading));
    }
  }

  method CloseAll(conns: map<ConnId, Conn>)
    modifies conns.Values
    ensures forall c :: c in conns.Values ==> !c.open && c.broken == old(c.broken) && c.written == old(c.written)
  {
    var rest := conns;
    while rest != map[]
      invariant forall i :: i in rest ==> i in conns && rest[i] == conns[i]
      invariant forall c :: c in conns.Values ==> c.broken == old(c.broken) && c.written == old(c.written)
      invariant forall i :: i in conns && i !in rest ==> !conns[i].open
      decreases |rest|
    {
      var i :| i in rest;
      rest[i].Close();
      rest := rest - {i};
    }
  }
}
