/**
 The locks of the server and the clients, and why threads never wait for each other in a
 circle: every code path takes locks in increasing rank, and every I/O call returns.
 */
module Locks {
  import opened Wrappers

  datatype Lock =
    | ServerMu | WebMu | PoolMu | LoggerMu | RandMu
    | DeviceConnMu(device: nat) | ProxyMu(proxy: nat) | CountMu(proxy: nat)
    | ClientConnMu(client: nat) | ClientMu(client: nat)

  const TOP: nat := 2

  function Rank(l: Lock): (rank: nat)
    ensures rank <= TOP
  {
    match l
    case ServerMu => 0
    case ClientConnMu(_) => 0
    case LoggerMu => 2
    case _ => 1
  }

  // ---- Programs ------------------------------------------------------------------------

  /** `Do` is everything a thread does without asking for a lock, one I/O call for instance. */
  datatype Op = Acquire(lock: Lock, exclusive: bool) | Release(lock: Lock) | Do

  /** Code in which every lock is released in the block that took it. */
  datatype Code =
    | Act
    | Block(codes: seq<Code>)
    | Under(lock: Lock, exclusive: bool, body: Code)

  function Ops(c: Code): seq<Op>
    decreases c, if c.Block? then |c.codes| + 1 else 0
  {
    match c
    case Act => [Do]
    case Block(_) => OpsFrom(c, 0)
    case Under(l, exclusive, body) => [Acquire(l, exclusive)] + Ops(body) + [Release(l)]
  }

  function OpsFrom(c: Code, i: nat): seq<Op>
    requires c.Block? && i <= |c.codes|
    decreases c, |c.codes| - i
  {
    if i == |c.codes| then [] else Ops(c.codes[i]) + OpsFrom(c, i + 1)
  }

  /** The code only takes locks ranked above `floor`, and nests them in increasing rank. */
  predicate Ascends(c: Code, floor: int) {
    match c
    case Act => true
    case Block(codes) => forall i :: 0 <= i < |codes| ==> Ascends(codes[i], floor)
    case Under(l, _, body) => Rank(l) > floor && Ascends(body, Rank(l))
  }

  /** What a thread holding `held` has still to do is well ordered and releases everything. */
  predicate WellOrdered(held: map<Lock, bool>, todo: seq<Op>)
    decreases |todo|
  {
    if todo == [] then held == map[]
    else
      match todo[0]
      case Do => WellOrdered(held, todo[1..])
      case Acquire(l, exclusive) =>
        (forall m :: m in held ==> Rank(m) < Rank(l)) && WellOrdered(held[l := exclusive], todo[1..])
      case Release(l) => l in held && WellOrdered(held - {l}, todo[1..])
  }

  lemma {:induction false} AscendingIsWellOrdered(c: Code, floor: int, held: map<Lock, bool>, rest: seq<Op>)
    requires Ascends(c, floor) && forall m :: m in held ==> Rank(m) <= floor
    requires WellOrdered(held, rest)
    ensures WellOrdered(held, Ops(c) + rest)
    decreases c, if c.Block? then |c.codes| + 1 else 0
  {
    match c
    case Act => assert (Ops(c) + rest)[1..] == rest;
    case Block(_) => BlockIsWellOrdered(c, 0, floor, held, rest);
    case Under(l, exclusive, body) =>
      var inner, after := held[l := exclusive], [Release(l)] + rest;
      assert inner - {l} == held;
      assert after[1..] == rest;
      AscendingIsWellOrdered(body, Rank(l), inner, after);
      assert (Ops(c) + rest)[1..] == Ops(body) + after;
  }

  lemma {:induction false} BlockIsWellOrdered(c: Code, i: nat, floor: int, held: map<Lock, bool>, rest: seq<Op>)
    requires c.Block? && i <= |c.codes| && Ascends(c, floor) && forall m :: m in held ==> Rank(m) <= floor
    requires WellOrdered(held, rest)
    ensures WellOrdered(held, OpsFrom(c, i) + rest)
    decreases c, |c.codes| - i
  {
    if i == |c.codes| {
      assert OpsFrom(c, i) + rest == rest;
    } else {
      BlockIsWellOrdered(c, i + 1, floor, held, rest);
      AscendingIsWellOrdered(c.codes[i], floor, held, OpsFrom(c, i + 1) + rest);
      assert OpsFrom(c, i) + rest == Ops(c.codes[i]) + (OpsFrom(c, i + 1) + rest);
    }
  }

  // ---- Threads -------------------------------------------------------------------------

  /** `announced`: a writer that waits for the readers to leave; no new reader is let in. */
  datatype Thread = Thread(held: map<Lock, bool>, todo: seq<Op>, announced: bool)

  type Threads = map<nat, Thread>

  predicate Announces(t: Thread, l: Lock) { t.announced && t.todo != [] && t.todo[0] == Acquire(l, true) }

  /** A writer holds the lock or has announced itself. */
  predicate Claimed(t: Thread, l: Lock) { Announces(t, l) || (l in t.held && t.held[l]) }

  predicate NoneClaims(w: Threads, l: Lock) { forall t :: t in w ==> !Claimed(w[t], l) }

  predicate NoneHolds(w: Threads, l: Lock) { forall t :: t in w ==> l !in w[t].held }

  predicate CanStep(w: Threads, t: nat) {
    && t in w && w[t].todo != []
    && match w[t].todo[0]
       case Do => true
       case Release(_) => true
       case Acquire(l, exclusive) => if w[t].announced then NoneHolds(w, l) else NoneClaims(w, l)
  }

  function Step(w: Threads, t: nat): Threads
    requires CanStep(w, t)
  {
    var me := w[t];
    w[t := match me.todo[0]
           case Do => me.(todo := me.todo[1..])
           case Release(l) => me.(held := me.held - {l}, todo := me.todo[1..])
           case Acquire(l, exclusive) =>
             if exclusive && !me.announced then me.(announced := true)
             else Thread(me.held[l := exclusive], me.todo[1..], false)]
  }

  ghost predicate ThreadOk(t: Thread) {
    WellOrdered(t.held, t.todo) && (t.announced ==> exists l :: Announces(t, l))
  }

  /** Two threads hold one lock only as readers, and nobody holds a lock a second writer claims. */
  ghost predicate Compatible(a: Thread, b: Thread) {
    forall l :: Claimed(a, l) ==> !Claimed(b, l) && !(l in b.held && l in a.held)
  }

  ghost predicate Inv(w: Threads) {
    && (forall t :: t in w ==> ThreadOk(w[t]))
    && (forall t, u :: t in w && u in w && t != u ==> Compatible(w[t], w[u]))
  }

  lemma StepInv(w: Threads, t: nat)
    requires Inv(w) && CanStep(w, t)
    ensures Inv(Step(w, t))
  {
    var w' := Step(w, t);
    StepKeepsThread(w, t);
    forall u, v | u in w' && v in w' && u != v ensures Compatible(w'[u], w'[v]) {
      assert Compatible(w[u], w[v]) && Compatible(w[v], w[u]);
      if u == t { StepCompatible(w, t, v); }
      else if v == t { StepCompatible(w, t, u); }
    }
  }

  lemma StepKeepsThread(w: Threads, t: nat)
    requires CanStep(w, t) && ThreadOk(w[t])
    ensures ThreadOk(Step(w, t)[t])
  {
    var me := w[t];
    if me.todo[0].Acquire? && me.todo[0].exclusive && !me.announced {
      assert Announces(Step(w, t)[t], me.todo[0].lock);
    }
    if me.announced { var l :| Announces(me, l); }
  }

  lemma StepCompatible(w: Threads, t: nat, v: nat)
    requires CanStep(w, t) && v in w && v != t && ThreadOk(w[t]) && Compatible(w[t], w[v]) && Compatible(w[v], w[t])
    ensures Compatible(Step(w, t)[t], w[v]) && Compatible(w[v], Step(w, t)[t])
  {
    var me := w[t];
    if me.announced { var l :| Announces(me, l); assert !Claimed(w[v], l); }
  }

  /** Mutual exclusion: a lock held for writing is held by nobody else. */
  lemma Exclusion(w: Threads, t: nat, u: nat, l: Lock)
    requires Inv(w) && t in w && u in w && t != u && l in w[t].held && l in w[u].held
    ensures !w[t].held[l] && !w[u].held[l]
  {
    assert Compatible(w[t], w[u]) && Compatible(w[u], w[t]);
  }

  // ---- Waiting -------------------------------------------------------------------------

  /** Thread `u` is in the way of the lock that `t` asks for next. */
  predicate WaitsFor(w: Threads, t: nat, u: nat) {
    && t in w && u in w && w[t].todo != [] && w[t].todo[0].Acquire?
    && var l := w[t].todo[0].lock;
       if w[t].announced then l in w[u].held else Claimed(w[u], l)
  }

  /** A thread that is not done can step unless it waits for another. */
  lemma StepsUnlessWaiting(w: Threads, t: nat)
    requires t in w && w[t].todo != []
    ensures CanStep(w, t) <==> !exists u :: WaitsFor(w, t, u)
  {
    if w[t].todo[0].Acquire? && !CanStep(w, t) {
      var l := w[t].todo[0].lock;
      if w[t].announced {
        var u :| u in w && l in w[u].held;
        assert WaitsFor(w, t, u);
      } else {
        var u :| u in w && Claimed(w[u], l);
        assert WaitsFor(w, t, u);
      }
    }
  }

  const SUMMIT: nat := 2 * TOP + 2

  /** How far up the order a thread has come: a writer that announced itself is above one that has not. */
  function Height(t: Thread): nat {
    if t.todo != [] && t.todo[0].Acquire? then 2 * Rank(t.todo[0].lock) + (if t.announced then 1 else 0) else SUMMIT
  }

  /** Waiting goes up. */
  lemma WaitingClimbs(w: Threads, t: nat, u: nat)
    requires Inv(w) && WaitsFor(w, t, u)
    ensures w[u].todo != [] && Height(w[t]) < Height(w[u]) <= SUMMIT
  {
    assert ThreadOk(w[t]) && ThreadOk(w[u]);
  }

  /** Each thread of the chain waits for the next. */
  predicate Chain(w: Threads, chain: seq<nat>) {
    chain != [] && forall i :: 0 <= i < |chain| - 1 ==> WaitsFor(w, chain[i], chain[i + 1])
  }

  lemma {:induction false} ChainClimbs(w: Threads, chain: seq<nat>)
    requires Inv(w) && Chain(w, chain) && forall t :: t in chain ==> t in w
    ensures Height(w[chain[0]]) + |chain| - 1 <= Height(w[chain[|chain| - 1]]) <= SUMMIT
    decreases |chain|
  {
    if |chain| > 1 {
      var n := |chain| - 1;
      assert WaitsFor(w, chain[n - 1], chain[n]);
      WaitingClimbs(w, chain[n - 1], chain[n]);
      ChainClimbs(w, chain[..n]);
    }
  }

  /** The last thread of a chain waits for the first. */
  predicate Circle(w: Threads, chain: seq<nat>) {
    Chain(w, chain) && WaitsFor(w, chain[|chain| - 1], chain[0])
  }

  lemma NoCircle(w: Threads, chain: seq<nat>)
    requires Inv(w)
    ensures !Circle(w, chain)
  {
    if Circle(w, chain) {
      forall t | t in chain ensures t in w {
        var i :| 0 <= i < |chain| && chain[i] == t;
        assert i < |chain| - 1 ==> WaitsFor(w, chain[i], chain[i + 1]);
      }
      ChainClimbs(w, chain);
      WaitingClimbs(w, chain[|chain| - 1], chain[0]);
    }
  }

  /** Whom a thread waits for waits in its turn, or can step; following the waits ends with one that can. */
  lemma {:induction false} FollowWaits(w: Threads, t: nat) returns (chain: seq<nat>)
    requires Inv(w) && t in w && w[t].todo != []
    ensures Chain(w, chain) && chain[0] == t && CanStep(w, chain[|chain| - 1])
    decreases SUMMIT - Height(w[t])
  {
    StepsUnlessWaiting(w, t);
    if CanStep(w, t) { return [t]; }
    var u :| WaitsFor(w, t, u);
    WaitingClimbs(w, t, u);
    var rest := FollowWaits(w, u);
    chain := [t] + rest;
    forall i | 0 <= i < |chain| - 1 ensures WaitsFor(w, chain[i], chain[i + 1]) {
      assert i > 0 ==> WaitsFor(w, rest[i - 1], rest[i]);
    }
  }

  // ---- The code paths ------------------------------------------------------------------

  function Read(l: Lock, body: Code): Code { Under(l, false, body) }

  function Write(l: Lock, body: Code): Code { Under(l, true, body) }

  function Times(n: nat, c: Code): Code { Block(seq(n, _ => c)) }

  function Log(): Code { Write(LoggerMu, Act) }

  /** BroadcastDevices, to `admins` administrators. */
  function Broadcast(admins: nat): Code {
    Block([Read(WebMu, Act), Times(admins, Block([Read(ServerMu, Act), Act]))])
  }

  /** sendMessage of the server; `device` is the one registered on the connection, if any. */
  function ServerSends(device: Option<nat>): Code {
    Block([Read(ServerMu, Act), if device.Some? then Write(DeviceConnMu(device.value), Act) else Act, Log()])
  }

  /** sendToClient logs before it gives the write lock back. */
  function ProxySends(device: nat): Code { Write(DeviceConnMu(device), Block([Act, Log()])) }

  function StopProxy(proxy: nat): Code { Block([Write(ProxyMu(proxy), Act), Act]) }

  function StopAll(proxies: seq<nat>): Code {
    Block(seq(|proxies|, i requires 0 <= i < |proxies| => StopProxy(proxies[i])))
  }

  /** sendMessage of the client. */
  function ClientSends(client: nat): Code {
    Block([Write(ClientConnMu(client), Block([Read(ClientMu(client), Act), Act])), Log()])
  }

  datatype Path =
    | RegisterRefused(owner: Option<nat>)                       // server.go:205-231
    | RegisterFails(owner: Option<nat>, asked: bool)        // server.go:234-256
    | Registered(device: nat, admins: nat)                       // server.go:234-280
    | HandleHeartbeat(owner: Option<nat>)                       // server.go:284-298
    | HandleData(found: Option<nat>)                             // server.go:301-332, proxy.go:216-240
    | HandleConnClose(found: Option<nat>)                        // server.go:335-357, proxy.go:243-250
    | HandleDisconnect(found: Option<nat>, admins: nat)          // server.go:360-387
    | CheckHeartbeat(late: nat)                                  // server.go:396-412
    | CheckExpired(expired: seq<nat>, admins: nat)               // server.go:567-594
    | EnableDevice(admins: nat)                                  // server.go:473-514
    | DisableDevice(found: Option<nat>, admins: nat)             // server.go:517-557
    | StopServer(proxies: seq<nat>)                              // server.go:102-147
    | GetDevices                                                 // server.go:454-470
    | PortPoolCall                                               // port_pool.go:61-82
    | AcceptConn(proxy: nat, device: nat)                        // proxy.go:127-168
    | AcceptOverLimit(proxy: nat)                                // proxy.go:139-147
    | ForwardToClient(device: nat)                               // proxy.go:196-210
    | EndReadLoop(proxy: nat, device: nat)                       // proxy.go:175-188
    | WebSection(exclusive: bool)                                // web.go:68-74, 129-131, 293-306, 330-359
    | ClientSection(client: nat, exclusive: bool)                // client.go:46-52, 104-108, 137-139, 295-297, 375-418
    | ClientSend(client: nat)                                    // client.go:421-467
    | ClientHandlesData(client: nat)                             // client.go:313-338
    | EndLocalRead(client: nat)                                  // client.go:343-347

  function Paths(p: Path): Code {
    match p
    case RegisterRefused(device) => Block([Log(), Read(ServerMu, Act), ServerSends(device), Act])
    case RegisterFails(device, asked) =>
      Block([Read(ServerMu, Act), Write(ServerMu, if asked then Write(PoolMu, Act) else Act), ServerSends(device)])
    case Registered(device, admins) =>
      Block([Read(ServerMu, Act), Write(ServerMu, Block([Write(PoolMu, Act), Act])), Broadcast(admins), Log(),
             ServerSends(Some(device))])
    case HandleHeartbeat(device) =>
      Block([Read(ServerMu, Act), if device.Some? then Write(DeviceConnMu(device.value), Act) else Act])
    case HandleData(proxy) =>
      Block([Read(ServerMu, Act), Log(),
             if proxy.Some? then Block([Read(ProxyMu(proxy.value), Act), Act, Log()]) else Act])
    case HandleConnClose(proxy) =>
      Block([Read(ServerMu, Act), Log(), if proxy.Some? then Write(ProxyMu(proxy.value), Act) else Act])
    case HandleDisconnect(proxy, admins) =>
      Block([Write(ServerMu, Block([Log(), Write(PoolMu, Act), Act])),
             if proxy.Some? then StopProxy(proxy.value) else Act, Broadcast(admins)])
    case CheckHeartbeat(late) => Block([Write(ServerMu, Times(late, Log())), Act])
    case CheckExpired(expired, admins) =>
      Block([Write(ServerMu, Times(|expired|, Log())), StopAll(expired), Broadcast(admins)])
    case EnableDevice(admins) => Block([Write(ServerMu, Block([Log(), Act, Log(), Act])), Broadcast(admins)])
    case DisableDevice(proxy, admins) =>
      Block([Write(ServerMu, Block([Act, Log()])),
             if proxy.Some? then StopProxy(proxy.value) else Act, Broadcast(admins)])
    case StopServer(proxies) => Block([Write(WebMu, Act), Act, Write(ServerMu, Act), StopAll(proxies), Act, Log()])
    case GetDevices => Read(ServerMu, Act)
    case PortPoolCall => Write(PoolMu, Act)
    case AcceptConn(proxy, device) =>
      Block([Act, Write(CountMu(proxy), Act), Times(8, Write(RandMu, Act)), Write(ProxyMu(proxy), Act), Log(),
             ProxySends(device)])
    case AcceptOverLimit(proxy) => Block([Act, Write(CountMu(proxy), Act), Act, Log()])
    case ForwardToClient(device) => Block([Act, Log(), ProxySends(device)])
    case EndReadLoop(proxy, device) =>
      Block([ProxySends(device), Act, Write(ProxyMu(proxy), Act), Write(CountMu(proxy), Act)])
    case WebSection(exclusive) => Under(WebMu, exclusive, Act)
    case ClientSection(client, exclusive) => Block([Under(ClientMu(client), exclusive, Act), Act, Log()])
    case ClientSend(client) => ClientSends(client)
    case ClientHandlesData(client) =>
      Block([Read(ClientMu(client), Act), Act, Log(), Write(ClientMu(client), Act), ClientSends(client)])
    case EndLocalRead(client) => Block([Log(), Write(ClientMu(client), Act), ClientSends(client)])
  }

  /** A leaf section is one that takes no further lock but the logger's. */
  lemma LeafAscends(l: Lock, exclusive: bool, floor: int)
    requires floor < Rank(l)
    ensures Ascends(Under(l, exclusive, Act), floor)
    ensures Rank(l) < Rank(LoggerMu) ==> Ascends(Under(l, exclusive, Block([Act, Log()])), floor)
  {
    assert Ascends(Log(), 1) && Ascends(Log(), 0);
    assert Ascends(Block([Act, Log()]), Rank(l)) || Rank(l) >= Rank(LoggerMu);
  }

  lemma PartsAscend(admins: nat, owner: Option<nat>, device: nat, proxy: nat, client: nat)
    ensures Ascends(Broadcast(admins), -1) && Ascends(ServerSends(owner), -1) && Ascends(ProxySends(device), -1)
    ensures Ascends(StopProxy(proxy), -1) && Ascends(ClientSends(client), -1)
  {
    LeafAscends(DeviceConnMu(device), true, -1);
    assert Ascends(Block([Read(ClientMu(client), Act), Act]), 0);
    assert Ascends(Write(ClientConnMu(client), Block([Read(ClientMu(client), Act), Act])), -1);
  }

  lemma StopAllAscends(proxies: seq<nat>)
    ensures Ascends(StopAll(proxies), -1)
  {
    forall i | 0 <= i < |proxies| ensures Ascends(StopProxy(proxies[i]), -1) {
      LeafAscends(ProxyMu(proxies[i]), true, -1);
    }
  }

  /** What the server does under its lock: log, and ask the port pool. */
  lemma SectionsAscend(n: nat)
    ensures Ascends(Write(ServerMu, Block([Write(PoolMu, Act), Act])), -1)
    ensures Ascends(Write(ServerMu, Block([Log(), Write(PoolMu, Act), Act])), -1)
    ensures Ascends(Write(ServerMu, Block([Act, Log()])), -1)
    ensures Ascends(Write(ServerMu, Block([Log(), Act, Log(), Act])), -1)
    ensures Ascends(Write(ServerMu, Times(n, Log())), -1)
  {
    assert Ascends(Log(), 0);
    assert Ascends(Block([Write(PoolMu, Act), Act]), 0);
    assert Ascends(Block([Log(), Write(PoolMu, Act), Act]), 0);
    assert Ascends(Block([Act, Log()]), 0);
    assert Ascends(Block([Log(), Act, Log(), Act]), 0);
    assert Ascends(Times(n, Log()), 0);
  }

  lemma MessagePathsAscend(p: Path)
    requires p.RegisterRefused? || p.RegisterFails? || p.Registered? || p.HandleHeartbeat? || p.HandleData?
             || p.HandleConnClose?
    ensures Ascends(Paths(p), -1)
  {
    match p
    case RegisterRefused(owner) => PartsAscend(0, owner, 0, 0, 0);
    case RegisterFails(owner, asked) =>
      PartsAscend(0, owner, 0, 0, 0);
      assert Ascends(if asked then Write(PoolMu, Act) else Act, 0);
      assert Ascends(Write(ServerMu, if asked then Write(PoolMu, Act) else Act), -1);
    case Registered(device, admins) =>
      PartsAscend(admins, Some(device), 0, 0, 0);
      SectionsAscend(0);
    case HandleData(found) =>
      if found.Some? { assert Ascends(Block([Read(ProxyMu(found.value), Act), Act, Log()]), -1); }
    case _ =>
  }

  lemma AdminPathsAscend(p: Path)
    requires p.HandleDisconnect? || p.CheckHeartbeat? || p.CheckExpired? || p.EnableDevice? || p.DisableDevice?
             || p.StopServer?
    ensures Ascends(Paths(p), -1)
  {
    match p
    case HandleDisconnect(found, admins) =>
      PartsAscend(admins, None, 0, if found.Some? then found.value else 0, 0);
      SectionsAscend(0);
    case CheckHeartbeat(late) => SectionsAscend(late);
    case CheckExpired(expired, admins) =>
      PartsAscend(admins, None, 0, 0, 0);
      StopAllAscends(expired);
      SectionsAscend(|expired|);
    case EnableDevice(admins) =>
      PartsAscend(admins, None, 0, 0, 0);
      SectionsAscend(0);
    case DisableDevice(found, admins) =>
      PartsAscend(admins, None, 0, if found.Some? then found.value else 0, 0);
      SectionsAscend(0);
    case StopServer(proxies) => StopAllAscends(proxies);
  }

  lemma ConnPathsAscend(p: Path)
    requires p.AcceptConn? || p.AcceptOverLimit? || p.ForwardToClient? || p.EndReadLoop?
    ensures Ascends(Paths(p), -1)
  {
    match p
    case AcceptConn(_, device) =>
      PartsAscend(0, None, device, 0, 0);
      assert Ascends(Times(8, Write(RandMu, Act)), -1);
    case AcceptOverLimit(_) =>
    case ForwardToClient(device) => PartsAscend(0, None, device, 0, 0);
    case EndReadLoop(_, device) => PartsAscend(0, None, device, 0, 0);
  }

  lemma ClientPathsAscend(p: Path)
    requires p.ClientSend? || p.ClientHandlesData? || p.EndLocalRead?
    ensures Ascends(Paths(p), -1)
  {
    match p
    case ClientSend(client) => PartsAscend(0, None, 0, 0, client);
    case ClientHandlesData(client) => PartsAscend(0, None, 0, 0, client);
    case EndLocalRead(client) => PartsAscend(0, None, 0, 0, client);
  }

  /** Every code path takes its locks in increasing rank. */
  lemma PathsAscend(p: Path)
    ensures Ascends(Paths(p), -1)
  {
    match p
    case GetDevices =>
    case PortPoolCall =>
    case WebSection(exclusive) =>
    case ClientSection(client, exclusive) => assert Ascends(Under(ClientMu(client), exclusive, Act), -1);
    case _ =>
      if p.AcceptConn? || p.AcceptOverLimit? || p.ForwardToClient? || p.EndReadLoop? { ConnPathsAscend(p); }
      else if p.ClientSend? || p.ClientHandlesData? || p.EndLocalRead? { ClientPathsAscend(p); }
      else if p.HandleDisconnect? || p.CheckHeartbeat? || p.CheckExpired? || p.EnableDevice? || p.DisableDevice?
          || p.StopServer? {
        AdminPathsAscend(p);
      } else { MessagePathsAscend(p); }
  }

  // ---- Runs ----------------------------------------------------------------------------

  /** A new thread starts on a code path, a thread that has finished one starts another. */
  datatype Move = Begin(thread: nat, path: Path) | Go(thread: nat)

  predicate CanMove(w: Threads, m: Move) {
    match m
    case Begin(t, _) => t in w ==> w[t].todo == []
    case Go(t) => CanStep(w, t)
  }

  function Moved(w: Threads, m: Move): Threads
    requires CanMove(w, m)
  {
    match m
    case Begin(t, path) => w[t := Thread(map[], Ops(Paths(path)), false)]
    case Go(t) => Step(w, t)
  }

  predicate Allowed(w: Threads, moves: seq<Move>)
    decreases |moves|
  {
    moves == [] || (CanMove(w, moves[0]) && Allowed(Moved(w, moves[0]), moves[1..]))
  }

  function After(w: Threads, moves: seq<Move>): Threads
    requires Allowed(w, moves)
    decreases |moves|
  {
    if moves == [] then w else After(Moved(w, moves[0]), moves[1..])
  }

  lemma BeginInv(w: Threads, t: nat, path: Path)
    requires Inv(w) && CanMove(w, Begin(t, path))
    ensures Inv(Moved(w, Begin(t, path)))
  {
    var w' := Moved(w, Begin(t, path));
    PathsAscend(path);
    AscendingIsWellOrdered(Paths(path), -1, map[], []);
    assert Ops(Paths(path)) + [] == Ops(Paths(path));
    forall u, v | u in w' && v in w' && u != v ensures Compatible(w'[u], w'[v]) {
      assert u in w && v in w ==> Compatible(w[u], w[v]);
    }
  }

  lemma {:induction false} RunInv(w: Threads, moves: seq<Move>)
    requires Inv(w) && Allowed(w, moves)
    ensures Inv(After(w, moves))
    decreases |moves|
  {
    if moves != [] {
      if moves[0].Begin? { BeginInv(w, moves[0].thread, moves[0].path); } else { StepInv(w, moves[0].thread); }
      RunInv(Moved(w, moves[0]), moves[1..]);
    }
  }

  /**
   Freedom from deadlock: whichever code paths run in whichever interleaving, threads never wait
   for each other in a circle, and no lock is ever held by a writer and by another thread.
   */
  lemma NoDeadlock(moves: seq<Move>)
    requires Allowed(map[], moves)
    ensures forall chain :: !Circle(After(map[], moves), chain)
    ensures var w := After(map[], moves);
            forall a, b, l :: a in w && b in w && a != b && l in w[a].held && l in w[b].held ==> !w[a].held[l]
  {
    RunInv(map[], moves);
    var w := After(map[], moves);
    forall chain ensures !Circle(w, chain) { NoCircle(w, chain); }
    forall a, b, l | a in w && b in w && a != b && l in w[a].held && l in w[b].held ensures !w[a].held[l] {
      Exclusion(w, a, b, l);
    }
  }

  /**
   So every thread that is not done can step, or waits, through others that wait, for a thread
   that can; and every chain of waiting threads is short.
   */
  lemma WaitsEnd(moves: seq<Move>, t: nat)
    requires Allowed(map[], moves) && t in After(map[], moves) && After(map[], moves)[t].todo != []
    ensures var w := After(map[], moves);
      && (exists chain :: Chain(w, chain) && chain[0] == t && CanStep(w, chain[|chain| - 1]))
      && forall chain :: Chain(w, chain) && (forall u :: u in chain ==> u in w) ==> |chain| <= SUMMIT + 1
  {
    RunInv(map[], moves);
    var w := After(map[], moves);
    var some := FollowWaits(w, t);
    forall chain | Chain(w, chain) && forall u :: u in chain ==> u in w ensures |chain| <= SUMMIT + 1 {
      ChainClimbs(w, chain);
    }
  }

  /** The broadcast must stay outside the server lock: inside it, the thread waits for itself. */
  lemma BroadcastUnderLockSticks(admins: nat)
    requires admins > 0
    ensures !Ascends(Write(ServerMu, Broadcast(admins)), -1)
    ensures var w: Threads := map[0 := Thread(map[ServerMu := true], Ops(Read(ServerMu, Act)), false)]; !CanStep(w, 0)
  {
    assert !Ascends(Broadcast(admins).codes[1].codes[0].codes[0], 0);
    assert !Ascends(Broadcast(admins).codes[1].codes[0], 0);
    assert !Ascends(Broadcast(admins).codes[1], 0);
    var w: Threads := map[0 := Thread(map[ServerMu := true], Ops(Read(ServerMu, Act)), false)];
    assert Ops(Read(ServerMu, Act))[0] == Acquire(ServerMu, false);
    assert Claimed(w[0], ServerMu);
  }
}
