/**
 The device limit (server.go:223-260). The limit is checked in one critical section and the
 device inserted in a later one, so several registrations may pass the check together.
 */
module Limits {
  import opened PortPools
  import opened Registries

  /** `passed` are the handlers between their limit check and their insertion. */
  datatype Admission = Admission(r: Registry, maxDevices: int, open: set<Ws>, passed: set<Ws>)

  predicate BelowLimit(a: Admission) { !Full(a.r, a.maxDevices) }

  datatype Step =
    | Connect(ws: Ws)
    | Check(ws: Ws)                                   // first section of a registration
    | Insert(ws: Ws, request: Request, now: Time)     // second section
    | Leave(ws: Ws)                                   // the handler's loop ends
    | Other(e: Event)                                 // enable, disable, sweep, heartbeat

  /** A handler runs one message at a time, and only while its connection is open. */
  predicate Can(a: Admission, s: Step) {
    match s
    case Connect(ws) => ws !in a.open
    case Check(ws) => ws in a.open && ws !in a.passed
    case Insert(ws, _, _) => ws in a.passed
    case Leave(ws) => ws in a.open && ws !in a.passed
    case Other(e) => !e.ERegister? && !e.EDisconnect?
  }

  function Take(a: Admission, s: Step): Admission {
    match s
    case Connect(ws) => a.(open := a.open + {ws})
    case Check(ws) => if BelowLimit(a) then a.(passed := a.passed + {ws}) else a
    case Insert(ws, request, now) => a.(r := Register(a.r, ws, request, now).0, passed := a.passed - {ws})
    case Leave(ws) => a.(r := Disconnect(a.r, ws).0, open := a.open - {ws})
    case Other(e) => a.(r := Next(a.r, e))
  }

  /** A run in which at most `racing` handlers are ever between check and insertion. */
  ghost predicate Legal(a: Admission, steps: seq<Step>, racing: nat)
    decreases |steps|
  {
    |a.passed| <= racing && (steps == [] || (Can(a, steps[0]) && Legal(Take(a, steps[0]), steps[1..], racing)))
  }

  function Final(a: Admission, steps: seq<Step>): Admission
    decreases |steps|
  {
    if steps == [] then a else Final(Take(a, steps[0]), steps[1..])
  }

  ghost predicate Bounded(a: Admission, racing: nat) {
    && Consistent(a.r) && a.passed <= a.open
    && (a.maxDevices > 0 ==> |a.r.devices| + |a.passed| <= a.maxDevices - 1 + racing)
  }

  lemma DeviceCountChange(r: Registry, e: Event)
    requires !e.ERegister?
    ensures |Next(r, e).devices| <= |r.devices|
  {
    match e
    case EDisconnect(ws) =>
      assert Disconnect(r, ws).0.devices.Keys <= r.devices.Keys;
      Fewer(Disconnect(r, ws).0.devices.Keys, r.devices.Keys);
    case ESweep(now) => assert Sweep(r, now).devices.Keys == r.devices.Keys;
    case EEnable(_, _, _, _) =>
    case EDisable(_) =>
    case EBeat(_, _) =>
  }

  lemma {:induction false} Fewer<T>(a: set<T>, b: set<T>)
    requires a <= b
    ensures |a| <= |b|
  {
    assert b == a + (b - a);
  }

  lemma InsertBounded(a: Admission, ws: Ws, request: Request, now: Time, racing: nat)
    requires Bounded(a, racing) && ws in a.passed
    ensures Bounded(Take(a, Insert(ws, request, now)), racing)
  {
    RegisterConsistent(a.r, ws, request, now);
    assert |a.passed - {ws}| == |a.passed| - 1;
    RegisterCount(a.r, ws, request, now);
  }

  lemma StepBounded(a: Admission, s: Step, racing: nat)
    requires Bounded(a, racing) && Can(a, s) && |Take(a, s).passed| <= racing
    ensures Bounded(Take(a, s), racing)
  {
    match s
    case Connect(ws) =>
    case Check(ws) =>
    case Insert(ws, request, now) => InsertBounded(a, ws, request, now, racing);
    case Leave(ws) =>
      NextConsistent(a.r, EDisconnect(ws));
      DeviceCountChange(a.r, EDisconnect(ws));
    case Other(e) =>
      NextConsistent(a.r, e);
      DeviceCountChange(a.r, e);
  }

  /**
   With a positive limit, `racing` handlers allowed between check and insertion at once, and
   the run started empty, there are never more than `maxDevices - 1 + racing` devices: the
   limit itself when registrations are serialised (`racing == 1`).
   */
  lemma {:induction false} LimitWithRaces(a: Admission, steps: seq<Step>, racing: nat)
    requires Bounded(a, racing) && Legal(a, steps, racing)
    ensures Bounded(Final(a, steps), racing)
    ensures a.maxDevices > 0 ==> |Final(a, steps).r.devices| <= a.maxDevices - 1 + racing
    decreases |steps|
  {
    if steps != [] {
      StepBounded(a, steps[0], racing);
      LimitWithRaces(Take(a, steps[0]), steps[1..], racing);
    }
  }

  function Start(portStart: int, portEnd: int, maxDevices: int): Admission {
    Admission(NewRegistry(portStart, portEnd), maxDevices, {}, {})
  }

  /** A run in which at most `k` connections are open at any moment. */
  ghost predicate FewConnections(a: Admission, steps: seq<Step>, k: nat)
    decreases |steps|
  {
    |a.open| <= k && (steps == [] || (Can(a, steps[0]) && FewConnections(Take(a, steps[0]), steps[1..], k)))
  }

  lemma {:induction false} OpenBoundsRaces(a: Admission, steps: seq<Step>, k: nat)
    requires a.passed <= a.open && FewConnections(a, steps, k)
    ensures Legal(a, steps, k)
    decreases |steps|
  {
    Fewer(a.passed, a.open);
    if steps != [] { OpenBoundsRaces(Take(a, steps[0]), steps[1..], k); }
  }

  /** Never more than `maxDevices - 1 + k` devices while at most `k` connections are open. */
  lemma LimitWithOpenConnections(portStart: int, portEnd: int, maxDevices: int, steps: seq<Step>, k: nat)
    requires 0 < maxDevices && 0 < k
    requires FewConnections(Start(portStart, portEnd, maxDevices), steps, k)
    ensures |Final(Start(portStart, portEnd, maxDevices), steps).r.devices| <= maxDevices - 1 + k
  {
    var a := Start(portStart, portEnd, maxDevices);
    NewConsistent(portStart, portEnd);
    OpenBoundsRaces(a, steps, k);
    LimitWithRaces(a, steps, k);
  }

  /** The limit alone is not kept: at one below it, two handlers that check together both get in. */
  lemma LimitCanBeExceeded(a: Admission, x: Ws, y: Ws, p: Request, q: Request, now: Time)
    requires Consistent(a.r) && a.maxDevices > 0 && |a.r.devices| == a.maxDevices - 1
    requires {x, y} <= a.open && x != y && a.passed == {}
    requires p.name != q.name && p.name !in a.r.devices && q.name !in a.r.devices
    requires exists i, j :: a.r.pool.Free(i) && a.r.pool.Free(j) && i != j
    ensures Can(a, Check(x))
    ensures var a1 := Take(a, Check(x)); Can(a1, Check(y))
    ensures var a2 := Take(Take(a, Check(x)), Check(y)); Can(a2, Insert(x, p, now))
    ensures var a3 := Take(Take(Take(a, Check(x)), Check(y)), Insert(x, p, now));
            Can(a3, Insert(y, q, now)) && |Take(a3, Insert(y, q, now)).r.devices| == a.maxDevices + 1
  {
    var a2 := a.(passed := {x, y});
    BothPass(a, x, y);
    var i, j :| a.r.pool.Free(i) && a.r.pool.Free(j) && i != j;
    var first := RegisterSucceeds(a.r, x, p, now);
    var a3 := Take(a2, Insert(x, p, now));
    assert a3.r.pool.Free(i) || a3.r.pool.Free(j);
    SecondGetsIn(a3, y, q, now);
  }

  lemma BothPass(a: Admission, x: Ws, y: Ws)
    requires BelowLimit(a) && {x, y} <= a.open && x != y && a.passed == {}
    ensures Can(a, Check(x)) && Can(Take(a, Check(x)), Check(y))
    ensures Take(Take(a, Check(x)), Check(y)) == a.(passed := {x, y})
  {
  }

  lemma SecondGetsIn(a: Admission, y: Ws, q: Request, now: Time)
    requires Consistent(a.r) && y in a.passed && q.name !in a.r.devices && exists i :: a.r.pool.Free(i)
    ensures |Take(a, Insert(y, q, now)).r.devices| == |a.r.devices| + 1
  {
    var second := RegisterSucceeds(a.r, y, q, now);
  }

  // ---- The bound is reached ------------------------------------------------------------

  function Name(n: nat): string { seq(n + 1, _ => 'a') }

  function UpTo(n: nat): (s: set<Ws>)
    ensures |s| == n && forall ws: Ws :: ws in s <==> ws < n
  {
    if n == 0 then {} else UpTo(n - 1) + {n - 1}
  }

  /** `d` devices are registered, and `k` connections are open. */
  ghost predicate Holding(a: Admission, d: nat, k: nat) {
    && Consistent(a.r) && a.open == UpTo(k) && |a.r.devices| == d && a.r.pool.start <= a.r.pool.end + 1
    && forall i: nat :: Name(i) in a.r.devices <==> i < d
  }

  lemma RoomLeft(a: Admission, d: nat, k: nat)
    requires Holding(a, d, k) && d < a.r.pool.Size()
    ensures exists port :: a.r.pool.Free(port)
  {
    DevicesAreUsedPorts(a.r);
    PortAccounting(a.r.pool);
    var port :| port in a.r.pool.FreePorts();
    assert a.r.pool.Free(port);
  }

  function NextInsert(ws: Ws, d: nat): Step { Insert(ws, Request(Name(d), "", 80), 0) }

  lemma NamesNext(devices: map<string, Device>, devices': map<string, Device>, d: nat)
    requires forall i: nat :: Name(i) in devices <==> i < d
    requires Name(d) in devices' && devices' == devices[Name(d) := devices'[Name(d)]]
    ensures forall i: nat :: Name(i) in devices' <==> i < d + 1
  {
    forall i: nat ensures Name(i) in devices' <==> i < d + 1 { assert |Name(i)| == i + 1 && |Name(d)| == d + 1; }
  }

  lemma InsertNext(a: Admission, ws: Ws, d: nat, k: nat)
    requires Holding(a, d, k) && d < a.r.pool.Size() && ws in a.passed
    ensures var b := Take(a, NextInsert(ws, d));
            && Holding(b, d + 1, k) && b.passed == a.passed - {ws} && b.maxDevices == a.maxDevices
            && b.r.pool.Size() == a.r.pool.Size()
  {
    RoomLeft(a, d, k);
    var request := Request(Name(d), "", 80);
    var port := RegisterSucceeds(a.r, ws, request, 0);
    NextKeepsRange(a.r, ERegister(ws, request, 0));
    NamesNext(a.r.devices, Register(a.r, ws, request, 0).0.devices, d);
  }

  /** One step in front of a run. */
  lemma StepFirst(a: Admission, s: Step, rest: seq<Step>, k: nat)
    requires Can(a, s) && |a.open| <= k && FewConnections(Take(a, s), rest, k)
    ensures FewConnections(a, [s] + rest, k) && Final(a, [s] + rest) == Final(Take(a, s), rest)
  {
    assert ([s] + rest)[1..] == rest;
  }

  lemma {:induction false} RunsJoin(a: Admission, first: seq<Step>, second: seq<Step>, k: nat)
    requires FewConnections(a, first, k) && FewConnections(Final(a, first), second, k)
    ensures FewConnections(a, first + second, k) && Final(a, first + second) == Final(Final(a, first), second)
    decreases |first|
  {
    if first == [] {
      assert first + second == second;
    } else {
      RunsJoin(Take(a, first[0]), first[1..], second, k);
      StepFirst(a, first[0], first[1..] + second, k);
      assert first + second == [first[0]] + (first[1..] + second);
    }
  }

  lemma {:induction false} OpenAll(a: Admission, n: nat, k: nat) returns (steps: seq<Step>)
    requires n <= k && a.open == UpTo(n)
    ensures FewConnections(a, steps, k) && Final(a, steps) == a.(open := UpTo(k))
    decreases k - n
  {
    if n == k { return []; }
    var rest := OpenAll(Take(a, Connect(n)), n + 1, k);
    StepFirst(a, Connect(n), rest, k);
    steps := [Connect(n)] + rest;
  }

  /** Connection 0 registers one device after the other. */
  lemma {:induction false} FillUp(a: Admission, d: nat, k: nat) returns (steps: seq<Step>)
    requires Holding(a, d, k) && 0 < k && a.passed == {} && d <= a.maxDevices - 1 <= a.r.pool.Size()
    ensures FewConnections(a, steps, k)
    ensures var b := Final(a, steps);
            && Holding(b, a.maxDevices - 1, k) && b.passed == {} && b.maxDevices == a.maxDevices
            && b.r.pool.Size() == a.r.pool.Size()
    decreases a.maxDevices - d
  {
    if d == a.maxDevices - 1 { return []; }
    var checked := Take(a, Check(0));
    InsertNext(checked, 0, d, k);
    var rest := FillUp(Take(checked, NextInsert(0, d)), d + 1, k);
    StepFirst(checked, NextInsert(0, d), rest, k);
    StepFirst(a, Check(0), [NextInsert(0, d)] + rest, k);
    steps := [Check(0)] + ([NextInsert(0, d)] + rest);
  }

  lemma {:induction false} CheckAll(a: Admission, n: nat, k: nat) returns (steps: seq<Step>)
    requires BelowLimit(a) && n <= k && a.open == UpTo(k) && a.passed == UpTo(n)
    ensures FewConnections(a, steps, k) && Final(a, steps) == a.(passed := UpTo(k))
    decreases k - n
  {
    if n == k { return []; }
    assert UpTo(n + 1) == UpTo(n) + {n};
    var rest := CheckAll(Take(a, Check(n)), n + 1, k);
    StepFirst(a, Check(n), rest, k);
    steps := [Check(n)] + rest;
  }

  lemma InsertLast(a: Admission, n: nat, d: nat, k: nat)
    requires Holding(a, d, k) && 0 < n <= k && a.passed == UpTo(n) && d < a.r.pool.Size()
    ensures var s := NextInsert(n - 1, d);
            && Can(a, s) && Holding(Take(a, s), d + 1, k) && Take(a, s).passed == UpTo(n - 1)
            && Take(a, s).r.pool.Size() == a.r.pool.Size()
  {
    InsertNext(a, n - 1, d, k);
  }

  lemma {:induction false} InsertAll(a: Admission, n: nat, d: nat, k: nat) returns (steps: seq<Step>)
    requires Holding(a, d, k) && n <= k && a.passed == UpTo(n) && d + n <= a.r.pool.Size()
    ensures FewConnections(a, steps, k) && |Final(a, steps).r.devices| == d + n
    decreases n
  {
    if n == 0 { return []; }
    var s := NextInsert(n - 1, d);
    InsertLast(a, n, d, k);
    var rest := InsertAll(Take(a, s), n - 1, d + 1, k);
    StepFirst(a, s, rest, k);
    steps := [s] + rest;
  }

  /**
   The bound is tight: for every limit, every number `k` of connections and every range with
   enough ports, some run with at most `k` open connections registers `maxDevices - 1 + k` devices.
   */
  lemma BoundIsReached(portStart: int, portEnd: int, maxDevices: int, k: nat)
    requires 0 < maxDevices && 0 < k && maxDevices - 1 + k <= portEnd - portStart + 1
    ensures exists steps ::
              var a := Start(portStart, portEnd, maxDevices);
              FewConnections(a, steps, k) && |Final(a, steps).r.devices| == maxDevices - 1 + k
  {
    var a := Start(portStart, portEnd, maxDevices);
    NewConsistent(portStart, portEnd);
    var opening := OpenAll(a, 0, k);
    var b := Final(a, opening);
    var filling := FillUp(b, 0, k);
    var c := Final(b, filling);
    var checking := CheckAll(c, 0, k);
    var inserting := InsertAll(Final(c, checking), k, maxDevices - 1, k);
    RunsJoin(c, checking, inserting, k);
    RunsJoin(b, filling, checking + inserting, k);
    RunsJoin(a, opening, filling + (checking + inserting), k);
  }
}
