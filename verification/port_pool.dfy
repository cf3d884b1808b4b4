/**
 The round-robin port allocator of internal/server/port_pool.go.

 `Pool` is the allocator's state as a value, `Allocated` and `Released` are its two
 operations, and the class `PortPool` is the code's own form: a loop that moves
 `nextPort` while it looks for a free port.
 */
module PortPools {
  import opened Wrappers

  /** The ports `lo`, ..., `hi`. */
  ghost function Interval(lo: int, hi: int): (s: set<int>)
    ensures forall i :: i in s <==> lo <= i <= hi
    ensures lo <= hi + 1 ==> |s| == hi - lo + 1
    decreases hi - lo + 1
  {
    if lo > hi then {} else Interval(lo, hi - 1) + {hi}
  }

  datatype Pool<D> = Pool(start: int, end: int, used: set<int>, bindings: map<int, D>, next: int) {

    function Size(): int { end - start + 1 }

    predicate InRange(port: int) { start <= port <= end }

    function Succ(port: int): int { if port + 1 > end then start else port + 1 }

    /** How many steps the cursor needs to reach `port`. */
    function Dist(port: int): int { if port >= next then port - next else port - next + Size() }

    /** The port `d` steps ahead of the cursor. */
    function At(d: int): int { if next + d > end then next + d - Size() else next + d }

    predicate Valid() {
      && (start <= end ==> start <= next <= end)
      && used == bindings.Keys
      && forall port :: port in used ==> InRange(port)
    }

    predicate Free(port: int) { InRange(port) && port !in used }

    /** `port` is free and every port the cursor passes on its way there is taken. */
    ghost predicate FirstFree(port: int) {
      && Free(port)
      && forall q :: InRange(q) && Dist(q) < Dist(port) ==> q in used
    }

    ghost predicate Exhausted() { forall q :: InRange(q) ==> q in used }

    ghost function FreePorts(): set<int> { Interval(start, end) - used }
  }

  function NewPool<D>(start: int, end: int): Pool<D> { Pool(start, end, {}, map[], start) }

  /** The distance of the first free port at distance `d` or more. */
  function Scan<D>(p: Pool<D>, d: int): Option<int>
    decreases p.Size() - d
  {
    if d >= p.Size() then None
    else if p.At(d) !in p.used then Some(p.At(d))
    else Scan(p, d + 1)
  }

  function Allocated<D>(p: Pool<D>, device: D): (Pool<D>, Option<int>) {
    match Scan(p, 0)
    case None => (p, None)
    case Some(port) =>
      (p.(used := p.used + {port}, bindings := p.bindings[port := device], next := p.Succ(port)), Some(port))
  }

  function Released<D>(p: Pool<D>, port: int): Pool<D> {
    p.(used := p.used - {port}, bindings := p.bindings - {port})
  }

  // ---- What one allocation means -------------------------------------------------------

  /** `At` and `Dist` are inverse: walking from the cursor visits every port exactly once. */
  lemma DistAt<D>(p: Pool<D>, d: int)
    requires p.Valid() && 0 <= d < p.Size()
    ensures p.InRange(p.At(d)) && p.Dist(p.At(d)) == d
  {
  }

  lemma AtDist<D>(p: Pool<D>, port: int)
    requires p.Valid() && p.InRange(port)
    ensures 0 <= p.Dist(port) < p.Size() && p.At(p.Dist(port)) == port
  {
  }

  lemma {:induction false} ScanIsFirstFree<D>(p: Pool<D>, d: int)
    requires p.Valid() && 0 <= d
    requires forall q :: p.InRange(q) && p.Dist(q) < d ==> q in p.used
    ensures Scan(p, d).Some? ==> p.FirstFree(Scan(p, d).value)
    ensures Scan(p, d).None? ==> p.Exhausted()
    decreases p.Size() - d
  {
    if d >= p.Size() {
      forall q | p.InRange(q) ensures q in p.used { AtDist(p, q); }
    } else {
      DistAt(p, d);
      forall q | p.InRange(q) && p.Dist(q) == d ensures q == p.At(d) { AtDist(p, q); }
      if p.At(d) in p.used { ScanIsFirstFree(p, d + 1); }
    }
  }

  /**
   An allocation hands out the first free port in cyclic order from the cursor and moves the
   cursor just past it; it fails exactly when the range is full, and then changes nothing.
   */
  lemma AllocateFirstFree<D>(p: Pool<D>, device: D)
    requires p.Valid()
    ensures Allocated(p, device).0.Valid()
    ensures Allocated(p, device).1.None? <==> p.Exhausted()
    ensures Allocated(p, device).1.None? ==> Allocated(p, device).0 == p
    ensures forall port :: Allocated(p, device).1 == Some(port) <==> p.FirstFree(port)
    ensures forall port {:trigger p.FirstFree(port)} :: p.FirstFree(port) ==>
              var after := Allocated(p, device).0;
              && after.used == p.used + {port} && after.bindings == p.bindings[port := device]
              && after.next == p.Succ(port) && after.start == p.start && after.end == p.end
  {
    ScanIsFirstFree(p, 0);
    forall a, b | p.FirstFree(a) && p.FirstFree(b) ensures a == b {
      AtDist(p, a);
      AtDist(p, b);
    }
  }

  lemma AllocateSucceeds<D>(p: Pool<D>, device: D) returns (port: int)
    requires p.Valid() && exists free :: p.Free(free)
    ensures Allocated(p, device).1 == Some(port) && p.FirstFree(port)
    ensures Allocated(p, device).0.start == p.start && Allocated(p, device).0.end == p.end
    ensures forall q :: Allocated(p, device).0.Free(q) <==> p.Free(q) && q != port
  {
    AllocateFirstFree(p, device);
    assert !p.Exhausted();
    port := Allocated(p, device).1.value;
  }

  // ---- Counting ------------------------------------------------------------------------

  /** Used plus available ports make up the range, and available counts the free ports. */
  lemma PortAccounting<D>(p: Pool<D>)
    requires p.Valid() && p.start <= p.end + 1
    ensures |p.used| <= p.Size()
    ensures |p.FreePorts()| == p.Size() - |p.used|
  {
    var range := Interval(p.start, p.end);
    assert range == p.used + p.FreePorts();
    assert p.used * p.FreePorts() == {};
  }

  // ---- Sequences of calls --------------------------------------------------------------

  datatype Call<D> = CallAllocate(device: D) | CallRelease(port: int)

  function After<D>(p: Pool<D>, call: Call<D>): Pool<D> {
    match call
    case CallAllocate(device) => Allocated(p, device).0
    case CallRelease(port) => Released(p, port)
  }

  /** The state in which call number `i` runs. */
  function Before<D>(p: Pool<D>, calls: seq<Call<D>>, i: nat): Pool<D>
    requires i <= |calls|
    decreases i
  {
    if i == 0 then p else Before(After(p, calls[0]), calls[1..], i - 1)
  }

  predicate HandsOut<D>(p: Pool<D>, calls: seq<Call<D>>, i: nat, port: int)
    requires i < |calls|
  {
    calls[i].CallAllocate? && Allocated(Before(p, calls, i), calls[i].device).1 == Some(port)
  }

  /** The allocation's cursor comes to `port`: it stops there, or further on, or nowhere. */
  predicate LooksAt<D>(p: Pool<D>, device: D, port: int) {
    var handed := Allocated(p, device).1;
    p.InRange(port) && (handed.None? || p.Dist(port) <= p.Dist(handed.value))
  }

  /** Call `i` looked at `port` and found it in use, or handed it out. */
  predicate Examines<D>(p: Pool<D>, calls: seq<Call<D>>, i: nat, port: int)
    requires i < |calls|
  {
    && calls[i].CallAllocate? && LooksAt(Before(p, calls, i), calls[i].device, port)
    && (port in Before(p, calls, i).used || HandsOut(p, calls, i, port))
  }

  /** An allocation looks at exactly the ports before which it finds nothing free. */
  lemma LooksPastUsedPorts<D>(p: Pool<D>, device: D, port: int)
    requires p.Valid() && p.InRange(port)
    ensures LooksAt(p, device, port) <==> forall q :: p.InRange(q) && p.Dist(q) < p.Dist(port) ==> q in p.used
    ensures LooksAt(p, device, port) ==> port in p.used || Allocated(p, device).1 == Some(port)
  {
    AllocateFirstFree(p, device);
    if Allocated(p, device).1.Some? {
      var handed := Allocated(p, device).1.value;
      assert p.FirstFree(handed);
      AtDist(p, handed);
      AtDist(p, port);
    }
  }

  function Allocations<D>(calls: seq<Call<D>>): nat {
    if calls == [] then 0
    else (if calls[0].CallAllocate? then 1 else 0) + Allocations(calls[1..])
  }

  lemma CallValid<D>(p: Pool<D>, call: Call<D>)
    requires p.Valid()
    ensures After(p, call).Valid()
    ensures After(p, call).start == p.start && After(p, call).end == p.end
  {
    match call
    case CallAllocate(device) => AllocateFirstFree(p, device);
    case CallRelease(port) =>
  }

  /** An allocation that does not reach `port` brings the cursor closer to it. */
  lemma CursorAdvances<D>(p: Pool<D>, device: D, handed: int, port: int)
    requires p.Valid() && p.FirstFree(handed) && p.InRange(port)
    requires p.Dist(handed) < p.Dist(port)
    ensures Allocated(p, device).0.Dist(port) == p.Dist(port) - p.Dist(handed) - 1
  {
    AllocateFirstFree(p, device);
  }

  /**
   No starvation: a port that is free at cyclic distance `d` is handed out by the (d+1)-th
   later allocation at the latest, whatever releases are interleaved.
   */
  lemma {:induction false} NoStarvation<D>(p: Pool<D>, calls: seq<Call<D>>, port: int) returns (i: nat)
    requires p.Valid() && p.Free(port)
    requires Allocations(calls) >= p.Dist(port) + 1
    ensures i < |calls| && HandsOut(p, calls, i, port)
    ensures Allocations(calls[..i]) <= p.Dist(port)
    decreases |calls|
  {
    AtDist(p, port);
    var call := calls[0];
    var next := After(p, call);
    CallValid(p, call);
    if call.CallAllocate? {
      AllocateFirstFree(p, call.device);
      if Allocated(p, call.device).1 == Some(port) { return 0; }
      assert !p.FirstFree(port);
      var handed := Allocated(p, call.device).1.value;
      assert p.FirstFree(handed);
      if p.Dist(port) < p.Dist(handed) { assert false; }
      AtDist(p, handed);
      assert p.Dist(handed) != p.Dist(port);
      CursorAdvances(p, call.device, handed, port);
    }
    var j := NoStarvation(next, calls[1..], port);
    i := j + 1;
    assert calls[..i][1..] == calls[1..][..j];
  }

  /** So every free port comes round within one full turn of the range. */
  lemma WithinOneTurn<D>(p: Pool<D>, calls: seq<Call<D>>, port: int)
    requires p.Valid() && p.Free(port)
    requires Allocations(calls) >= p.Size()
    ensures exists i: nat :: i < |calls| && HandsOut(p, calls, i, port)
  {
    AtDist(p, port);
    var i := NoStarvation(p, calls, port);
  }

  /** If the cursor meets `other` before `port`, then `other` is examined before `port` is handed out. */
  lemma {:induction false} ExaminedOnTheWay<D>(p: Pool<D>, calls: seq<Call<D>>, other: int, port: int) returns (i: nat)
    requires p.Valid() && p.InRange(other) && p.InRange(port)
    requires p.Dist(other) < p.Dist(port)
    requires calls != [] && HandsOut(p, calls, |calls| - 1, port)
    ensures i < |calls| && Examines(p, calls, i, other)
    decreases |calls|
  {
    AtDist(p, other);
    AtDist(p, port);
    var call := calls[0];
    CallValid(p, call);
    if call.CallAllocate? {
      AllocateFirstFree(p, call.device);
      LooksPastUsedPorts(p, call.device, other);
      if LooksAt(p, call.device, other) { return 0; }
      var handed := Allocated(p, call.device).1.value;
      assert p.FirstFree(handed);
      CursorAdvances(p, call.device, handed, other);
      CursorAdvances(p, call.device, handed, port);
    }
    if |calls| == 1 {
      assert false;
    }
    var j := ExaminedOnTheWay(After(p, call), calls[1..], other, port);
    i := j + 1;
  }

  /**
   Between two hand-outs of one port the cursor came to every other port of the range, which
   was then in use or handed out.
   */
  lemma FairTurn<D>(p: Pool<D>, calls: seq<Call<D>>, port: int, other: int) returns (i: nat)
    requires p.Valid() && |calls| >= 2
    requires HandsOut(p, calls, 0, port) && HandsOut(p, calls, |calls| - 1, port)
    requires p.InRange(other) && other != port
    ensures 0 < i < |calls| && Examines(p, calls, i, other)
  {
    AllocateFirstFree(p, calls[0].device);
    assert p.FirstFree(port);
    var next := After(p, calls[0]);
    CallValid(p, calls[0]);
    assert next.Dist(port) == next.Size() - 1;
    AtDist(next, other);
    AtDist(next, port);
    var j := ExaminedOnTheWay(next, calls[1..], other, port);
    i := j + 1;
  }

  // ---- The allocator as the code has it ------------------------------------------------

  class PortPool<D> {
    const start: int
    const end: int
    var used: map<int, bool>
    var bindings: map<int, D>
    var nextPort: int

    ghost function Abs(): Pool<D>
      reads this
    {
      Pool(start, end, used.Keys, bindings, nextPort)
    }

    ghost predicate Valid()
      reads this
    {
      Abs().Valid() && forall port :: port in used ==> used[port]
    }

    constructor (start: int, end: int)
      ensures Valid() && Abs() == NewPool(start, end)
      ensures this.start == start && this.end == end && used == map[] && bindings == map[] && nextPort == start
    {
      this.start, this.end := start, end;
      used, bindings := map[], map[];
      nextPort := start;
    }

    method Allocate(device: D) returns (port: Option<int>)
      requires Valid()
      modifies this
      ensures Valid()
      ensures (Abs(), port) == Allocated(old(Abs()), device)
      ensures port.None? ==> used == old(used) && bindings == old(bindings) && nextPort == old(nextPort)
      ensures port.None? <==> forall q :: start <= q <= end ==> q in old(used)
      ensures port.Some? ==>
                && start <= port.value <= end && port.value !in old(used)
                && used.Keys == old(used).Keys + {port.value} && bindings == old(bindings)[port.value := device]
                && nextPort == if port.value == end then start else port.value + 1
    {
      ghost var before := Abs();
      AllocateFirstFree(before, device);
      var i := 0;
      while i <= end - start
        invariant 0 <= i && (start <= end ==> i <= end - start + 1)
        invariant used == old(used) && bindings == old(bindings)
        invariant start > end ==> nextPort == old(nextPort)
        invariant start <= end ==> nextPort == if i == before.Size() then old(nextPort) else before.At(i)
        invariant forall q :: before.InRange(q) && before.Dist(q) < i ==> q in used
      {
        var candidate := nextPort;
        DistAt(before, i);
        forall q | before.InRange(q) && before.Dist(q) == i ensures q == candidate { AtDist(before, q); }
        nextPort := nextPort + 1;
        if nextPort > end {
          nextPort := start;
        }
        if !(candidate in used && used[candidate]) {
          assert before.FirstFree(candidate);
          used := used[candidate := true];
          bindings := bindings[candidate := device];
          return Some(candidate);
        }
        i := i + 1;
      }
      forall q | before.InRange(q) ensures q in used { AtDist(before, q); }
      return None;
    }

    method Release(port: int)
      requires Valid()
      modifies this
      ensures Valid()
      ensures Abs() == Released(old(Abs()), port)
      ensures used == old(used) - {port} && bindings == old(bindings) - {port} && nextPort == old(nextPort)
    {
      used := used - {port};
      bindings := bindings - {port};
    }

    method GetBinding(port: int) returns (device: Option<D>)
      requires Valid()
      ensures device.Some? <==> port in Abs().used
      ensures device.Some? ==> device.value == Abs().bindings[port]
    {
      device := if port in bindings then Some(bindings[port]) else None;
    }

    method GetUsedPorts() returns (n: nat)
      requires Valid()
      ensures n == |Abs().used|
    {
      n := |used|;
    }

    method GetAvailablePorts() returns (n: int)
      requires Valid()
      ensures start <= end + 1 ==> n == |Abs().FreePorts()|
      ensures n + |Abs().used| == end - start + 1
    {
      if start <= end + 1 { PortAccounting(Abs()); }
      n := (end - start + 1) - |used|;
    }
  }
}
