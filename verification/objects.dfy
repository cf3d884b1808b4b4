/**
 The mutable objects the server and the clients share with the network: TCP connections,
 WebSockets, and the device record of server.go:18-28.
 */
module Objects {
  import opened Wrappers
  import opened Frames
  import R = Registries
  import C = Clients

  /** A TCP connection. `written` is a history of what was written to it. */
  class Conn {
    var open: bool
    var broken: bool
    ghost var written: Bytes

    constructor ()
      ensures open && !broken && written == []
    {
      open, broken := true, false;
      written := [];
    }

    method Close()
      modifies this
      ensures !open && broken == old(broken) && written == old(written)
    {
      open := false;
    }

    /** `n` bytes go through; after a failed write, or once closed, no byte does. */
    method Write(data: Bytes, n: nat, fails: bool) returns (err: bool)
      requires n <= |data|
      modifies this
      ensures open == old(open)
      ensures err == (fails || old(broken) || !old(open))
      ensures broken == (old(broken) || err)
      ensures written == old(written) + data[..Through(old(open), old(broken), data, n, fails)]
    {
      err := fails || broken || !open;
      written := written + data[..Through(open, broken, data, n, fails)];
      broken := broken || err;
    }
  }

  /** How many bytes of a write go through. */
  function Through(open: bool, broken: bool, data: Bytes, n: nat, fails: bool): (m: nat)
    requires n <= |data|
    ensures m <= |data|
    ensures m == |data| || fails || broken || !open
    ensures fails && open && !broken ==> m == n
    ensures broken || !open ==> m == 0
  {
    if broken || !open then 0 else if fails then n else |data|
  }

  /** A frame is written, unless the write fails or an earlier one has. */
  function Attempted(out: C.Outgoing, frame: Frame, fails: bool): C.Outgoing {
    if fails || out.down then out.(down := true) else out.(log := out.log + [frame])
  }

  /** So are several, one after the other; the write of number `failing`, if there is one, fails. */
  function AttemptedAll(out: C.Outgoing, frames: seq<Frame>, failing: nat): C.Outgoing
    decreases |frames|
  {
    if frames == [] then out
    else
      var n := |frames| - 1;
      Attempted(AttemptedAll(out, frames[..n], failing), frames[n], n == failing)
  }

  /** What gets through are the frames up to the first failure. */
  lemma {:induction false} AttemptedPrefix(out: C.Outgoing, frames: seq<Frame>, failing: nat)
    ensures var r := AttemptedAll(out, frames, failing);
      && r.down == (out.down || failing < |frames|)
      && r.log == out.log + if out.down then [] else frames[..if failing < |frames| then failing else |frames|]
    decreases |frames|
  {
    if frames != [] { AttemptedPrefix(out, frames[..|frames| - 1], failing); }
  }

  lemma AttemptedNext(out: C.Outgoing, frames: seq<Frame>, frame: Frame, failing: nat)
    ensures AttemptedAll(out, frames + [frame], failing) ==
            Attempted(AttemptedAll(out, frames, failing), frame, |frames| == failing)
  {
    assert (frames + [frame])[..|frames|] == frames;
  }

  /** A WebSocket. `log` is a history; a failed write or a close ends it. */
  class WebSocket {
    const id: R.Ws
    var down: bool
    ghost var log: seq<Frame>

    constructor (id: R.Ws)
      ensures this.id == id && !down && log == []
    {
      this.id := id;
      down := false;
      log := [];
    }

    ghost function Out(): C.Outgoing
      reads this
    {
      C.Outgoing(log, down)
    }

    method Close()
      modifies this
      ensures down && log == old(log)
    {
      down := true;
    }

    method WriteMessage(frame: Frame, fails: bool) returns (err: bool)
      modifies this
      ensures err == (fails || old(down))
      ensures Out() == Attempted(old(Out()), frame, fails)
      ensures log == old(log) + (if err then [] else [frame]) && down == err
    {
      err := fails || down;
      if err { down := true; } else { log := log + [frame]; }
    }
  }

  /** A registered device. `id` tells apart two registrations under one name. */
  class DeviceRecord {
    ghost const id: nat
    const name: string
    const localIP: string
    const localPort: int
    const conn: WebSocket
    var remotePort: int
    var lastHeartbeat: R.Time
    var enabled: bool
    var expireAt: Option<R.Time>

    constructor (ghost id: nat, request: R.Request, conn: WebSocket, now: R.Time)
      ensures this.id == id && this.conn == conn
      ensures Abs() ==
              R.Device(id, request.name, request.localIP, request.localPort, remotePort, conn.id, now, false, None)
    {
      this.id := id;
      this.name, this.localIP, this.localPort := request.name, request.localIP, request.localPort;
      this.conn := conn;
      remotePort, lastHeartbeat, enabled, expireAt := 0, now, false, None;
    }

    ghost function Abs(): R.Device
      reads this
    {
      R.Device(id, name, localIP, localPort, remotePort, conn.id, lastHeartbeat, enabled, expireAt)
    }
  }
}
