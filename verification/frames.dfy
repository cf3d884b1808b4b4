/**
 The messages on a WebSocket (internal/protocol/message.go) and what one connection sees of
 a stream of them.
 */
module Frames {
  import opened Registries

  newtype Byte = x: int | 0 <= x < 256
  type Bytes = seq<Byte>

  type ConnId = nat   // stands for the random connection identifier

  datatype Control =
    | Register(request: Request, authorised: bool)
    | Heartbeat
    | Assigned(port: int)
    | HeartbeatAck
    | Error

  /**
   `ended` is a history mark: the `conn_close` was sent by a reader whose stream ended, and not
   by the client's message handler for an identifier it cannot serve.
   */
  datatype Frame =
    | Open(id: ConnId)
    | Data(id: ConnId, data: Bytes)
    | Close(id: ConnId, ended: bool)
    | Other(control: Control)

  predicate About(f: Frame, id: ConnId) { !f.Other? && f.id == id }

  /** The frames of `log` that carry the identifier `id`, in order. */
  function Only(log: seq<Frame>, id: ConnId): seq<Frame> {
    if log == [] then []
    else
      var last := log[|log| - 1];
      Only(log[..|log| - 1], id) + if About(last, id) then [last] else []
  }

  /** The bytes a sequence of frames carries. */
  function Payload(frames: seq<Frame>): Bytes {
    if frames == [] then []
    else
      var last := frames[|frames| - 1];
      Payload(frames[..|frames| - 1]) + if last.Data? then last.data else []
  }

  lemma OnlyStep(log: seq<Frame>, f: Frame, id: ConnId)
    ensures Only(log + [f], id) == Only(log, id) + if About(f, id) then [f] else []
  {
    assert (log + [f])[..|log|] == log;
  }

  lemma PayloadStep(frames: seq<Frame>, f: Frame)
    ensures Payload(frames + [f]) == Payload(frames) + if f.Data? then f.data else []
  {
    assert (frames + [f])[..|frames|] == frames;
  }

  lemma {:induction false} OnlyPrefix(log: seq<Frame>, n: nat, id: ConnId)
    requires n <= |log|
    ensures Only(log[..n], id) <= Only(log, id)
    decreases |log|
  {
    if n < |log| {
      var front := log[..|log| - 1];
      assert front[..n] == log[..n];
      OnlyPrefix(front, n, id);
    } else {
      assert log[..n] == log;
    }
  }

  lemma {:induction false} PayloadPrefix(a: seq<Frame>, b: seq<Frame>)
    requires a <= b
    ensures Payload(a) <= Payload(b)
    decreases |b|
  {
    if |a| < |b| {
      PayloadPrefix(a, b[..|b| - 1]);
    } else {
      assert a == b;
    }
  }

  lemma {:induction false} OnlyAbout(log: seq<Frame>, id: ConnId)
    ensures forall f :: f in Only(log, id) <==> f in log && About(f, id)
    decreases |log|
  {
    if log != [] {
      OnlyAbout(log[..|log| - 1], id);
      assert log == log[..|log| - 1] + [log[|log| - 1]];
    }
  }

  lemma {:induction false} OnlyNone(log: seq<Frame>, id: ConnId)
    requires forall f :: f in log ==> !About(f, id)
    ensures Only(log, id) == []
    decreases |log|
  {
    if log != [] {
      assert log[|log| - 1] in log;
      OnlyNone(log[..|log| - 1], id);
    }
  }

  /** The frames that carry `inputs` for a connection. */
  function Chunks(id: ConnId, inputs: seq<Bytes>): seq<Frame> {
    seq(|inputs|, i requires 0 <= i < |inputs| => Data(id, inputs[i]))
  }

  function Joined(inputs: seq<Bytes>): Bytes
    decreases |inputs|
  {
    if inputs == [] then [] else Joined(inputs[..|inputs| - 1]) + inputs[|inputs| - 1]
  }

  lemma {:induction false} ChunksCarryAll(id: ConnId, inputs: seq<Bytes>)
    ensures Payload(Chunks(id, inputs)) == Joined(inputs)
    ensures Only(Chunks(id, inputs), id) == Chunks(id, inputs)
    decreases |inputs|
  {
    if inputs != [] {
      var front := inputs[..|inputs| - 1];
      ChunksCarryAll(id, front);
      assert Chunks(id, inputs) == Chunks(id, front) + [Data(id, inputs[|inputs| - 1])];
      PayloadStep(Chunks(id, front), Data(id, inputs[|inputs| - 1]));
      OnlyStep(Chunks(id, front), Data(id, inputs[|inputs| - 1]), id);
    }
  }

  lemma {:induction false} JoinedFirst(inputs: seq<Bytes>)
    requires inputs != []
    ensures Joined(inputs) == inputs[0] + Joined(inputs[1..])
    decreases |inputs|
  {
    if |inputs| > 1 {
      var front := inputs[..|inputs| - 1];
      JoinedFirst(front);
      assert front[1..] == inputs[1..][..|inputs| - 2];
    }
  }
}
