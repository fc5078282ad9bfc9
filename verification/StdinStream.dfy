/**
 Standard input of the processes in the guest: every write becomes tty frames of at most 16
 bytes on one shared channel, and closing a stream becomes one empty frame.
 */
module StdinStream {
  import opened Bytes
  import opened Frames

  const MAX_CHUNK := 16
  const MAX_SESSION := 0x1_0000_0000_0000_0000

  datatype Op = Write(data: seq<byte>) | Close

  /** The frames one write sends. */
  function Chunks(session: nat, data: seq<byte>): (fs: seq<Message>) {
    if data == [] then []
    else
      var n := Min(MAX_CHUNK, |data|);
      [Message(session, data[..n])] + Chunks(session, data[n..])
  }

  /** The frames a stream sends over its life: a closed stream refuses every further operation. */
  function Emit(session: nat, open: bool, ops: seq<Op>): (fs: seq<Message>) {
    if ops == [] || !open then []
    else match ops[0]
      case Write(data) => Chunks(session, data) + Emit(session, open, ops[1..])
      case Close => [Message(session, [])]
  }

  /** The bytes written before the stream was closed. */
  function Written(ops: seq<Op>): (bytes: seq<byte>) {
    if ops == [] || ops[0].Close? then [] else ops[0].data + Written(ops[1..])
  }

  function Bodies(fs: seq<Message>): seq<byte> {
    if fs == [] then [] else fs[0].body + Bodies(fs[1..])
  }

  /** The frames of one session, in the order they appear. */
  function Project(fs: seq<Message>, session: nat): seq<Message> {
    if fs == [] then []
    else (if fs[0].tag == session then [fs[0]] else []) + Project(fs[1..], session)
  }

  lemma {:induction false} BodiesConcat(a: seq<Message>, b: seq<Message>)
    ensures Bodies(a + b) == Bodies(a) + Bodies(b)
  {
    if a == [] {
      assert a + b == b;
    } else {
      assert (a + b)[1..] == a[1..] + b;
      BodiesConcat(a[1..], b);
    }
  }

  /** A frame of a stream: its own session, at most 16 bytes. */
  predicate OwnFrame(session: nat, f: Message) {
    f.tag == session && |f.body| <= 16
  }

  lemma {:induction false} ChunksCarry(session: nat, data: seq<byte>)
    ensures var fs := Chunks(session, data);
      && Bodies(fs) == data
      && (forall i :: 0 <= i < |fs| ==> OwnFrame(session, fs[i]) && fs[i].body != [])
      && forall i :: 0 <= i < |fs| - 1 ==> |fs[i].body| == 16
    decreases |data|
  {
    if data != [] {
      var n := Min(MAX_CHUNK, |data|);
      ChunksCarry(session, data[n..]);
      var f := Message(session, data[..n]);
      assert ([f] + Chunks(session, data[n..]))[1..] == Chunks(session, data[n..]);
      assert data == data[..n] + data[n..];
    }
  }

  /** What a stream sends carries exactly what was written, and one end mark, last, once it is closed. */
  lemma {:induction false} EmitCarries(session: nat, ops: seq<Op>)
    ensures var fs := Emit(session, true, ops);
      && Bodies(fs) == Written(ops)
      && (forall i :: 0 <= i < |fs| ==> OwnFrame(session, fs[i]))
      && (forall i :: 0 <= i < |fs| ==> (fs[i].body == [] <==> i == |fs| - 1 && Op.Close in ops))
      && (Op.Close in ops ==> fs != [])
    decreases |ops|
  {
    if ops != [] {
      if ops[0].Write? {
        EmitCarries(session, ops[1..]);
        ChunksCarry(session, ops[0].data);
        BodiesConcat(Chunks(session, ops[0].data), Emit(session, true, ops[1..]));
        assert Op.Close in ops <==> Op.Close in ops[1..];
      } else {
        assert Bodies([Message(session, [])]) == [];
      }
    }
  }

  lemma {:induction false} ProjectMember(fs: seq<Message>, i: nat)
    requires i < |fs|
    ensures fs[i] in Project(fs, fs[i].tag)
  {
    if i > 0 {
      ProjectMember(fs[1..], i - 1);
    }
  }

  /**
   The frames of any number of streams, interleaved in any way on the shared channel, reach
   the guest so that every stream's bytes and its end mark arrive exactly and in order.
   */
  lemma StreamsDelivered(log: seq<Message>, ops: map<nat, seq<Op>>, session: nat)
    requires forall s :: s in ops ==> s < MAX_SESSION && Project(log, s) == Emit(s, true, ops[s])
    requires forall i :: 0 <= i < |log| ==> log[i].tag in ops
    requires session in ops
    ensures Split(TTY_WIDTH, EncodeAll(TTY_WIDTH, log)) == (log, [])
    ensures var fs := Project(Split(TTY_WIDTH, EncodeAll(TTY_WIDTH, log)).0, session);
      && Bodies(fs) == Written(ops[session])
      && (forall i :: 0 <= i < |fs| ==> (fs[i].body == [] <==> i == |fs| - 1 && Op.Close in ops[session]))
      && (Op.Close in ops[session] ==> fs != [])
  {
    forall i | 0 <= i < |log|
      ensures Fits(TTY_WIDTH, log[i])
    {
      ProjectMember(log, i);
      EmitCarries(log[i].tag, ops[log[i].tag]);
      Pow256Values();
    }
    SplitAll(TTY_WIDTH, log);
    EmitCarries(session, ops[session]);
  }

  lemma EmitWrite(session: nat, data: seq<byte>)
    ensures Emit(session, true, [Op.Write(data)]) == Chunks(session, data)
  {
    assert Emit(session, true, []) == [];
    assert Chunks(session, data) + [] == Chunks(session, data);
  }

  lemma NextChunk(session: nat, b: seq<byte>, done: seq<Message>)
    requires b != []
    ensures var n := Min(MAX_CHUNK, |b|);
      done + Chunks(session, b) == (done + [Message(session, b[..n])]) + Chunks(session, b[n..])
  {
  }

  lemma Within(base: seq<Message>, done: seq<Message>, all: seq<Message>)
    requires done <= all
    ensures base <= base + done <= base + all
  {
  }

  /** The agent's stream channel, as the frames that have been put on it; the agent may close it at any moment. */
  class StreamChan {
    var sent: seq<Message>
    var closed: bool

    constructor ()
      ensures sent == [] && !closed
    {
      sent, closed := [], false;
    }

    /** A send; on a closed channel it panics, which the streams recover from. */
    method Send(m: Message) returns (ok: bool)
      modifies this
      ensures ok == !closed && (old(closed) ==> closed)
      ensures sent == if ok then old(sent) + [m] else old(sent)
    {
      if * {
        closed := true;
      }
      if closed {
        return false;
      }
      sent := sent + [m];
      return true;
    }
  }

  class StreamIn {
    const session: nat
    const chan: StreamChan
    var open: bool

    constructor (session: nat, chan: StreamChan)
      ensures this.session == session && this.chan == chan && open
    {
      this.session := session;
      this.chan := chan;
      open := true;
    }

    /**
     All the pieces are sent unless the stream was closed or the agent closes the channel; then
     the first pieces may have been sent, and none is reported.
     */
    method Write(data: seq<byte>) returns (n: nat, ok: bool)
      modifies chan
      ensures old(chan.sent) <= chan.sent <= old(chan.sent) + Emit(session, open, [Op.Write(data)])
      ensures ok ==> chan.sent == old(chan.sent) + Emit(session, open, [Op.Write(data)])
      ensures ok <==> data == [] || (open && !chan.closed)
      ensures n == if ok then |data| else 0
    {
      var b := data;
      ghost var base, done := chan.sent, [];
      ghost var all := Chunks(session, data);
      EmitWrite(session, data);
      while |b| > 0
        invariant |b| <= |data| && (b == data || (open && !chan.closed))
        invariant chan.sent == base + done && done + Chunks(session, b) == all && (!open ==> done == [])
      {
        if !open {
          return |data| - |b|, false;
        }
        var nr := Min(MAX_CHUNK, |b|);
        NextChunk(session, b, done);
        Within(base, done, all);
        var ok := chan.Send(Message(session, b[..nr]));
        if !ok {
          return 0, false;
        }
        done := done + [Message(session, b[..nr])];
        b := b[nr..];
      }
      assert done == all;
      return |data|, true;
    }

    /** Sends one empty message; it fails on a stream that was closed and on a closed channel. */
    method Close() returns (ok: bool)
      modifies this, chan
      ensures ok <==> old(open) && !chan.closed
      ensures chan.sent == old(chan.sent) + Emit(session, ok, [Op.Close])
      ensures open == (old(open) && !ok)
    {
      if !open {
        return false;
      }
      ok := chan.Send(Message(session, []));
      if ok {
        open := false;
      }
    }
  }
}
