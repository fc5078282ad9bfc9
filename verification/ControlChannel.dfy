/**
 The sender of the hyperstart control channel: commands are framed into one byte stream, the
 stream is written 512 bytes at a time, each write waiting for the guest's NEXT credits, and
 the guest's ACK and ERROR replies are matched to the queued commands in order.
 */
module ControlChannel {
  import opened Bytes
  import opened Frames

  const WINDOW_SIZE := 512
  const DESTROY_POD := 4

  type Id = nat

  /** What arrives on the agent's control channel: guest replies, and commands with a result channel. */
  datatype Item =
    | Ack(ret: seq<byte>)
    | Error(ret: seq<byte>)
    | Next(ret: seq<byte>)
    | PauseSync(id: Id)
    | Unpause(id: Id)
    | Request(id: Id, code: nat, payload: Option<seq<byte>>)  // no payload: it could not be marshalled

  datatype Cmd = Cmd(id: Id, msg: Message)
  datatype Reply = Reply(ok: bool, ret: seq<byte>)
  datatype Reason = VmPaused | MarshalFailed

  /** Everything the sender has taken in and put out; each result channel sent to is in one list. */
  datatype History = History(
    requests: seq<Id>, pauses: seq<Id>, unpauses: seq<Id>,  // commands received
    accepted: seq<Cmd>, wire: seq<byte>, credit: nat,       // queued, written, credited by the guest
    replies: seq<(Id, Reply)>, rejects: seq<(Id, Reason)>,  // results of requests
    drained: seq<Id>, released: seq<Id>, resumed: seq<Id>,  // results of pauses and unpauses
    closed: seq<Id>,                                        // results sent when the loop ends
    dropped: seq<Id>)                                       // pauses forgotten without a result

  datatype State = State(
    looping: bool, cmds: seq<Cmd>, data: seq<byte>, index: nat, got: nat,
    paused: bool, pausing: Option<Id>, panicked: bool, hist: History)

  function Init(paused: bool): State {
    State(true, [], [], 0, 0, paused, None, false, History([], [], [], [], [], 0, [], [], [], [], [], [], []))
  }

  // ---------- one turn of the loop ----------

  function OnReply(s: State, r: Reply): State {
    if s.cmds == [] then s
    else
      var c := s.cmds[0];
      var s1 := s.(looping := s.looping && c.msg.tag != DESTROY_POD, cmds := s.cmds[1..],
                   hist := s.hist.(replies := s.hist.replies + [(c.id, r)]));
      if s1.pausing.Some? && s1.cmds == [] then
        s1.(pausing := None, hist := s1.hist.(drained := s1.hist.drained + [s1.pausing.value]))
      else s1
  }

  function OnNext(s: State, n: nat): State {
    var s1 := s.(got := s.got + n, hist := s.hist.(credit := s.hist.credit + n));
    if s1.index == s1.got && s1.index <= |s1.data| then s1.(data := s1.data[s1.index..], index := 0, got := 0) else s1
  }

  function Pending(p: Option<Id>): seq<Id> {
    if p.Some? then [p.value] else []
  }

  function OnPause(s: State, id: Id): State {
    var h := s.hist.(pauses := s.hist.pauses + [id], dropped := s.hist.dropped + Pending(s.pausing));
    if s.cmds == [] then s.(paused := true, pausing := None, hist := h.(drained := h.drained + [id]))
    else s.(paused := true, pausing := Some(id), hist := h)
  }

  function OnUnpause(s: State, id: Id): State {
    s.(paused := false, pausing := None,
       hist := s.hist.(unpauses := s.hist.unpauses + [id], resumed := s.hist.resumed + [id],
                       released := s.hist.released + Pending(s.pausing)))
  }

  function Reject(s: State, id: Id, why: Reason): State {
    s.(hist := s.hist.(requests := s.hist.requests + [id], rejects := s.hist.rejects + [(id, why)]))
  }

  function Accept(s: State, id: Id, msg: Message): State {
    s.(cmds := s.cmds + [Cmd(id, msg)], data := s.data + Encode(VM_WIDTH, msg),
       hist := s.hist.(requests := s.hist.requests + [id], accepted := s.hist.accepted + [Cmd(id, msg)]))
  }

  /**
   A NEXT without a body. The loop slices four bytes out of the body, and Go bounds a slice by its
   capacity: that of the reader's buffer is too small only when no byte followed the header
   (Frames.SliceFits).
   */
  predicate Short(item: Item) {
    item.Next? && item.ret == []
  }

  /** The first four bytes of a body and, where it is shorter, the zeros that append leaves behind it. */
  function Window(ret: seq<byte>): (w: seq<byte>)
    ensures |w| == 4 && forall i :: 0 <= i < 4 ==> w[i] == if i < |ret| then ret[i] else 0
  {
    (ret + [0, 0, 0, 0])[..4]
  }

  /** The bytes a NEXT credits. */
  function Amount(ret: seq<byte>): nat {
    FromBE(Window(ret))
  }

  /** A body of one to three bytes credits its high-order bytes. */
  lemma ShortCredit(ret: seq<byte>)
    requires 1 <= |ret| <= 4
    ensures Amount(ret) == FromBE(ret) * Pow256(4 - |ret|)
  {
    assert Window(ret) == ret + Zeros(4 - |ret|);
    PadZeros(ret, 4 - |ret|);
  }

  function Zeros(n: nat): (z: seq<byte>)
    ensures |z| == n && forall i :: 0 <= i < n ==> z[i] == 0
  {
    if n == 0 then [] else Zeros(n - 1) + [0]
  }

  lemma {:induction false} PadZeros(s: seq<byte>, n: nat)
    ensures FromBE(s + Zeros(n)) == FromBE(s) * Pow256(n)
  {
    if n == 0 {
      assert s + Zeros(0) == s;
    } else {
      PadZeros(s, n - 1);
      assert s + Zeros(n) == (s + Zeros(n - 1)) + [0];
      TimesPow(FromBE(s), n);
    }
  }

  lemma TimesPow(x: nat, n: nat)
    requires n > 0
    ensures x * Pow256(n - 1) * 256 == x * Pow256(n)
  {
    assert Pow256(n) == 256 * Pow256(n - 1);
  }

  predicate Flushes(s: State, item: Item) {
    !item.Ack? && !item.Error? && !Short(item) && (item.Request? ==> !s.paused && item.payload.Some?)
  }

  function Take(s: State, item: Item): State {
    match item
    case Ack(ret) => OnReply(s, Reply(true, ret))
    case Error(ret) => OnReply(s, Reply(false, ret))
    case Next(ret) => if Short(item) then s.(panicked := true, looping := false) else OnNext(s, Amount(ret))
    case PauseSync(id) => OnPause(s, id)
    case Unpause(id) => OnUnpause(s, id)
    case Request(id, code, payload) =>
      if s.paused then Reject(s, id, VmPaused)
      else if payload.None? then Reject(s, id, MarshalFailed)
      else Accept(s, id, Message(code, payload.value))
  }

  /** The bytes offered to the connection after an item. */
  function Offer(s: State): seq<byte> {
    if s.index == 0 then s.data[..Min(|s.data|, WINDOW_SIZE)] else []
  }

  /** The connection takes the first `wrote` of the offered bytes. */
  function Flush(s: State, wrote: nat): State {
    var n := Min(wrote, |Offer(s)|);
    s.(index := s.index + n, hist := s.hist.(wire := s.hist.wire + Offer(s)[..n]))
  }

  function Step(s: State, item: Item, wrote: nat): State {
    if Flushes(s, item) then Flush(Take(s, item), wrote) else Take(s, item)
  }

  /** The loop over a channel's items; it stops after the reply to DESTROYPOD, and in the slicing of a NEXT without a body. */
  function Run(s: State, items: seq<Item>, wrote: seq<nat>): State
    requires |wrote| == |items|
  {
    if items == [] then s
    else
      var n := |items| - 1;
      var s1 := Run(s, items[..n], wrote[..n]);
      if s1.looping then Step(s1, items[n], wrote[n]) else s1
  }

  function CmdIds(cs: seq<Cmd>): (ids: seq<Id>)
    ensures |ids| == |cs|
  {
    seq(|cs|, i requires 0 <= i < |cs| => cs[i].id)
  }

  function Messages(cs: seq<Cmd>): (ms: seq<Message>)
    ensures |ms| == |cs|
  {
    seq(|cs|, i requires 0 <= i < |cs| => cs[i].msg)
  }

  function ReplyIds(rs: seq<(Id, Reply)>): (ids: seq<Id>)
    ensures |ids| == |rs|
  {
    seq(|rs|, i requires 0 <= i < |rs| => rs[i].0)
  }

  function RejectIds(rs: seq<(Id, Reason)>): (ids: seq<Id>)
    ensures |ids| == |rs|
  {
    seq(|rs|, i requires 0 <= i < |rs| => rs[i].0)
  }

  /** After the loop every command still queued is told that hyperstart closed; a panic tells nobody anything. */
  function Exit(s: State): State {
    if s.panicked then s else s.(looping := false, hist := s.hist.(closed := s.hist.closed + CmdIds(s.cmds)))
  }

  // ---------- what every turn keeps ----------

  /** The bytes written and the bytes still to write are the frames of the accepted commands, in order. */
  predicate WireInv(s: State) {
    && s.index <= |s.data| && s.index <= WINDOW_SIZE
    && s.hist.wire + s.data[s.index..] == EncodeAll(VM_WIDTH, Messages(s.hist.accepted))
    && s.hist.credit + s.index == |s.hist.wire| + s.got
  }

  /** Replies have gone to the accepted commands in order; the rest are queued. */
  predicate QueueInv(s: State) {
    && CmdIds(s.hist.accepted) == ReplyIds(s.hist.replies) + CmdIds(s.cmds)
    && s.cmds == s.hist.accepted[|s.hist.replies|..]
    && multiset(s.hist.requests) == multiset(CmdIds(s.hist.accepted)) + multiset(RejectIds(s.hist.rejects))
  }

  /** A pause waits exactly while commands are queued; paused with no pause waiting means none is. */
  predicate PauseInv(s: State) {
    && (s.pausing.Some? ==> s.paused && s.cmds != [])
    && (s.paused && s.pausing.None? ==> s.cmds == [])
    && s.hist.resumed == s.hist.unpauses
    && multiset(s.hist.pauses) == multiset(s.hist.drained) + multiset(s.hist.released)
                                  + multiset(s.hist.dropped) + multiset(Pending(s.pausing))
  }

  predicate Inv(s: State) {
    WireInv(s) && QueueInv(s) && PauseInv(s)
  }

  lemma AppendMessages(cs: seq<Cmd>, c: Cmd)
    ensures Messages(cs + [c]) == Messages(cs) + [c.msg] && CmdIds(cs + [c]) == CmdIds(cs) + [c.id]
  {
  }

  lemma AppendFrame(wire: seq<byte>, data: seq<byte>, index: nat, f: seq<byte>)
    requires index <= |data|
    ensures wire + (data + f)[index..] == (wire + data[index..]) + f
  {
    assert (data + f)[index..] == data[index..] + f;
  }

  lemma EncodeMore(ms: seq<Message>, msg: Message)
    ensures EncodeAll(VM_WIDTH, ms + [msg]) == EncodeAll(VM_WIDTH, ms) + Encode(VM_WIDTH, msg)
  {
    EncodeAllConcat(VM_WIDTH, ms, [msg]);
    assert EncodeAll(VM_WIDTH, [msg]) == Encode(VM_WIDTH, msg) + [];
  }

  lemma AcceptKeepsWire(s: State, id: Id, msg: Message)
    requires WireInv(s)
    ensures WireInv(Accept(s, id, msg))
  {
    AppendMessages(s.hist.accepted, Cmd(id, msg));
    EncodeMore(Messages(s.hist.accepted), msg);
    AppendFrame(s.hist.wire, s.data, s.index, Encode(VM_WIDTH, msg));
  }

  lemma FlushKeepsWire(s: State, wrote: nat)
    requires WireInv(s)
    ensures WireInv(Flush(s, wrote))
  {
    if s.index == 0 {
      var n := Min(wrote, |Offer(s)|);
      assert Offer(s)[..n] == s.data[..n];
      assert s.data[0..] == s.data[..n] + s.data[n..];
      assert s.hist.wire + s.data[..n] + s.data[n..] == s.hist.wire + s.data[0..];
    } else {
      assert s.hist.wire + [] == s.hist.wire;
    }
  }

  lemma NextKeepsWire(s: State, n: nat)
    requires WireInv(s)
    ensures WireInv(OnNext(s, n))
  {
    if s.index == s.got + n {
      assert s.data[s.index..][0..] == s.data[s.index..];
    }
  }

  lemma TakeKeepsWire(s: State, item: Item)
    requires WireInv(s)
    ensures WireInv(Take(s, item))
  {
    if item.Request? && !s.paused && item.payload.Some? {
      AcceptKeepsWire(s, item.id, Message(item.code, item.payload.value));
    } else if item.Next? && !Short(item) {
      NextKeepsWire(s, Amount(item.ret));
    } else {
      TakeSameWire(s, item);
      SameWire(s, Take(s, item));
    }
  }

  /** What the byte stream's account is about. */
  predicate WireSame(s: State, t: State) {
    && t.index == s.index && t.data == s.data && t.got == s.got
    && t.hist.wire == s.hist.wire && t.hist.accepted == s.hist.accepted && t.hist.credit == s.hist.credit
  }

  lemma SameWire(s: State, t: State)
    requires WireInv(s) && WireSame(s, t)
    ensures WireInv(t)
  {
  }

  lemma TakeSameWire(s: State, item: Item)
    requires item.Next? ==> Short(item)
    requires item.Request? ==> s.paused || item.payload.None?
    ensures WireSame(s, Take(s, item))
  {
  }

  lemma StepKeepsWire(s: State, item: Item, wrote: nat)
    requires WireInv(s)
    ensures WireInv(Step(s, item, wrote))
  {
    TakeKeepsWire(s, item);
    FlushKeepsWire(Take(s, item), wrote);
  }

  lemma PopIds(rs: seq<(Id, Reply)>, r: (Id, Reply), cs: seq<Cmd>)
    requires cs != [] && cs[0].id == r.0
    ensures ReplyIds(rs + [r]) + CmdIds(cs[1..]) == ReplyIds(rs) + CmdIds(cs)
  {
    assert ReplyIds(rs + [r]) == ReplyIds(rs) + [r.0];
    assert CmdIds(cs) == [cs[0].id] + CmdIds(cs[1..]);
  }

  lemma ReplyKeepsQueue(s: State, r: Reply)
    requires QueueInv(s)
    ensures QueueInv(OnReply(s, r))
  {
    if s.cmds != [] {
      var h := s.hist;
      PopIds(h.replies, (s.cmds[0].id, r), s.cmds);
      assert s.cmds[1..] == h.accepted[|h.replies| + 1..];
    }
  }

  lemma AcceptKeepsQueue(s: State, c: Cmd)
    requires QueueInv(s)
    ensures QueueInv(Accept(s, c.id, c.msg))
  {
    AppendMessages(s.hist.accepted, c);
    AppendMessages(s.cmds, c);
    assert multiset(s.hist.requests + [c.id]) == multiset(s.hist.requests) + multiset{c.id};
    assert multiset(CmdIds(s.hist.accepted) + [c.id]) == multiset(CmdIds(s.hist.accepted)) + multiset{c.id};
  }

  lemma RejectKeepsQueue(s: State, id: Id, why: Reason)
    requires QueueInv(s)
    ensures QueueInv(Reject(s, id, why))
  {
    assert RejectIds(s.hist.rejects + [(id, why)]) == RejectIds(s.hist.rejects) + [id];
    assert multiset(s.hist.requests + [id]) == multiset(s.hist.requests) + multiset{id};
    assert multiset(RejectIds(s.hist.rejects) + [id]) == multiset(RejectIds(s.hist.rejects)) + multiset{id};
  }

  lemma RequestKeepsQueue(s: State, id: Id, code: nat, payload: Option<seq<byte>>)
    requires QueueInv(s)
    ensures QueueInv(Take(s, Request(id, code, payload)))
  {
    if !s.paused && payload.Some? {
      AcceptKeepsQueue(s, Cmd(id, Message(code, payload.value)));
    } else {
      RejectKeepsQueue(s, id, if s.paused then VmPaused else MarshalFailed);
    }
  }

  lemma StepKeepsQueue(s: State, item: Item, wrote: nat)
    requires QueueInv(s)
    ensures QueueInv(Step(s, item, wrote))
  {
    match item
    case Ack(ret) => ReplyKeepsQueue(s, Reply(true, ret));
    case Error(ret) => ReplyKeepsQueue(s, Reply(false, ret));
    case Request(id, code, payload) => RequestKeepsQueue(s, id, code, payload);
    case _ => OtherKeepsQueue(s, item, wrote);
  }

  lemma OtherKeepsQueue(s: State, item: Item, wrote: nat)
    requires QueueInv(s) && (item.Next? || item.PauseSync? || item.Unpause?)
    ensures QueueInv(Step(s, item, wrote))
  {
    TakeSameQueue(s, item);
    SameQueue(s, Step(s, item, wrote));
  }

  /** What the queue's account is about. */
  predicate QueueSame(s: State, t: State) {
    && t.cmds == s.cmds && t.hist.accepted == s.hist.accepted && t.hist.replies == s.hist.replies
    && t.hist.requests == s.hist.requests && t.hist.rejects == s.hist.rejects
  }

  lemma SameQueue(s: State, t: State)
    requires QueueInv(s) && QueueSame(s, t)
    ensures QueueInv(t)
  {
  }

  lemma TakeSameQueue(s: State, item: Item)
    requires item.Next? || item.PauseSync? || item.Unpause?
    ensures QueueSame(s, Take(s, item))
  {
    match item
    case Next(ret) => assert QueueSame(s, OnNext(s, Amount(ret)));
    case PauseSync(id) => assert QueueSame(s, OnPause(s, id));
    case Unpause(id) => assert QueueSame(s, OnUnpause(s, id));
  }

  lemma PauseKeepsPause(s: State, id: Id)
    requires PauseInv(s)
    ensures PauseInv(OnPause(s, id))
  {
    var h := s.hist;
    assert multiset(h.pauses + [id]) == multiset(h.pauses) + multiset{id};
    assert multiset(h.dropped + Pending(s.pausing)) == multiset(h.dropped) + multiset(Pending(s.pausing));
    assert multiset(h.drained + [id]) == multiset(h.drained) + multiset{id};
    assert multiset(Pending(Some(id))) == multiset{id};
  }

  lemma UnpauseKeepsPause(s: State, id: Id)
    requires PauseInv(s)
    ensures PauseInv(OnUnpause(s, id))
  {
    var h := s.hist;
    assert multiset(h.released + Pending(s.pausing)) == multiset(h.released) + multiset(Pending(s.pausing));
  }

  lemma TakeKeepsPause(s: State, item: Item)
    requires PauseInv(s)
    ensures PauseInv(Take(s, item))
  {
    match item
    case PauseSync(id) => PauseKeepsPause(s, id);
    case Unpause(id) => UnpauseKeepsPause(s, id);
    case Ack(ret) => ReplyKeepsPause(s, Reply(true, ret));
    case Error(ret) => ReplyKeepsPause(s, Reply(false, ret));
    case Next(ret) => NextKeepsPause(s, Amount(ret));
    case Request(id, code, payload) => RequestKeepsPause(s, id, code, payload);
  }

  lemma NextKeepsPause(s: State, n: nat)
    requires PauseInv(s)
    ensures PauseInv(OnNext(s, n))
  {
  }

  lemma RequestKeepsPause(s: State, id: Id, code: nat, payload: Option<seq<byte>>)
    requires PauseInv(s)
    ensures PauseInv(Take(s, Request(id, code, payload)))
  {
  }

  lemma StepKeepsPause(s: State, item: Item, wrote: nat)
    requires PauseInv(s)
    ensures PauseInv(Step(s, item, wrote))
  {
    TakeKeepsPause(s, item);
  }

  lemma ReplyKeepsPause(s: State, r: Reply)
    requires PauseInv(s)
    ensures PauseInv(OnReply(s, r))
  {
    var h := s.hist;
    assert multiset(h.drained + Pending(s.pausing)) == multiset(h.drained) + multiset(Pending(s.pausing));
  }

  /** Every turn of the loop keeps the byte stream, the queue and the pause bookkeeping right. */
  lemma StepKeepsInv(s: State, item: Item, wrote: nat)
    requires Inv(s)
    ensures Inv(Step(s, item, wrote))
  {
    StepKeepsWire(s, item, wrote);
    StepKeepsQueue(s, item, wrote);
    StepKeepsPause(s, item, wrote);
  }

  lemma {:induction false} RunKeepsInv(paused: bool, items: seq<Item>, wrote: seq<nat>)
    requires |wrote| == |items|
    ensures Inv(Run(Init(paused), items, wrote))
  {
    if items != [] {
      var n := |items| - 1;
      RunKeepsInv(paused, items[..n], wrote[..n]);
      var s := Run(Init(paused), items[..n], wrote[..n]);
      if s.looping {
        StepKeepsInv(s, items[n], wrote[n]);
      }
    }
  }

  // ---------- whole runs ----------

  /** For every sequence of items and every pattern of short writes at most 512 bytes are uncredited. */
  lemma WindowBounded(paused: bool, items: seq<Item>, wrote: seq<nat>)
    requires |wrote| == |items|
    ensures var s := Run(Init(paused), items, wrote);
      |s.hist.wire| - s.hist.credit <= 512
  {
    RunKeepsInv(paused, items, wrote);
  }

  /**
   For every sequence of items and every pattern of short writes, a reader of what was written
   gets a prefix of the accepted commands, cut at a frame boundary or inside the next frame.
   */
  lemma WireCarriesAccepted(paused: bool, items: seq<Item>, wrote: seq<nat>)
    requires |wrote| == |items|
    requires AllFit(VM_WIDTH, Messages(Run(Init(paused), items, wrote).hist.accepted))
    ensures var s := Run(Init(paused), items, wrote);
      var r := Split(VM_WIDTH, s.hist.wire);
      PrefixOf(VM_WIDTH, Messages(s.hist.accepted), r.0, r.1)
  {
    RunKeepsInv(paused, items, wrote);
    WireSplit(Run(Init(paused), items, wrote));
  }

  lemma WireSplit(s: State)
    requires WireInv(s) && AllFit(VM_WIDTH, Messages(s.hist.accepted))
    ensures var r := Split(VM_WIDTH, s.hist.wire);
      && PrefixOf(VM_WIDTH, Messages(s.hist.accepted), r.0, r.1)
      && EncodeAll(VM_WIDTH, r.0) + r.1 == s.hist.wire
  {
    var all := EncodeAll(VM_WIDTH, Messages(s.hist.accepted));
    assert all[..|s.hist.wire|] == s.hist.wire;
    SplitPrefix(VM_WIDTH, Messages(s.hist.accepted), |s.hist.wire|);
  }

  /**
   Every request ends with one result: rejected ones are exactly those not accepted, and the
   accepted ones get replies in acceptance order until the loop ends and the rest are closed.
   */
  lemma RequestsAnsweredOnce(paused: bool, items: seq<Item>, wrote: seq<nat>)
    requires |wrote| == |items|
    ensures var s := Exit(Run(Init(paused), items, wrote));
      var h := s.hist;
      && (s.panicked ==> h.closed == [] && CmdIds(h.accepted) == ReplyIds(h.replies) + CmdIds(s.cmds))
      && (!s.panicked ==>
            && CmdIds(h.accepted) == ReplyIds(h.replies) + h.closed
            && multiset(h.requests) == multiset(ReplyIds(h.replies)) + multiset(h.closed) + multiset(RejectIds(h.rejects)))
  {
    RunKeepsInv(paused, items, wrote);
    NothingClosedYet(paused, items, wrote);
    var s := Run(Init(paused), items, wrote);
    assert !s.panicked ==> Exit(s).hist.closed == CmdIds(s.cmds);
  }

  /** The sender panics exactly when it takes a NEXT without a body. */
  lemma {:induction false} PanicsExactly(paused: bool, items: seq<Item>, wrote: seq<nat>)
    requires |wrote| == |items|
    ensures Run(Init(paused), items, wrote).panicked <==>
      exists k :: 0 <= k < |items| && Short(items[k]) && Taken(paused, items, wrote, k)
  {
    if items != [] {
      var n := |items| - 1;
      PanicsExactly(paused, items[..n], wrote[..n]);
      StepPanics(Run(Init(paused), items[..n], wrote[..n]), items[n], wrote[n]);
      forall k | 0 <= k < n
        ensures Taken(paused, items[..n], wrote[..n], k) == Taken(paused, items, wrote, k)
      {
        SamePrefix(items, wrote, n, k);
      }
      if k :| 0 <= k < n && Short(items[..n][k]) && Taken(paused, items[..n], wrote[..n], k) {
        assert Short(items[k]) && Taken(paused, items, wrote, k);
      }
      if k :| 0 <= k < |items| && Short(items[k]) && Taken(paused, items, wrote, k) {
        if k < n {
          assert Short(items[..n][k]) && Taken(paused, items[..n], wrote[..n], k);
        }
      }
    }
  }

  lemma StepPanics(s: State, item: Item, wrote: nat)
    ensures Step(s, item, wrote).panicked <==> s.panicked || Short(item)
  {
  }

  /** The loop is still running when item `k` comes. */
  predicate Taken(paused: bool, items: seq<Item>, wrote: seq<nat>, k: nat)
    requires |wrote| == |items| && k < |items|
  {
    Run(Init(paused), items[..k], wrote[..k]).looping
  }

  lemma SamePrefix(items: seq<Item>, wrote: seq<nat>, n: nat, k: nat)
    requires |wrote| == |items| && k <= n <= |items|
    ensures items[..n][..k] == items[..k] && wrote[..n][..k] == wrote[..k]
  {
  }

  lemma {:induction false} NothingClosedYet(paused: bool, items: seq<Item>, wrote: seq<nat>)
    requires |wrote| == |items|
    ensures Run(Init(paused), items, wrote).hist.closed == []
  {
    if items != [] {
      var n := |items| - 1;
      NothingClosedYet(paused, items[..n], wrote[..n]);
      StepCloses(Run(Init(paused), items[..n], wrote[..n]), items[n], wrote[n]);
    }
  }

  lemma StepCloses(s: State, item: Item, wrote: nat)
    ensures Step(s, item, wrote).hist.closed == s.hist.closed
  {
  }

  /** Every pause is answered once, unless a later pause replaced it or it still waits when the loop ends. */
  lemma PausesAnsweredOnce(paused: bool, items: seq<Item>, wrote: seq<nat>)
    requires |wrote| == |items|
    ensures var s := Run(Init(paused), items, wrote);
      && s.hist.resumed == s.hist.unpauses
      && multiset(s.hist.pauses) == multiset(s.hist.drained) + multiset(s.hist.released)
                                    + multiset(s.hist.dropped) + multiset(Pending(s.pausing))
  {
    RunKeepsInv(paused, items, wrote);
  }

  /** A pause is waiting: the sender is paused and commands are outstanding. */
  predicate PauseWaits(s: State) {
    s.paused && s.cmds != []
  }

  /** Item `k` is a pause that comes while another one waits. */
  predicate Replaces(paused: bool, items: seq<Item>, wrote: seq<nat>, k: nat)
    requires |wrote| == |items| && k < |items|
  {
    items[k].PauseSync? && Taken(paused, items, wrote, k) && PauseWaits(Run(Init(paused), items[..k], wrote[..k]))
  }

  lemma StepDrops(s: State, item: Item, wrote: nat)
    requires PauseInv(s)
    ensures Step(s, item, wrote).hist.dropped == [] <==> s.hist.dropped == [] && !(item.PauseSync? && PauseWaits(s))
  {
    if item.PauseSync? {
      assert s.pausing.Some? <==> PauseWaits(s);
    } else {
      OthersDropNone(s, item);
    }
  }

  lemma OthersDropNone(s: State, item: Item)
    requires !item.PauseSync?
    ensures Take(s, item).hist.dropped == s.hist.dropped
  {
  }

  /** The pauses that were forgotten: there is one exactly when some pause came while another waited. */
  lemma {:induction false} DroppedMeans(paused: bool, items: seq<Item>, wrote: seq<nat>)
    requires |wrote| == |items|
    ensures Run(Init(paused), items, wrote).hist.dropped == [] <==>
      forall k :: 0 <= k < |items| ==> !Replaces(paused, items, wrote, k)
  {
    if items != [] {
      var n := |items| - 1;
      DroppedMeans(paused, items[..n], wrote[..n]);
      RunKeepsInv(paused, items[..n], wrote[..n]);
      StepDrops(Run(Init(paused), items[..n], wrote[..n]), items[n], wrote[n]);
      ReplacesEarlier(paused, items, wrote);
      if forall k :: 0 <= k < n ==> !Replaces(paused, items[..n], wrote[..n], k) {
        if !Replaces(paused, items, wrote, n) {
          assert forall k :: 0 <= k < |items| ==> !Replaces(paused, items, wrote, k);
        }
      } else {
        var k :| 0 <= k < n && Replaces(paused, items[..n], wrote[..n], k);
        assert Replaces(paused, items, wrote, k);
      }
    }
  }

  lemma ReplacesEarlier(paused: bool, items: seq<Item>, wrote: seq<nat>)
    requires |wrote| == |items| > 0
    ensures var n := |items| - 1;
      forall k :: 0 <= k < n ==> Replaces(paused, items[..n], wrote[..n], k) == Replaces(paused, items, wrote, k)
  {
    var n := |items| - 1;
    forall k | 0 <= k < n
      ensures Replaces(paused, items[..n], wrote[..n], k) == Replaces(paused, items, wrote, k)
    {
      SamePrefix(items, wrote, n, k);
    }
  }

  /**
   In every run, from the first item to after the loop: every pause is answered if and only if
   no pause came while another one waited, and none waits when the loop ends.
   */
  lemma PausesAllAnswered(paused: bool, items: seq<Item>, wrote: seq<nat>)
    requires |wrote| == |items|
    ensures var s := Run(Init(paused), items, wrote);
      var h := Exit(s).hist;
      multiset(h.pauses) == multiset(h.drained) + multiset(h.released) <==>
        (forall k :: 0 <= k < |items| ==> !Replaces(paused, items, wrote, k)) && !PauseWaits(s)
  {
    RunKeepsInv(paused, items, wrote);
    DroppedMeans(paused, items, wrote);
    LostPauses(Run(Init(paused), items, wrote));
  }

  lemma LostPauses(s: State)
    requires PauseInv(s)
    ensures var h := s.hist;
      multiset(h.pauses) == multiset(h.drained) + multiset(h.released) <==> h.dropped == [] && !PauseWaits(s)
  {
    var h := s.hist;
    assert PauseWaits(s) <==> s.pausing.Some?;
    assert |multiset(h.pauses)| == |h.drained| + |h.released| + |h.dropped| + |Pending(s.pausing)|;
    if h.dropped == [] && s.pausing.None? {
      assert multiset(h.dropped) == multiset{} && multiset(Pending(s.pausing)) == multiset{};
    }
  }

  /** Two commands are accepted, the first of them DESTROYPOD. */
  lemma TwoAccepted()
    ensures var s := Step(Step(Init(false), Request(1, DESTROY_POD, Some([])), 8), Request(2, 12, Some([])), 0);
      && Step(Init(false), Request(1, DESTROY_POD, Some([])), 8).looping && s.looping && !s.panicked && s.pausing == None
      && s.cmds == [Cmd(1, Message(DESTROY_POD, [])), Cmd(2, Message(12, []))]
      && s.hist.pauses == [] && s.hist.dropped == [] && s.hist.drained == [] && s.hist.released == [] && s.hist.closed == []
  {
    var s1 := Step(Init(false), Request(1, DESTROY_POD, Some([])), 8);
    assert s1.cmds == [Cmd(1, Message(DESTROY_POD, []))];
  }

  /** The reply to DESTROYPOD ends the loop while another command is outstanding: the pause waiting for it is never answered. */
  lemma PauseLostAtEnd()
    ensures
      var items := [Request(1, DESTROY_POD, Some([])), Request(2, 12, Some([])), PauseSync(3), Ack([])];
      var s := Run(Init(false), items, [8, 0, 0, 0]);
      var h := Exit(s).hist;
      !s.looping && PauseWaits(s) && h.pauses == [3] && h.dropped == [] && h.drained == [] && h.released == [] && h.closed == [2]
  {
    var items := [Request(1, DESTROY_POD, Some([])), Request(2, 12, Some([])), PauseSync(3), Ack([])];
    var s1 := Step(Init(false), items[0], 8);
    var s2 := Step(s1, items[1], 0);
    TwoAccepted();
    var s3 := Step(s2, PauseSync(3), 0);
    PauseThenEnd(s2, s3);
    RunFour(items, [8, 0, 0, 0], s1, s2, s3);
  }

  lemma PauseThenEnd(s: State, t: State)
    requires s.looping && !s.panicked && s.pausing == None && t == Step(s, PauseSync(3), 0)
    requires s.cmds == [Cmd(1, Message(DESTROY_POD, [])), Cmd(2, Message(12, []))] && s.hist.closed == []
    ensures t.looping && t.hist.pauses == s.hist.pauses + [3]
    ensures var u := Step(t, Ack([]), 0);
      && !u.looping && PauseWaits(u) && Exit(u).hist.closed == [2] && u.hist.pauses == t.hist.pauses
      && u.hist.dropped == s.hist.dropped && u.hist.drained == s.hist.drained && u.hist.released == s.hist.released
  {
    assert t.cmds == s.cmds && t.pausing == Some(3);
    var u := Step(t, Ack([]), 0);
    assert u.cmds == [Cmd(2, Message(12, []))];
    assert CmdIds(u.cmds) == [2];
  }

  lemma RunFour(items: seq<Item>, wrote: seq<nat>, s1: State, s2: State, s3: State)
    requires |items| == 4 && |wrote| == 4
    requires s1 == Step(Init(false), items[0], wrote[0]) && s2 == Step(s1, items[1], wrote[1]) && s3 == Step(s2, items[2], wrote[2])
    requires s1.looping && s2.looping && s3.looping
    ensures Run(Init(false), items, wrote) == Step(s3, items[3], wrote[3])
  {
    SamePrefix(items, wrote, 3, 2);
    SamePrefix(items, wrote, 2, 1);
    SamePrefix(items, wrote, 1, 0);
    assert Run(Init(false), items[..0], wrote[..0]) == Init(false);
    assert Run(Init(false), items[..1], wrote[..1]) == s1;
    assert Run(Init(false), items[..2], wrote[..2]) == s2;
    assert Run(Init(false), items[..3], wrote[..3]) == s3;
  }

  /** Two pauses during one outstanding command: the caller of the first is never answered. */
  lemma FirstPauseLost()
    ensures
      var s1 := Step(Init(false), Request(1, 12, Some([])), 8);
      var s2 := Step(Step(s1, PauseSync(2), 0), PauseSync(3), 0);
      var h := Exit(Step(s2, Ack([]), 0)).hist;
      h.pauses == [2, 3] && h.drained == [3] && h.released == [] && h.closed == []
  {
    var s1 := Step(Init(false), Request(1, 12, Some([])), 8);
    assert s1.cmds == [Cmd(1, Message(12, []))] && s1.hist == Init(false).hist.(requests := s1.hist.requests,
      accepted := s1.hist.accepted, wire := s1.hist.wire);
    TwoPauses(s1, Step(Step(s1, PauseSync(2), 0), PauseSync(3), 0));
  }

  lemma TwoPauses(s: State, t: State)
    requires |s.cmds| == 1 && !s.panicked && s.pausing == None && t == Step(Step(s, PauseSync(2), 0), PauseSync(3), 0)
    ensures t.hist.pauses == s.hist.pauses + [2, 3] && t.hist.drained == s.hist.drained
    ensures var h := Exit(Step(t, Ack([]), 0)).hist;
      && h.pauses == t.hist.pauses && h.drained == s.hist.drained + [3] && h.released == s.hist.released && h.closed == s.hist.closed
  {
    assert t.cmds == s.cmds && t.pausing == Some(3);
    var u := Step(t, Ack([]), 0);
    assert u.cmds == [];
    assert CmdIds(u.cmds) == [];
  }

  /** Once a pause is answered by draining the queue, nothing is queued or accepted until an unpause. */
  lemma {:induction false} PauseHolds(s: State, items: seq<Item>, wrote: seq<nat>)
    requires |wrote| == |items| && Inv(s) && s.paused && s.pausing.None?
    requires forall i :: 0 <= i < |items| ==> !items[i].Unpause?
    ensures var t := Run(s, items, wrote);
      && Inv(t) && t.paused && t.pausing.None? && t.cmds == []
      && t.hist.accepted == s.hist.accepted && t.hist.replies == s.hist.replies
  {
    if items != [] {
      var n := |items| - 1;
      PauseHolds(s, items[..n], wrote[..n]);
      var t := Run(s, items[..n], wrote[..n]);
      if t.looping {
        StepKeepsInv(t, items[n], wrote[n]);
        PauseHoldsStep(t, items[n], wrote[n]);
      }
    }
  }

  lemma PauseHoldsStep(s: State, item: Item, wrote: nat)
    requires PauseInv(s) && s.paused && s.pausing.None? && !item.Unpause?
    ensures var t := Step(s, item, wrote);
      && t.paused && t.pausing.None? && t.cmds == []
      && t.hist.accepted == s.hist.accepted && t.hist.replies == s.hist.replies
  {
  }

  // ---------- closing ----------

  /** Close drains the items left on the channel; the drain blocks for ever on a NEXT, which has no result channel. */
  predicate DrainBlocks(items: seq<Item>) {
    exists i :: 0 <= i < |items| && items[i].Next?
  }

  /** The commands that own a result channel, in channel order. */
  function CommandIds(items: seq<Item>): (ids: seq<Id>) {
    if items == [] then []
    else
      var front := CommandIds(items[..|items| - 1]);
      match items[|items| - 1]
      case PauseSync(id) => front + [id]
      case Unpause(id) => front + [id]
      case Request(id, _, _) => front + [id]
      case _ => front
  }

  /** The drain in Close: it ends exactly when no NEXT is queued, having answered every command once. */
  method Drain(items: seq<Item>) returns (done: bool, closed: seq<Id>)
    ensures done <==> !DrainBlocks(items)
    ensures done ==> closed == CommandIds(items)
    ensures closed <= CommandIds(items)
  {
    closed := [];
    var i := 0;
    while i < |items|
      invariant 0 <= i <= |items|
      invariant closed == CommandIds(items[..i])
      invariant !DrainBlocks(items[..i])
    {
      var item := items[i];
      assert items[..i + 1][..i] == items[..i];
      if item.Next? {
        CommandIdsPrefix(items, i);
        return false, closed;
      }
      match item {
        case PauseSync(id) => closed := closed + [id];
        case Unpause(id) => closed := closed + [id];
        case Request(id, _, _) => closed := closed + [id];
        case _ =>
      }
      i := i + 1;
    }
    assert items[..|items|] == items;
    done := true;
  }

  lemma {:induction false} CommandIdsPrefix(items: seq<Item>, i: nat)
    requires i <= |items|
    ensures CommandIds(items[..i]) <= CommandIds(items)
  {
    if i == |items| {
      assert items[..i] == items;
    } else {
      var n := |items| - 1;
      CommandIdsPrefix(items[..n], i);
      assert items[..n][..i] == items[..i];
    }
  }

  // ---------- the sender as an object ----------

  class Sender {
    var looping: bool
    var cmds: seq<Cmd>
    var data: seq<byte>
    var index: nat
    var got: nat
    var paused: bool
    var pausing: Option<Id>
    var panicked: bool
    var hist: History

    ghost function View(): State
      reads this
    {
      State(looping, cmds, data, index, got, paused, pausing, panicked, hist)
    }

    constructor (startPaused: bool)
      ensures View() == Init(startPaused)
    {
      looping, cmds, data, index, got := true, [], [], 0, 0;
      paused, pausing, panicked := startPaused, None, false;
      hist := History([], [], [], [], [], 0, [], [], [], [], [], [], []);
    }

    /** conn.Write may take any number of the bytes. */
    method ConnWrite(bytes: seq<byte>) returns (wrote: nat)
      modifies `hist
      ensures wrote <= |bytes|
      ensures hist == old(hist).(wire := old(hist).wire + bytes[..wrote])
    {
      var most := |bytes|;
      wrote :| 0 <= wrote <= most;
      hist := hist.(wire := hist.wire + bytes[..wrote]);
    }

    method HandleReply(ok: bool, ret: seq<byte>)
      modifies this
      ensures View() == OnReply(old(View()), Reply(ok, ret))
    {
      if |cmds| > 0 {
        if cmds[0].msg.tag == DESTROY_POD {
          looping := false;
        }
        hist := hist.(replies := hist.replies + [(cmds[0].id, Reply(ok, ret))]);
        cmds := cmds[1..];
        if pausing.Some? && |cmds| == 0 {
          hist := hist.(drained := hist.drained + [pausing.value]);
          pausing := None;
        }
      }
    }

    /** The branches that may be followed by a write; `skip` is the loop's `continue`, or a panic. */
    method HandleOther(item: Item) returns (skip: bool)
      requires !item.Ack? && !item.Error?
      requires index <= |data|
      modifies this
      ensures View() == Take(old(View()), item)
      ensures skip == !Flushes(old(View()), item)
    {
      skip := false;
      match item
      case Next(ret) =>
        if ret == [] {
          panicked, looping := true, false;
          return true;
        }
        var n := FromBE(Window(ret));
        got := got + n;
        hist := hist.(credit := hist.credit + n);
        if index == got {
          data := data[index..];
          index, got := 0, 0;
        }
      case PauseSync(id) =>
        hist := hist.(pauses := hist.pauses + [id], dropped := hist.dropped + (if pausing.Some? then [pausing.value] else []));
        paused, pausing := true, Some(id);
        if |cmds| == 0 {
          hist := hist.(drained := hist.drained + [pausing.value]);
          pausing := None;
        }
      case Unpause(id) =>
        hist := hist.(unpauses := hist.unpauses + [id], resumed := hist.resumed + [id],
                      released := hist.released + (if pausing.Some? then [pausing.value] else []));
        paused, pausing := false, None;
      case Request(id, code, payload) =>
        hist := hist.(requests := hist.requests + [id]);
        if paused {
          hist := hist.(rejects := hist.rejects + [(id, VmPaused)]);
          skip := true;
        } else if payload.None? {
          hist := hist.(rejects := hist.rejects + [(id, MarshalFailed)]);
          skip := true;
        } else {
          var msg := Message(code, payload.value);
          cmds := cmds + [Cmd(id, msg)];
          hist := hist.(accepted := hist.accepted + [Cmd(id, msg)]);
          data := data + Encode(VM_WIDTH, msg);
        }
    }

    /** One turn of the loop, and what the connection took of it. */
    method Turn(item: Item) returns (wrote: nat)
      requires WireInv(View())
      modifies this
      ensures View() == Step(old(View()), item, wrote)
    {
      wrote := 0;
      if item.Ack? || item.Error? {
        HandleReply(item.Ack?, item.ret);
      } else {
        var skip := HandleOther(item);
        if !skip {
          ghost var taken := View();
          assert taken.hist.wire + [] == taken.hist.wire;
          if index == 0 && |data| != 0 {
            var end := |data|;
            if end > WINDOW_SIZE {
              end := WINDOW_SIZE;
            }
            assert data[..end] == Offer(taken);
            wrote := ConnWrite(data[..end]);
            index := index + wrote;
          }
          assert View() == Flush(taken, wrote);
        }
      }
    }

    /** Every command still queued gets the closed error. */
    method CloseQueued()
      requires !panicked
      modifies this
      ensures View() == Exit(old(View()))
    {
      var k := 0;
      while k < |cmds|
        invariant 0 <= k <= |cmds|
        invariant View() == old(View()).(hist := hist)
        invariant hist == old(hist).(closed := old(hist).closed + CmdIds(cmds)[..k])
      {
        hist := hist.(closed := hist.closed + [cmds[k].id]);
        k := k + 1;
      }
      looping := false;
    }

    /** handleMsgToHyperstart: the loop over the control channel, then the closing of what is left. */
    method HandleMsgToHyperstart(items: seq<Item>) returns (ghost wrote: seq<nat>)
      requires WireInv(View())
      modifies this
      ensures |wrote| == |items|
      ensures View() == Exit(Run(old(View()), items, wrote))
    {
      ghost var start := View();
      wrote := [];
      var i := 0;
      while looping && i < |items|
        invariant 0 <= i <= |items| && |wrote| == i
        invariant View() == Run(start, items[..i], wrote)
        invariant WireInv(View())
      {
        ghost var before := View();
        var w := Turn(items[i]);
        StepKeepsWire(before, items[i], w);
        assert items[..i + 1][..i] == items[..i] && (wrote + [w])[..i] == wrote;
        wrote := wrote + [w];
        i := i + 1;
      }
      if !looping {
        StoppedRun(start, items, i, wrote);
        wrote := wrote + seq(|items| - i, _ => 0);
      } else {
        assert items[..i] == items;
      }
      if !panicked {
        CloseQueued();
      }
    }
  }

  lemma {:induction false} StoppedRun(s: State, items: seq<Item>, i: nat, wrote: seq<nat>)
    requires i <= |items| && |wrote| == i && !Run(s, items[..i], wrote).looping
    ensures Run(s, items, wrote + seq(|items| - i, _ => 0)) == Run(s, items[..i], wrote)
  {
    var n := |items| - 1;
    if i == |items| {
      assert items[..i] == items && wrote + seq(0, _ => 0) == wrote;
    } else {
      assert items[..n][..i] == items[..i];
      StoppedRun(s, items[..n], i, wrote);
      assert (wrote + seq(|items| - i, _ => 0))[..n] == wrote + seq(n - i, _ => 0);
    }
  }
}
