/**
 The length-prefixed frames of the two hyperstart sockets.

 A frame is a tag (a 4-byte command code on the control socket, an 8-byte session number on
 the tty socket), a 4-byte total length and a body. `width` is the number of tag bytes.
 */
module Frames {
  import opened Bytes

  type Width = w: nat | w == 4 || w == 8 witness 4
  const VM_WIDTH: Width := 4
  const TTY_WIDTH: Width := 8
  const READ_LIMIT := 512

  datatype Message = Message(tag: nat, body: seq<byte>)

  function HeaderSize(width: Width): nat { width + 4 }

  /** newVmMessage and TtyMessage.ToBuffer; the length field is truncated to 32 bits. */
  function Encode(width: Width, m: Message): (s: seq<byte>)
    ensures |s| == HeaderSize(width) + |m.body|
  {
    ToBE(m.tag, width) + ToBE(|m.body| + HeaderSize(width), 4) + m.body
  }

  /** The layout on the two sockets: tag, total length and body, big-endian. */
  lemma FrameLayout(b: byte)
    ensures Encode(VM_WIDTH, Message(0x01020304, [b])) == [1, 2, 3, 4, 0, 0, 0, 9, b]
    ensures Encode(TTY_WIDTH, Message(0x01020304_05060708, [b])) == [1, 2, 3, 4, 5, 6, 7, 8, 0, 0, 0, 13, b]
  {
    SmallLayout();
    LargeLayout();
    assert [1, 2, 3, 4] + [0, 0, 0, 9] + [b] == [1, 2, 3, 4, 0, 0, 0, 9, b];
    assert [1, 2, 3, 4, 5, 6, 7, 8] + [0, 0, 0, 13] + [b] == [1, 2, 3, 4, 5, 6, 7, 8, 0, 0, 0, 13, b];
  }

  lemma SmallLayout()
    ensures ToBE(0x01020304, 4) == [1, 2, 3, 4] && ToBE(9, 4) == [0, 0, 0, 9] && ToBE(13, 4) == [0, 0, 0, 13]
  {
  }

  lemma LargeLayout()
    ensures ToBE(0x01020304_05060708, 8) == [1, 2, 3, 4, 5, 6, 7, 8]
  {
    SmallLayout();
    assert ToBE(0x01020304_05, 5) == [1, 2, 3, 4, 5];
    assert ToBE(0x01020304_0506, 6) == [1, 2, 3, 4, 5, 6];
    assert ToBE(0x01020304_050607, 7) == [1, 2, 3, 4, 5, 6, 7];
  }

  function EncodeAll(width: Width, ms: seq<Message>): seq<byte> {
    if ms == [] then [] else Encode(width, ms[0]) + EncodeAll(width, ms[1..])
  }

  /** The bytes a reader needs before it returns, once it has a header. */
  function Needed(width: Width, bytes: seq<byte>): (n: nat)
    requires |bytes| >= HeaderSize(width)
    ensures n >= HeaderSize(width)
  {
    Max(FromBE(bytes[width..HeaderSize(width)]), HeaderSize(width))
  }

  /** Where the first frame ends; a reader takes no byte beyond. */
  function FrameEnd(width: Width, bytes: seq<byte>): nat {
    if |bytes| < HeaderSize(width) then |bytes| else Needed(width, bytes)
  }

  /** What a reader of `bytes` returns and what it leaves; None when the bytes run out first. */
  function Decode(width: Width, bytes: seq<byte>): (r: Option<(Message, seq<byte>)>) {
    var h := HeaderSize(width);
    if |bytes| < h then None
    else
      var n := Needed(width, bytes);
      if |bytes| < n then None
      else Some((Message(FromBE(bytes[..width]), bytes[h..n]), bytes[n..]))
  }

  /** Reading frames until the bytes run out: the messages, and the incomplete tail. */
  function Split(width: Width, bytes: seq<byte>): (r: (seq<Message>, seq<byte>))
    decreases |bytes|
  {
    match Decode(width, bytes)
    case None => ([], bytes)
    case Some((m, rest)) => var (ms, tail) := Split(width, rest); ([m] + ms, tail)
  }

  /** The message can be stored in a frame: its tag and its length fit their fields. */
  predicate Fits(width: Width, m: Message) {
    m.tag < Pow256(width) && |m.body| + HeaderSize(width) < 0x1_0000_0000
  }

  predicate AllFit(width: Width, ms: seq<Message>) {
    forall i :: 0 <= i < |ms| ==> Fits(width, ms[i])
  }

  lemma HeaderFields(width: Width, m: Message, rest: seq<byte>)
    ensures var b := Encode(width, m) + rest;
      && FromBE(b[..width]) == m.tag % Pow256(width)
      && FromBE(b[width..HeaderSize(width)]) == (|m.body| + HeaderSize(width)) % 0x1_0000_0000
  {
    var b := Encode(width, m) + rest;
    assert b[..width] == ToBE(m.tag, width);
    assert b[width..width + 4] == ToBE(|m.body| + width + 4, 4);
    StoreLoad(m.tag, width);
    StoreLoad(|m.body| + width + 4, 4);
    Pow256Values();
  }

  lemma DecodeFits(width: Width, m: Message, rest: seq<byte>)
    requires Fits(width, m)
    ensures Decode(width, Encode(width, m) + rest) == Some((m, rest))
  {
    var b := Encode(width, m) + rest;
    var h := HeaderSize(width);
    HeaderFields(width, m, rest);
    ModSmall(m.tag, Pow256(width));
    ModSmall(|m.body| + h, 0x1_0000_0000);
    assert Needed(width, b) == |m.body| + h;
    assert b[h..|m.body| + h] == m.body;
    assert b[|m.body| + h..] == rest;
  }

  lemma ModSmall(x: nat, m: nat)
    requires m > 0
    ensures x % m == x <==> x < m
  {
  }

  /** A written frame is read back, and nothing beyond it is consumed, exactly when the message fits. */
  lemma RoundTrip(width: Width, m: Message, rest: seq<byte>)
    ensures Decode(width, Encode(width, m) + rest) == Some((m, rest)) <==> Fits(width, m)
  {
    if Fits(width, m) {
      DecodeFits(width, m, rest);
    } else {
      var b := Encode(width, m) + rest;
      HeaderFields(width, m, rest);
      ModSmall(m.tag, Pow256(width));
      ModSmall(|m.body| + HeaderSize(width), 0x1_0000_0000);
      assert |m.body| + HeaderSize(width) >= 0x1_0000_0000 ==> Needed(width, b) < |m.body| + HeaderSize(width);
    }
  }

  /** A strict prefix of a frame is never mistaken for a frame. */
  lemma PrefixIncomplete(width: Width, m: Message, n: nat)
    requires Fits(width, m) && n < |Encode(width, m)|
    ensures Decode(width, Encode(width, m)[..n]) == None
  {
    var h := HeaderSize(width);
    var b := Encode(width, m);
    if n >= h {
      HeaderFields(width, m, []);
      ModSmall(|m.body| + h, 0x1_0000_0000);
      assert b + [] == b;
      assert b[..n][width..h] == b[width..h];
      assert Needed(width, b[..n]) == |b|;
    }
  }

  /** `got` and `tail` are what a reader of the bytes of `ms` up to some point holds. */
  predicate PrefixOf(width: Width, ms: seq<Message>, got: seq<Message>, tail: seq<byte>) {
    && |got| <= |ms| && got == ms[..|got|]
    && (if |got| < |ms| then |tail| < |Encode(width, ms[|got|])| else tail == [])
  }

  /** A reader stopped anywhere in a stream of frames has returned exactly the frames it holds entirely. */
  lemma {:induction false} SplitPrefix(width: Width, ms: seq<Message>, n: nat)
    requires AllFit(width, ms) && n <= |EncodeAll(width, ms)|
    ensures var r := Split(width, EncodeAll(width, ms)[..n]);
      PrefixOf(width, ms, r.0, r.1) && EncodeAll(width, r.0) + r.1 == EncodeAll(width, ms)[..n]
    decreases |ms|
  {
    var all := EncodeAll(width, ms);
    if ms == [] {
      assert all[..n] == [];
    } else {
      var f := Encode(width, ms[0]);
      var restAll := EncodeAll(width, ms[1..]);
      assert all == f + restAll;
      if n < |f| {
        assert all[..n] == f[..n];
        PrefixIncomplete(width, ms[0], n);
      } else {
        SplitPrefix(width, ms[1..], n - |f|);
        assert all[..n] == f + restAll[..n - |f|];
        SplitPrefixStep(width, ms, restAll[..n - |f|]);
      }
    }
  }

  lemma SplitPrefixStep(width: Width, ms: seq<Message>, more: seq<byte>)
    requires ms != [] && Fits(width, ms[0])
    requires var r := Split(width, more);
      PrefixOf(width, ms[1..], r.0, r.1) && EncodeAll(width, r.0) + r.1 == more
    ensures var r := Split(width, Encode(width, ms[0]) + more);
      PrefixOf(width, ms, r.0, r.1) && EncodeAll(width, r.0) + r.1 == Encode(width, ms[0]) + more
  {
    var r := Split(width, more);
    SplitCons(width, ms[0], more);
    PrefixCons(width, ms, r.0, r.1);
    EncodeAllCons(width, ms[0], r.0);
    Associate(Encode(width, ms[0]), EncodeAll(width, r.0), r.1);
  }

  lemma Associate(a: seq<byte>, b: seq<byte>, c: seq<byte>)
    ensures (a + b) + c == a + (b + c)
  {
  }

  lemma SplitCons(width: Width, m: Message, more: seq<byte>)
    requires Fits(width, m)
    ensures Split(width, Encode(width, m) + more) == ([m] + Split(width, more).0, Split(width, more).1)
  {
    DecodeFits(width, m, more);
  }

  lemma PrefixCons(width: Width, ms: seq<Message>, got: seq<Message>, tail: seq<byte>)
    requires ms != [] && PrefixOf(width, ms[1..], got, tail)
    ensures PrefixOf(width, ms, [ms[0]] + got, tail)
  {
    if |got| < |ms| - 1 {
      assert ms[1..][|got|] == ms[|got| + 1];
    }
  }

  lemma EncodeAllCons(width: Width, m: Message, ms: seq<Message>)
    ensures EncodeAll(width, [m] + ms) == Encode(width, m) + EncodeAll(width, ms)
  {
    assert ([m] + ms)[1..] == ms;
  }

  lemma {:induction false} EncodeAllConcat(width: Width, a: seq<Message>, b: seq<Message>)
    ensures EncodeAll(width, a + b) == EncodeAll(width, a) + EncodeAll(width, b)
  {
    if a == [] {
      assert a + b == b;
    } else {
      assert (a + b)[1..] == a[1..] + b;
      EncodeAllConcat(width, a[1..], b);
    }
  }

  lemma EncodeAllAt(width: Width, ms: seq<Message>, k: nat)
    requires k < |ms|
    ensures |EncodeAll(width, ms)| >= |EncodeAll(width, ms[..k])| + |Encode(width, ms[k])|
  {
    assert ms == ms[..k] + ([ms[k]] + ms[k + 1..]);
    EncodeAllConcat(width, ms[..k], [ms[k]] + ms[k + 1..]);
    EncodeAllCons(width, ms[k], ms[k + 1..]);
  }

  /** A complete stream of frames is read back as the messages that were written. */
  lemma SplitAll(width: Width, ms: seq<Message>)
    requires AllFit(width, ms)
    ensures Split(width, EncodeAll(width, ms)) == (ms, [])
  {
    var all := EncodeAll(width, ms);
    SplitPrefix(width, ms, |all|);
    assert all[..|all|] == all;
    var got := Split(width, all).0;
    if |got| < |ms| {
      EncodeAllAt(width, ms, |got|);
      assert false;
    }
    assert ms[..|got|] == ms;
  }

  /** With more bytes a frame that was complete is read as before. */
  lemma DecodeMore(width: Width, a: seq<byte>, b: seq<byte>)
    requires Decode(width, a).Some?
    ensures Decode(width, a + b) == Some((Decode(width, a).value.0, Decode(width, a).value.1 + b))
  {
    var h := HeaderSize(width);
    var n := Needed(width, a);
    assert (a + b)[width..h] == a[width..h] && (a + b)[..width] == a[..width];
    assert (a + b)[h..n] == a[h..n] && (a + b)[n..] == a[n..] + b;
  }

  /** Reading more of any bytes only adds messages: those read before stay. */
  lemma {:induction false} SplitMonotone(width: Width, a: seq<byte>, b: seq<byte>)
    ensures Split(width, a).0 <= Split(width, a + b).0
    decreases |a|
  {
    if Decode(width, a).Some? {
      DecodeMore(width, a, b);
      SplitMonotone(width, Decode(width, a).value.1, b);
    }
  }

  /** A connection: the bytes not yet read. Only a faulty one fails before they run out. */
  class Conn {
    var input: seq<byte>
    const faulty: bool

    constructor (bytes: seq<byte>, mayFail: bool)
      ensures input == bytes && faulty == mayFail
    {
      input := bytes;
      faulty := mayFail;
    }

    /** Any non-empty prefix of at most `want` bytes: the chunking is not the reader's choice. */
    method Read(want: nat) returns (chunk: Option<seq<byte>>)
      requires want > 0
      modifies this
      ensures chunk.Some? ==> 1 <= |chunk.value| <= want && old(input) == chunk.value + input
      ensures chunk.None? ==> input == old(input) && (input == [] || faulty)
    {
      if input == [] {
        return None;
      }
      if faulty {
        if * {
          return None;
        }
      }
      var most := Min(want, |input|);
      var n: nat :| 1 <= n <= most;
      chunk := Some(input[..n]);
      input := input[n..];
    }
  }

  /** Of `bytes`, `rest` is left and no more than the first frame was taken. */
  predicate Took(width: Width, bytes: seq<byte>, rest: seq<byte>) {
    && |rest| <= |bytes| && bytes[|bytes| - |rest|..] == rest
    && |bytes| - |rest| <= FrameEnd(width, bytes)
  }

  /** The reader's state: what it has taken, and how much it wants. */
  predicate Reading(width: Width, all: seq<byte>, res: seq<byte>, rest: seq<byte>, needRead: nat) {
    && all == res + rest && |res| <= needRead && HeaderSize(width) <= needRead
    && (|res| < HeaderSize(width) ==> needRead == HeaderSize(width))
    && (|res| >= HeaderSize(width) ==> needRead == Needed(width, res))
  }

  lemma ReadStops(width: Width, all: seq<byte>, res: seq<byte>, rest: seq<byte>, needRead: nat)
    requires Reading(width, all, res, rest, needRead)
    ensures Took(width, all, rest)
    ensures rest == [] && |res| < needRead ==> Decode(width, all) == None
  {
    assert all[|all| - |rest|..] == rest;
    if |res| >= HeaderSize(width) {
      assert all[width..HeaderSize(width)] == res[width..HeaderSize(width)];
    }
  }

  lemma ReadEnds(width: Width, all: seq<byte>, res: seq<byte>, rest: seq<byte>)
    requires Reading(width, all, res, rest, |res|)
    ensures Decode(width, all) == Some((Message(FromBE(res[..width]), res[HeaderSize(width)..]), rest))
  {
    var h := HeaderSize(width);
    assert all[width..h] == res[width..h] && all[..width] == res[..width];
    assert all[h..|res|] == res[h..] && all[|res|..] == rest;
  }

  lemma ReadMore(width: Width, all: seq<byte>, res: seq<byte>, chunk: seq<byte>, rest: seq<byte>, needRead: nat)
    requires Reading(width, all, res, chunk + rest, needRead) && |res| + |chunk| <= needRead
    requires |res| >= HeaderSize(width) || |res + chunk| < HeaderSize(width)
    ensures Reading(width, all, res + chunk, rest, needRead)
  {
    assert res + (chunk + rest) == (res + chunk) + rest;
    if |res| >= HeaderSize(width) {
      assert (res + chunk)[width..HeaderSize(width)] == res[width..HeaderSize(width)];
    }
  }

  /** What the reader wants once it has taken `res`. */
  function Wanted(width: Width, res: seq<byte>): nat {
    if |res| < HeaderSize(width) then HeaderSize(width) else Needed(width, res)
  }

  lemma ReadChunk(width: Width, all: seq<byte>, res: seq<byte>, chunk: seq<byte>, rest: seq<byte>, needRead: nat)
    requires Reading(width, all, res, chunk + rest, needRead) && |res| + |chunk| <= needRead
    ensures Reading(width, all, res + chunk, rest, Wanted(width, res + chunk))
    ensures |res| >= HeaderSize(width) ==> Wanted(width, res + chunk) == needRead
  {
    if |res| >= HeaderSize(width) || |res + chunk| < HeaderSize(width) {
      ReadMore(width, all, res, chunk, rest, needRead);
    }
    assert res + (chunk + rest) == (res + chunk) + rest;
  }

  // ---------- the reader's buffer ----------

  /** The lengths a reader's buffer goes through: no read takes bytes beyond the header before the header is there. */
  predicate Appends(h: nat, lens: seq<nat>) {
    && lens != []
    && if |lens| == 1 then lens[0] == 0
       else
         var n := |lens| - 1;
         Appends(h, lens[..n]) && lens[n - 1] <= lens[n] && (lens[n - 1] < h ==> lens[n] <= h)
  }

  /**
   What append does to the capacity of a byte slice: it stays while there is room; the first bytes get the
   smallest size class that holds them, of 8 bytes or 16; later ones at least twice the 8 there were.
   */
  predicate Grown(cap: nat, len: nat, next: nat) {
    if len <= cap then next == cap
    else
      && next >= len
      && (cap == 0 && len <= 8 ==> next == 8)
      && (cap == 8 ==> next >= 16)
  }

  predicate Capacities(lens: seq<nat>, caps: seq<nat>) {
    && |caps| == |lens| > 0
    && if |lens| == 1 then caps[0] == 0
       else
         var n := |lens| - 1;
         Capacities(lens[..n], caps[..n]) && Grown(caps[n - 1], lens[n], caps[n])
  }

  lemma {:induction false} CapacityOf(lens: seq<nat>, caps: seq<nat>)
    requires Appends(8, lens) && Capacities(lens, caps)
    ensures var n := |lens| - 1;
      if lens[n] == 0 then caps[n] == 0 else if lens[n] <= 8 then caps[n] == 8 else caps[n] >= 16
    decreases |lens|
  {
    if |lens| > 1 {
      CapacityOf(lens[..|lens| - 1], caps[..|lens| - 1]);
    }
  }

  /** Of a frame with an 8-byte header, four bytes can be sliced out of the body if and only if the body is not empty. */
  lemma SliceFits(lens: seq<nat>, caps: seq<nat>, body: nat)
    requires Appends(8, lens) && Capacities(lens, caps) && lens[|lens| - 1] == 8 + body
    ensures 4 <= caps[|lens| - 1] - 8 <==> body > 0
  {
    CapacityOf(lens, caps);
  }

  lemma AppendsMore(h: nat, lens: seq<nat>, len: nat)
    requires Appends(h, lens) && lens[|lens| - 1] <= len && (lens[|lens| - 1] < h ==> len <= h)
    ensures Appends(h, lens + [len])
  {
    assert (lens + [len])[..|lens|] == lens;
  }

  /** readVmMessage (width 4) and readTtyMessage (width 8); `lens` are the lengths of the buffer after each read. */
  method ReadFrame(conn: Conn, width: Width) returns (r: Option<Message>, ghost lens: seq<nat>)
    modifies conn
    ensures Appends(HeaderSize(width), lens)
    ensures r.Some? ==> lens[|lens| - 1] == HeaderSize(width) + |r.value.body|
    ensures r.Some? ==> Decode(width, old(conn.input)) == Some((r.value, conn.input))
    ensures r.None? && !conn.faulty ==> Decode(width, old(conn.input)) == None && conn.input == []
    ensures Took(width, old(conn.input), conn.input)
  {
    var h := HeaderSize(width);
    var needRead: nat, length: nat, read: nat := h, 0, 0;
    var res: seq<byte> := [];
    lens := [0];
    ghost var all := conn.input;
    while read < needRead
      invariant Appends(h, lens) && lens[|lens| - 1] == read
      invariant read == |res| && Reading(width, all, res, conn.input, needRead)
      invariant read < h ==> length == 0
      decreases |conn.input|
    {
      var chunk := conn.Read(Min(needRead - read, READ_LIMIT));
      if chunk.None? {
        ReadStops(width, all, res, conn.input, needRead);
        return None, lens;
      }
      ReadChunk(width, all, res, chunk.value, conn.input, needRead);
      res := res + chunk.value;
      read := read + |chunk.value|;
      AppendsMore(h, lens, read);
      lens := lens + [read];
      if length == 0 && read >= h {
        length := FromBE(res[width..h]);
        if length > h {
          needRead := length;
        }
      }
    }
    ReadEnds(width, all, res, conn.input);
    ReadStops(width, all, res, conn.input, needRead);
    r := Some(Message(FromBE(res[..width]), res[h..]));
  }

  lemma SplitStep(width: Width, bytes: seq<byte>, m: Message, rest: seq<byte>, ms: seq<Message>)
    requires Decode(width, bytes) == Some((m, rest))
    ensures ms + Split(width, bytes).0 == (ms + [m]) + Split(width, rest).0
  {
    assert Split(width, bytes).0 == [m] + Split(width, rest).0;
  }

  /** handleMsgFromHyperstart and handleStreamFromHyperstart: read frames until the connection ends. */
  method ReadLoop(conn: Conn, width: Width) returns (ms: seq<Message>)
    modifies conn
    ensures ms <= Split(width, old(conn.input)).0
    ensures !conn.faulty ==> ms == Split(width, old(conn.input)).0
  {
    ms := [];
    while true
      invariant Split(width, old(conn.input)).0 == ms + Split(width, conn.input).0
      decreases |conn.input|
    {
      ghost var before := conn.input;
      var r, _ := ReadFrame(conn, width);
      if r.None? {
        assert !conn.faulty ==> Split(width, before).0 == [];
        return;
      }
      SplitStep(width, before, r.value, conn.input, ms);
      ms := ms + [r.value];
    }
  }
}
