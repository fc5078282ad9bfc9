/**
 BytesPipe: a byte queue over a chain of fixed buffers. Each public method is one region the
 pipe's mutex protects; a caller that has to wait leaves the region with what it still wants to
 do and may come back after any number of other regions.
 */
module BytesPipe {
  import opened Bytes
  import opened FixedBuffers

  const MIN_CAP := 64
  const MAX_CAP := 1_000_000
  const BLOCK_THRESHOLD := 1_000_000

  /** How a write leaves the mutex: done, refused because closed, or waiting with the rest. */
  datatype WriteResult =
    | Done(written: nat)
    | ErrClosed(written: nat)
    | Blocked(written: nat, rest: seq<byte>, lastCap: nat)

  datatype ReadResult = Got(out: seq<byte>) | EndOfPipe(error: string) | Waiting

  function NextCap(cap: nat): nat {
    Min(cap * 2, MAX_CAP)
  }

  predicate GoodCap(cap: nat) {
    MIN_CAP <= cap <= MAX_CAP
  }

  /** The bytes of a chain of buffers. */
  function Join(parts: seq<seq<byte>>): seq<byte> {
    if parts == [] then [] else parts[0] + Join(parts[1..])
  }

  lemma {:induction false} JoinConcat(a: seq<seq<byte>>, b: seq<seq<byte>>)
    ensures Join(a + b) == Join(a) + Join(b)
  {
    if a == [] {
      assert a + b == b;
    } else {
      assert (a + b)[1..] == a[1..] + b;
      JoinConcat(a[1..], b);
    }
  }

  /** Appending an empty buffer, and appending bytes to the last one. */
  lemma JoinLast(parts: seq<seq<byte>>, more: seq<byte>)
    ensures Join(parts + [[]]) == Join(parts)
    ensures parts != [] ==> var n := |parts| - 1; Join(parts[n := parts[n] + more]) == Join(parts) + more
  {
    JoinConcat(parts, [[]]);
    assert Join([[]]) == [] + Join([]);
    if parts != [] {
      var n := |parts| - 1;
      assert parts == parts[..n] + [parts[n]];
      assert parts[n := parts[n] + more] == parts[..n] + [parts[n] + more];
      JoinConcat(parts[..n], [parts[n]]);
      JoinConcat(parts[..n], [parts[n] + more]);
      assert Join([parts[n]]) == parts[n] + Join([]);
      assert Join([parts[n] + more]) == (parts[n] + more) + Join([]);
    }
  }

  lemma Assoc(a: seq<byte>, b: seq<byte>, c: seq<byte>)
    ensures a + (b + c) == a + b + c
  {
  }

  class Pipe {
    const pools: BufferPools
    var buf: seq<FixedBuffer>
    var bufLen: nat
    var closeErr: Option<string>
    ghost var parts: seq<seq<byte>>   // the unread bytes of each buffer
    ghost var accepted: seq<byte>     // every byte a writer was told is written
    ghost var delivered: seq<byte>    // every byte a reader was given

    /** Buffer `i` of the chain is held by this pipe and holds part `i`. */
    ghost predicate Link(i: nat)
      reads this`buf, this`parts, pools, buf, set b | b in buf :: b.data
      requires i < |buf| && i < |parts|
    {
      var b := buf[i];
      && b in pools.holderOf && pools.holderOf[b] == this
      && b.Valid() && b.unread == parts[i] && GoodCap(b.Cap())
    }

    ghost predicate Chain()
      reads this`buf, this`parts, pools, pools.known, buf, set b | b in buf :: b.data
    {
      && pools.Valid()
      && |parts| == |buf|
      && (forall i :: 0 <= i < |buf| ==> Link(i))
      && (forall i, j :: 0 <= i < j < |buf| ==> buf[i] != buf[j])
    }

    ghost function Contents(): seq<byte>
      reads this`parts
    {
      Join(parts)
    }

    /** The space left in the last buffer. */
    ghost function LastRoom(): int
      reads this`buf, buf
    {
      if buf == [] then 0 else buf[|buf| - 1].Cap() - buf[|buf| - 1].pos
    }

    /** The accounts: the length, the queue, and the bound on unread bytes and room. */
    ghost predicate Accounts()
      reads this, buf
    {
      && bufLen == |Contents()|
      && accepted == delivered + Contents()
      && bufLen + LastRoom() < 2_000_000
    }

    ghost predicate Valid()
      reads this, pools, pools.known, buf, set b | b in buf :: b.data
    {
      Chain() && Accounts()
    }

    constructor (pools: BufferPools)
      requires pools.Valid()
      modifies pools
      ensures Valid() && this.pools == pools && closeErr == None
      ensures accepted == [] && delivered == [] && bufLen == 0
      ensures |buf| == 1 && buf[0].Cap() == 64
      ensures pools.OthersKept(this)
    {
      this.pools := pools;
      buf, bufLen, closeErr, parts, accepted, delivered := [], 0, None, [], [], [];
      new;
      var b := Attach(MIN_CAP);
      JoinLast([], []);
    }

    /** Nothing that other pipes hold has changed. */
    twostate predicate OthersKept()
      reads this, pools, pools.known, pools.bufferOf.Keys
    {
      && pools.OthersKept(this)
      && (forall b :: b in old(pools.holderOf) && old(pools.holderOf)[b] != this ==>
            b in pools.known && b.data in pools.bufferOf && unchanged(b) && unchanged(b.data))
    }

    /** A buffer from the pools is appended to the chain. */
    method Attach(cap: nat) returns (b: FixedBuffer)
      requires Chain() && GoodCap(cap)
      modifies this`buf, this`parts, pools
      ensures Chain() && buf == old(buf) + [b] && parts == old(parts) + [[]]
      ensures b.pos == 0 && b.Cap() == cap
      ensures OthersKept()
    {
      b := pools.Get(cap, this);
      buf, parts := buf + [b], parts + [[]];
      forall i | 0 <= i < |buf|
        ensures Link(i) && (i < |buf| - 1 ==> buf[i] != b)
      {
        if i < |buf| - 1 {
          assert old(Link(i));
        }
      }
    }

    /** Adds an empty buffer at the end of the chain. */
    method AddBuffer(cap: nat) returns (b: FixedBuffer)
      requires Valid() && GoodCap(cap) && bufLen < BLOCK_THRESHOLD
      modifies this, pools
      ensures Valid() && buf == old(buf) + [b] && LastRoom() == cap
      ensures OthersKept()
      ensures bufLen == old(bufLen) && closeErr == old(closeErr)
      ensures accepted == old(accepted) && delivered == old(delivered)
    {
      JoinLast(parts, []);
      b := Attach(cap);
    }

    /** Writes what fits into the last buffer of the chain. */
    method PourLast(p: seq<byte>) returns (n: nat, err: WriteError)
      requires Chain() && buf != []
      modifies this`parts, buf[|buf| - 1], buf[|buf| - 1].data
      ensures Chain() && OthersKept()
      ensures n == Min(|p|, old(LastRoom())) && LastRoom() == old(LastRoom()) - n
      ensures err == if n < |p| then BufferFull else NoError
      ensures Contents() == old(Contents()) + p[..n]
    {
      var last := |buf| - 1;
      var b := buf[last];
      assert Link(last);
      forall i | 0 <= i < last
        ensures buf[i] != b && buf[i].data != b.data
      {
        assert Link(i);
      }
      n, err := b.Write(p);
      assert pools.Valid();
      JoinLast(parts, p[..n]);
      parts := parts[last := parts[last] + p[..n]];
      forall i | 0 <= i < |buf|
        ensures Link(i)
      {
        assert old(Link(i));
      }
    }

    /** One write into the last buffer, accounted for. */
    method FillLast(p: seq<byte>) returns (n: nat, err: WriteError)
      requires Valid() && buf != []
      modifies this, buf[|buf| - 1], buf[|buf| - 1].data
      ensures Valid() && OthersKept() && buf == old(buf)
      ensures n == Min(|p|, old(LastRoom())) && LastRoom() == old(LastRoom()) - n
      ensures err == if n < |p| then BufferFull else NoError
      ensures bufLen == old(bufLen) + n && accepted == old(accepted) + p[..n]
      ensures closeErr == old(closeErr) && delivered == old(delivered)
    {
      n, err := PourLast(p);
      Assoc(delivered, old(Contents()), p[..n]);
      bufLen := bufLen + n;
      accepted := accepted + p[..n];
    }

    /** The last buffer, after a new smallest one has been added to an empty chain. */
    method Last() returns (b: FixedBuffer)
      requires Valid()
      modifies this, pools
      ensures Valid() && OthersKept()
      ensures buf != [] && b == buf[|buf| - 1] && LastRoom() >= old(LastRoom())
      ensures bufLen == old(bufLen) && closeErr == old(closeErr)
      ensures delivered == old(delivered) && accepted == old(accepted)
    {
      if |buf| == 0 {
        b := AddBuffer(MIN_CAP);
      }
      b := buf[|buf| - 1];
    }

    /** Writes into the last buffer, of an empty chain into a new one; never a short write. */
    method Fill(p: seq<byte>) returns (n: nat, cap: nat)
      requires Valid()
      modifies this, pools, pools.known, pools.bufferOf.Keys
      ensures Valid() && OthersKept()
      ensures closeErr == old(closeErr) && delivered == old(delivered)
      ensures n <= |p| && accepted == old(accepted) + p[..n]
      ensures n < |p| ==> LastRoom() == 0 && (old(LastRoom()) > 0 ==> n > 0)
      ensures GoodCap(cap)
    {
      var b := Last();
      assert Link(|buf| - 1);
      cap := b.Cap();
      var err;
      n, err := FillLast(p);
      if err == ShortWrite {
        assert false;
      }
    }

    /** One turn of the loop of Write; `again` when there is more to write and room was made for it. */
    method WriteTurn(p: seq<byte>) returns (n: nat, again: bool, cap: nat)
      requires Valid()
      modifies this, pools, pools.known, pools.bufferOf.Keys
      ensures Valid() && OthersKept()
      ensures closeErr == old(closeErr) && delivered == old(delivered)
      ensures n <= |p| && accepted == old(accepted) + p[..n]
      ensures n < |p| ==> (again <==> LastRoom() > 0) && (!again <==> bufLen >= BLOCK_THRESHOLD)
      ensures n < |p| && old(LastRoom()) > 0 ==> n > 0
      ensures GoodCap(cap)
    {
      n, cap := Fill(p);
      again := n < |p| && bufLen < BLOCK_THRESHOLD;
      if again {
        var next := AddBuffer(NextCap(cap));
      }
    }

    /** Write, from taking the mutex until it returns or has to wait. */
    method Write(data: seq<byte>) returns (r: WriteResult)
      requires Valid()
      modifies this, pools, pools.known, pools.bufferOf.Keys
      ensures Valid() && OthersKept()
      ensures closeErr == old(closeErr) && delivered == old(delivered)
      ensures r.ErrClosed? <==> closeErr.Some?
      ensures match r
        case Done(n) => n == |data| && accepted == old(accepted) + data
        case ErrClosed(n) => n == 0 && accepted == old(accepted)
        case Blocked(n, rest, cap) =>
          && n + |rest| == |data| && accepted + rest == old(accepted) + data
          && rest != [] && bufLen >= 1_000_000 && GoodCap(cap)
    {
      var p, written := data, 0;
      if closeErr.Some? {
        return ErrClosed(0);
      }
      while true
        invariant Valid() && OthersKept()
        invariant closeErr.None? && delivered == old(delivered)
        invariant written + |p| == |data| && accepted + p == old(accepted) + data
        decreases |p|, if LastRoom() > 0 then 0 else 1
      {
        ghost var before := accepted;
        var n, again, cap := WriteTurn(p);
        Assoc(before, p[..n], p[n..]);
        assert p == p[..n] + p[n..];
        p := p[n..];
        written := written + n;
        if p == [] {
          assert accepted + p == accepted;
          return Done(written);
        }
        if !again {
          return Blocked(written, p, cap);
        }
      }
    }

    /** A waiting Write wakes up: it gives up if the pipe was closed, waits on, or makes room and goes on. */
    method ResumeWrite(rest: seq<byte>, lastCap: nat) returns (r: WriteResult)
      requires Valid() && rest != [] && GoodCap(lastCap)
      modifies this, pools, pools.known, pools.bufferOf.Keys
      ensures Valid() && OthersKept()
      ensures closeErr == old(closeErr) && delivered == old(delivered)
      ensures r.ErrClosed? <==> closeErr.Some?
      ensures match r
        case Done(n) => n == |rest| && accepted == old(accepted) + rest
        case ErrClosed(n) => n == 0 && accepted == old(accepted)
        case Blocked(n, rest', cap) =>
          && n + |rest'| == |rest| && accepted + rest' == old(accepted) + rest
          && rest' != [] && bufLen >= BLOCK_THRESHOLD && GoodCap(cap)
    {
      if closeErr.Some? {
        return ErrClosed(0);
      }
      if bufLen >= BLOCK_THRESHOLD {
        return Blocked(0, rest, lastCap);
      }
      var next := AddBuffer(NextCap(lastCap));
      r := Write(rest);
    }

    method CloseWithError(err: Option<string>)
      requires Valid()
      modifies this`closeErr
      ensures Valid() && closeErr == Some(if err.Some? then err.value else "EOF")
    {
      closeErr := Some(if err.Some? then err.value else "EOF");
    }

    /** Reads from the first buffer. */
    method TakeFirst(want: nat) returns (out: seq<byte>)
      requires Chain() && buf != []
      modifies this`parts, buf[0]
      ensures Chain() && OthersKept()
      ensures |out| == Min(want, old(|parts[0]|)) && old(Contents()) == out + Contents()
      ensures |out| < want ==> parts[0] == []
      ensures LastRoom() == old(LastRoom())
    {
      var b := buf[0];
      assert Link(0);
      out := b.Read(want);
      Assoc(out, b.unread, Join(parts[1..]));
      assert pools.Valid();
      parts := parts[0 := b.unread];
      forall i | 0 <= i < |buf|
        ensures Link(i)
      {
        assert old(Link(i));
      }
    }

    /** The first buffer is empty: it goes back to the pools. */
    method DropFirst()
      requires Chain() && buf != [] && parts[0] == []
      modifies this`buf, this`parts, pools, buf[0]
      ensures Chain() && OthersKept() && buf == old(buf)[1..]
      ensures Contents() == old(Contents())
      ensures buf != [] ==> LastRoom() == old(LastRoom())
    {
      assert Link(0);
      pools.Put(buf[0], this);
      assert [] + Join(parts[1..]) == Join(parts[1..]);
      buf, parts := buf[1..], parts[1..];
      forall i | 0 <= i < |buf|
        ensures Link(i)
      {
        assert old(Link(i + 1));
      }
    }

    /** One turn of the loop of Read. */
    method ReadTurn(want: nat) returns (out: seq<byte>)
      requires Valid() && bufLen > 0
      modifies this, pools, pools.known, pools.bufferOf.Keys
      ensures Valid() && OthersKept()
      ensures closeErr == old(closeErr) && accepted == old(accepted)
      ensures |out| <= want && |out| + bufLen == old(bufLen) && delivered == old(delivered) + out
      ensures |out| < want ==> |buf| < |old(buf)|
    {
      assert buf != [];
      assert Link(0);
      out := TakeTurn(want);
      assert Link(0);
      if buf[0].Len() == 0 {
        DropFirst();
      }
    }

    /** A turn, before an emptied buffer goes back to the pool. */
    method TakeTurn(want: nat) returns (out: seq<byte>)
      requires Valid() && bufLen > 0 && buf != []
      modifies this`parts, this`bufLen, this`delivered, buf[0]
      ensures Valid() && OthersKept()
      ensures |out| <= want && |out| + bufLen == old(bufLen) && delivered == old(delivered) + out
      ensures |out| < want ==> parts[0] == []
    {
      assert Link(0);
      out := TakeFirst(want);
      Assoc(delivered, out, Contents());
      bufLen := bufLen - |out|;
      delivered := delivered + out;
    }

    /** The loop of Read over the chain. */
    method Drain(want: nat) returns (out: seq<byte>)
      requires Valid()
      modifies this, pools, pools.known, pools.bufferOf.Keys
      ensures Valid() && OthersKept()
      ensures closeErr == old(closeErr) && accepted == old(accepted)
      ensures |out| <= want && |out| + bufLen == old(bufLen) && delivered == old(delivered) + out
      ensures |out| == want || bufLen == 0
    {
      out := [];
      var n: nat := want;
      while bufLen > 0
        invariant Valid() && OthersKept()
        invariant closeErr == old(closeErr) && accepted == old(accepted)
        invariant |out| + n == want && |out| + bufLen == old(bufLen) && delivered == old(delivered) + out
        decreases |buf|
      {
        var got := ReadTurn(n);
        Assoc(old(delivered), out, got);
        out := out + got;
        if n == |got| {
          return;
        }
        n := n - |got|;
      }
    }

    /** Read, from taking the mutex until it returns or waits. */
    method Read(want: nat) returns (r: ReadResult)
      requires Valid()
      modifies this, pools, pools.known, pools.bufferOf.Keys
      ensures Valid() && OthersKept()
      ensures closeErr == old(closeErr) && accepted == old(accepted)
      ensures r.EndOfPipe? <==> old(bufLen) == 0 && closeErr.Some?
      ensures match r
        case Got(out) => delivered == old(delivered) + out && |out| == Min(want, old(bufLen)) && old(bufLen) > 0
        case EndOfPipe(e) => Some(e) == closeErr && delivered == old(delivered) == accepted
        case Waiting => old(bufLen) == 0 && closeErr.None? && delivered == old(delivered)
    {
      if bufLen == 0 {
        if closeErr.Some? {
          assert delivered + [] == delivered;
          return EndOfPipe(closeErr.value);
        }
        return Waiting;
      }
      var out := Drain(want);
      r := Got(out);
    }

    /** A waiting Read wakes up; without bytes or an end it returns no bytes. */
    method ResumeRead(want: nat) returns (r: ReadResult)
      requires Valid()
      modifies this, pools, pools.known, pools.bufferOf.Keys
      ensures Valid() && OthersKept()
      ensures closeErr == old(closeErr) && accepted == old(accepted)
      ensures r.EndOfPipe? <==> old(bufLen) == 0 && closeErr.Some?
      ensures match r
        case Got(out) => delivered == old(delivered) + out && |out| == Min(want, old(bufLen))
        case EndOfPipe(e) => Some(e) == closeErr && delivered == old(delivered) == accepted
        case Waiting => false
    {
      if bufLen == 0 && closeErr.Some? {
        assert delivered + [] == delivered;
        return EndOfPipe(closeErr.value);
      }
      var out := Drain(want);
      r := Got(out);
    }
  }

  /**
   A region of `p`, which keeps what others hold (as every region ensures), leaves every
   other pipe on the same pools whole: a recycled buffer is never also in use elsewhere.
   */
  twostate lemma OtherPipesWhole(p: Pipe, q: Pipe)
    requires p.pools == q.pools && p != q && old(q.Valid()) && p.OthersKept() && p.pools.Valid() && unchanged(q)
    ensures q.Valid() && q.Contents() == old(q.Contents())
  {
    forall i | 0 <= i < |q.buf|
      ensures q.Link(i)
    {
      assert old(q.Link(i));
    }
    if q.buf != [] {
      var last := |q.buf| - 1;
      assert old(q.Link(last));
      assert q.LastRoom() == old(q.LastRoom());
    }
  }
}
