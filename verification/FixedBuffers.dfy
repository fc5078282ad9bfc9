/** Fixed-size byte buffers and the pools they are recycled through. */
module FixedBuffers {
  import opened Bytes

  datatype WriteError = NoError | BufferFull | ShortWrite

  class FixedBuffer {
    const data: array<byte>
    var pos: nat
    var lastRead: nat
    ghost var unread: seq<byte>  // the bytes written and not yet read

    ghost predicate Valid()
      reads this, data
    {
      lastRead <= pos <= data.Length && unread == data[lastRead..pos]
    }

    function Len(): nat
      reads this, data
      requires Valid()
      ensures Len() == |unread|
    {
      pos - lastRead
    }

    function Cap(): nat {
      data.Length
    }

    constructor (size: nat)
      ensures Valid() && pos == 0 && lastRead == 0 && fresh(data) && data.Length == size && unread == []
    {
      data := new byte[size];
      pos, lastRead, unread := 0, 0, [];
    }

    /** Appends what fits; an incomplete write always means the buffer is full, never a short write. */
    method Write(p: seq<byte>) returns (n: nat, err: WriteError)
      requires Valid()
      modifies this, data
      ensures Valid() && lastRead == old(lastRead) && pos == old(pos) + n
      ensures n == Min(|p|, data.Length - old(pos))
      ensures unread == old(unread) + p[..n]
      ensures err == if n < |p| then BufferFull else NoError
      ensures n < |p| ==> pos == data.Length
    {
      n := Min(|p|, data.Length - pos);
      ghost var before := data[..];
      forall i | 0 <= i < n {
        data[pos + i] := p[i];
      }
      assert data[lastRead..pos] == before[lastRead..pos];
      assert data[pos..pos + n] == p[..n];
      pos := pos + n;
      assert data[lastRead..pos] == before[lastRead..pos - n] + p[..n];
      unread := unread + p[..n];
      if n < |p| {
        if pos == data.Length {
          return n, BufferFull;
        }
        return n, ShortWrite;
      }
      return n, NoError;
    }

    method Read(want: nat) returns (out: seq<byte>)
      requires Valid()
      modifies this
      ensures Valid() && pos == old(pos) && |out| == Min(want, old(|unread|))
      ensures old(unread) == out + unread
    {
      var n := Min(want, pos - lastRead);
      out := data[lastRead..lastRead + n];
      lastRead := lastRead + n;
      unread := unread[n..];
    }

    method Reset()
      modifies this
      ensures Valid() && pos == 0 && lastRead == 0 && unread == []
    {
      pos, lastRead, unread := 0, 0, [];
    }
  }

  /**
   The pools, one per capacity. `known` are the buffers ever made, `bufferOf` the buffer an
   array belongs to, `holderOf` who holds a buffer that is not pooled.
   */
  class BufferPools {
    var pools: map<nat, set<FixedBuffer>>
    ghost var known: set<FixedBuffer>
    ghost var bufferOf: map<array<byte>, FixedBuffer>
    ghost var holderOf: map<FixedBuffer, object>

    /** A pooled buffer is empty, filed under its own capacity, and held by nobody. */
    ghost predicate Valid()
      reads this, known
    {
      && (forall b :: b in known ==> b.data in bufferOf && bufferOf[b.data] == b)
      && (forall b :: b in holderOf ==> b in known)
      && (forall size, b :: size in pools && b in pools[size] ==>
            b in known && b !in holderOf && b.Cap() == size && b.pos == 0 && b.lastRead == 0 && b.unread == [])
    }

    constructor ()
      ensures Valid() && known == {} && bufferOf == map[] && holderOf == map[]
    {
      pools, known, bufferOf, holderOf := map[], {}, map[], map[];
    }

    /** The buffers held by others than `holder` stay with them, unchanged; what is added is new. */
    twostate predicate OthersKept(new holder: object)
      reads this
    {
      && (forall b :: b in known ==> b in old(known) || fresh(b))
      && (forall d :: d in bufferOf ==> d in old(bufferOf) || fresh(d))
      && (forall b :: b in old(holderOf) && old(holderOf)[b] != holder ==>
            b in holderOf && holderOf[b] == old(holderOf)[b])
    }

    /** Pool.Get on a pool that has a buffer to give. */
    method Reuse(size: nat, ghost holder: object) returns (b: FixedBuffer)
      requires Valid() && size in pools && pools[size] != {}
      modifies this
      ensures Valid() && OthersKept(holder)
      ensures b.Valid() && b.pos == 0 && b.unread == [] && b.Cap() == size
      ensures holderOf == old(holderOf)[b := holder] && b !in old(holderOf)
    {
      b :| b in pools[size];
      pools := pools[size := pools[size] - {b}];
      holderOf := holderOf[b := holder];
    }

    /** Pool.New. */
    method Make(size: nat, ghost holder: object) returns (b: FixedBuffer)
      requires Valid()
      modifies this
      ensures Valid() && OthersKept(holder)
      ensures b.Valid() && b.pos == 0 && b.unread == [] && b.Cap() == size
      ensures holderOf == old(holderOf)[b := holder] && b !in old(holderOf)
    {
      b := new FixedBuffer(size);
      known := known + {b};
      bufferOf := bufferOf[b.data := b];
      holderOf := holderOf[b := holder];
    }

    /** getBuffer: a pooled buffer of the size, or a new one. */
    method Get(size: nat, ghost holder: object) returns (b: FixedBuffer)
      requires Valid()
      modifies this
      ensures Valid() && OthersKept(holder)
      ensures b.Valid() && b.pos == 0 && b.unread == [] && b.Cap() == size
      ensures holderOf == old(holderOf)[b := holder] && b !in old(holderOf)
    {
      if size !in pools {
        pools := pools[size := {}];
      }
      var reuse := false;
      if * {
        reuse := pools[size] != {};
      }
      if reuse {
        b := Reuse(size, holder);
      } else {
        b := Make(size, holder);
      }
    }

    /** returnBuffer: emptied, and pooled if there is a pool of its capacity (which may drop it). */
    method Put(b: FixedBuffer, ghost holder: object)
      requires Valid() && b in holderOf && holderOf[b] == holder
      modifies this, b
      ensures Valid() && OthersKept(holder)
      ensures holderOf == old(holderOf) - {b}
    {
      b.Reset();
      holderOf := holderOf - {b};
      if b.Cap() in pools {
        if * {
          pools := pools[b.Cap() := pools[b.Cap()] + {b}];
        }
      }
    }
  }
}
