/** The context ids of virtual sockets: a round-robin allocator over a bitmap. */
module VsockCid {
  import opened Ring

  const START: nat := 1024
  const SIZE: nat := 16384

  /** Go's uint32. */
  type uint32 = x: nat | x < 0x1_0000_0000

  function Add32(a: uint32, b: uint32): uint32 { (a + b) % 0x1_0000_0000 }
  function Sub32(a: uint32, b: uint32): uint32 { (a - b) % 0x1_0000_0000 }

  function Cids(): Range { Range(START, SIZE) }

  class CidAllocator {
    var bitmap: set<uint32>
    var pivot: uint32

    /** Every id taken, marked or released so far. */
    ghost var log: seq<Event>

    /** The ids in use and the cursor are where the log leads. */
    ghost predicate Valid()
      reads this
    {
      && START <= pivot <= START + SIZE
      && Runs(Cids(), iset{}, START, log)
      && InUse() == EndUsed(iset{}, log)
      && Position() == EndCursor(Cids(), iset{}, START, log)
    }

    /** Where the search starts: past the last id it is at the first one again. */
    function Position(): int
      reads this
    {
      if pivot == START + SIZE then START else pivot
    }

    ghost function InUse(): iset<int>
      reads this
    {
      iset x: int | 0 <= x < 0x1_0000_0000 && x in bitmap
    }

    constructor ()
      ensures Valid() && bitmap == {} && Position() == 1024 && Cids() == Range(1024, 16384)
    {
      bitmap, pivot, log := {}, START, [];
    }

    /** The search of GetCid: the first free id going around from the cursor; none exactly when the whole range is in use. */
    method Search() returns (cid: uint32, ok: bool)
      requires START <= pivot <= START + SIZE
      ensures ok <==> !Full(Cids(), InUse())
      ensures ok ==> FirstFree(Cids(), Position(), InUse(), cid)
    {
      cid := 0;
      var i: uint32 := 0;
      ghost var p := Position();
      while i < SIZE
        invariant 0 <= i <= SIZE
        invariant forall y :: Cids().Has(y) && Cids().Steps(p, y) < i ==> y in InUse()
      {
        cid := Add32(pivot, i);
        if cid >= START + SIZE {
          cid := Sub32(cid, SIZE);
        }
        assert cid == Cids().At(p, i);
        if cid !in bitmap {
          assert START <= cid < START + SIZE && cid !in InUse();
          return cid, true;
        }
        assert forall y :: Cids().Has(y) && Cids().Steps(p, y) == i ==> y == cid;
        i := i + 1;
      }
      forall y | START <= y < START + SIZE
        ensures y in InUse()
      {
        assert Cids().Has(y) && Cids().Steps(p, y) < SIZE;
      }
      return cid, false;
    }

    method GetCid() returns (cid: uint32, ok: bool)
      requires Valid()
      modifies this
      ensures Valid()
      ensures ok <==> !Full(Cids(), old(InUse()))
      ensures ok ==> FirstFree(Cids(), old(Position()), old(InUse()), cid)
      ensures log == if ok then old(log) + [Took(cid)] else old(log)
      ensures ok ==> bitmap == old(bitmap) + {cid} && Position() == Cids().Past(cid)
      ensures !ok ==> bitmap == old(bitmap) && pivot == old(pivot)
    {
      cid, ok := Search();
      if ok {
        Take(cid);
      }
    }

    /** What GetCid does with the id it found. */
    method Take(cid: uint32)
      requires Valid() && FirstFree(Cids(), Position(), InUse(), cid)
      modifies this
      ensures Valid() && log == old(log) + [Took(cid)]
      ensures bitmap == old(bitmap) + {cid} && Position() == Cids().Past(cid)
    {
      RunsMore(Cids(), iset{}, START, log, Took(cid));
      log := log + [Took(cid)];
      bitmap := bitmap + {cid};
      pivot := Add32(cid, 1);
      assert InUse() == old(InUse()) + iset{cid};
    }

    /** Takes a given id, any id, unless it is in use; the cursor does not move. */
    method MarkCidInuse(cid: uint32) returns (ok: bool)
      requires Valid()
      modifies this`bitmap, this`log
      ensures Valid()
      ensures ok <==> cid !in old(bitmap)
      ensures bitmap == old(bitmap) + {cid}
      ensures log == if ok then old(log) + [Marked(cid)] else old(log)
    {
      ok := cid !in bitmap;
      if ok {
        RunsMore(Cids(), iset{}, START, log, Marked(cid));
        log := log + [Marked(cid)];
      }
      bitmap := bitmap + {cid};
    }

    method ReleaseCid(cid: uint32)
      requires Valid()
      modifies this`bitmap, this`log
      ensures Valid()
      ensures bitmap == old(bitmap) - {cid}
      ensures log == old(log) + [Freed(cid)]
    {
      RunsMore(Cids(), iset{}, START, log, Freed(cid));
      log := log + [Freed(cid)];
      bitmap := bitmap - {cid};
    }
  }
}
