/** Round-robin allocation: the values of a range are handed out from a cursor that goes around. */
module Ring {

  /** The values `lo`, ..., `lo + n - 1`. */
  datatype Range = Range(lo: int, n: nat) {
    predicate Has(x: int) { lo <= x < lo + n }

    /** Where the cursor may stand; in an empty range it does not move. */
    predicate Cursor(p: int) { Has(p) || (n == 0 && p == lo) }

    /** How many steps the cursor makes from `p` to `x`. */
    function Steps(p: int, x: int): (k: nat)
      requires Has(x) && Cursor(p)
      ensures k < n
    {
      if x >= p then x - p else x - p + n
    }

    /** The value `k` steps after `p`. */
    function At(p: int, k: nat): (x: int)
      requires Cursor(p) && k < n
      ensures Has(x) && Steps(p, x) == k
    {
      if p + k >= lo + n then p + k - n else p + k
    }

    /** The cursor after `x` was taken. */
    function Past(x: int): (p: int)
      requires Has(x)
      ensures Cursor(p)
    {
      if x + 1 == lo + n then lo else x + 1
    }
  }

  /** `x` is the first value, going around from the cursor, that is not in use. */
  ghost predicate FirstFree(r: Range, p: int, used: iset<int>, x: int)
    requires r.Cursor(p)
  {
    && r.Has(x) && x !in used
    && forall y :: r.Has(y) && r.Steps(p, y) < r.Steps(p, x) ==> y in used
  }

  ghost predicate Full(r: Range, used: iset<int>) {
    forall y :: r.lo <= y < r.lo + r.n ==> y in used
  }

  // ---------- whole runs ----------

  datatype Event = Took(x: int) | Marked(x: int) | Freed(x: int)

  ghost predicate Legal(r: Range, used: iset<int>, p: int, e: Event)
    requires r.Cursor(p)
  {
    match e
    case Took(x) => FirstFree(r, p, used, x)
    case Marked(x) => x !in used
    case Freed(x) => true
  }

  ghost function Used(used: iset<int>, e: Event): iset<int> {
    if e.Freed? then used - iset{e.x} else used + iset{e.x}
  }

  /** Taking a value moves the cursor past it; marking and freeing leave the cursor where it is. */
  function Moved(r: Range, p: int, e: Event): (q: int)
    requires r.Cursor(p) && (e.Took? ==> r.Has(e.x))
    ensures r.Cursor(q)
  {
    if e.Took? then r.Past(e.x) else p
  }

  /** A run of takes, marks and frees in any order. */
  ghost predicate Runs(r: Range, used: iset<int>, p: int, events: seq<Event>)
    requires r.Cursor(p)
    decreases |events|
  {
    events == []
    || (Legal(r, used, p, events[0]) && Runs(r, Used(used, events[0]), Moved(r, p, events[0]), events[1..]))
  }

  /** The values in use at some moment of a run. */
  ghost function Seen(used: iset<int>, events: seq<Event>): iset<int>
    decreases |events|
  {
    if events == [] then used else used + Seen(Used(used, events[0]), events[1..])
  }

  /** Everything the cursor has gone over since it stood at `start` was in use; all, once it went around. */
  ghost predicate Swept(r: Range, start: int, p: int, seen: iset<int>)
    requires r.Cursor(p) && r.Has(start)
  {
    || Full(r, seen)
    || forall y :: r.Has(y) && r.Steps(start, y) < r.Steps(start, p) ==> y in seen
  }

  lemma TakeSweeps(r: Range, start: int, p: int, used: iset<int>, seen: iset<int>, x: int)
    requires r.Has(start) && r.Cursor(p) && Swept(r, start, p, seen) && FirstFree(r, p, used, x) && used <= seen
    ensures Swept(r, start, r.Past(x), seen + iset{x})
    ensures r.Past(x) == start ==> Full(r, seen + iset{x})
  {
    if !Full(r, seen) && (r.Steps(start, x) < r.Steps(start, p) || r.Past(x) == start) {
      forall y | r.lo <= y < r.lo + r.n
        ensures y in seen + iset{x}
      {
      }
    }
  }

  /** Between two times the same value is handed out, every other value of the range is in use at some moment. */
  lemma {:induction false} SweptRun(r: Range, start: int, used: iset<int>, p: int, events: seq<Event>, seen: iset<int>, c: int)
    requires r.Has(start) && r.Cursor(p) && Swept(r, start, p, seen) && used <= seen
    requires events != [] && events[|events| - 1] == Took(c) && r.Has(c) && r.Past(c) == start
    requires Runs(r, used, p, events)
    ensures Full(r, seen + Seen(used, events))
    decreases |events|
  {
    var e, rest := events[0], events[1..];
    var more := seen + Used(used, e);
    if e.Took? {
      TakeSweeps(r, start, p, used, seen, e.x);
      assert seen + iset{e.x} == more;
    } else {
      assert Swept(r, start, p, more);
    }
    if rest == [] {
      assert Seen(used, events) == used + Used(used, e);
    } else {
      assert rest[|rest| - 1] == Took(c);
      SweptRun(r, start, Used(used, e), Moved(r, p, e), rest, more, c);
      assert more + Seen(Used(used, e), rest) <= seen + Seen(used, events) by {
        SeenStarts(Used(used, e), rest);
      }
    }
  }

  lemma SeenStarts(used: iset<int>, events: seq<Event>)
    ensures used <= Seen(used, events)
  {
  }

  /** A value is handed out again only after every other value of the range was in use since. */
  lemma ReuseSweeps(r: Range, used: iset<int>, p: int, c: int, events: seq<Event>)
    requires r.Cursor(p) && FirstFree(r, p, used, c)
    requires events != [] && events[|events| - 1] == Took(c)
    requires Runs(r, used + iset{c}, r.Past(c), events)
    ensures Full(r, Seen(used + iset{c}, events))
  {
    var now := used + iset{c};
    SweptRun(r, r.Past(c), now, r.Past(c), events, now, c);
    SeenStarts(now, events);
    assert now + Seen(now, events) == Seen(now, events);
  }

  // ---------- logs ----------

  /** What is in use after a run. */
  ghost function EndUsed(used: iset<int>, events: seq<Event>): iset<int>
    decreases |events|
  {
    if events == [] then used else EndUsed(Used(used, events[0]), events[1..])
  }

  /** Where the cursor stands after a run. */
  ghost function EndCursor(r: Range, used: iset<int>, p: int, events: seq<Event>): (q: int)
    requires r.Cursor(p) && Runs(r, used, p, events)
    ensures r.Cursor(q)
    decreases |events|
  {
    if events == [] then p else EndCursor(r, Used(used, events[0]), Moved(r, p, events[0]), events[1..])
  }

  /** One more event that is legal at the end of a run. */
  lemma {:induction false} RunsMore(r: Range, used: iset<int>, p: int, events: seq<Event>, e: Event)
    requires r.Cursor(p) && Runs(r, used, p, events)
    requires Legal(r, EndUsed(used, events), EndCursor(r, used, p, events), e)
    ensures Runs(r, used, p, events + [e])
    ensures EndUsed(used, events + [e]) == Used(EndUsed(used, events), e)
    ensures EndCursor(r, used, p, events + [e]) == Moved(r, EndCursor(r, used, p, events), e)
    decreases |events|
  {
    var more := events + [e];
    if events == [] {
      assert more[1..] == [];
    } else {
      assert more[0] == events[0] && more[1..] == events[1..] + [e];
      RunsMore(r, Used(used, events[0]), Moved(r, p, events[0]), events[1..], e);
    }
  }

  /** The first events of a run are a run. */
  lemma {:induction false} RunsFirst(r: Range, used: iset<int>, p: int, events: seq<Event>, k: nat)
    requires r.Cursor(p) && Runs(r, used, p, events) && k <= |events|
    ensures Runs(r, used, p, events[..k])
    decreases k
  {
    if k > 0 {
      var first := events[..k];
      assert first[0] == events[0] && first[1..] == events[1..][..k - 1];
      RunsFirst(r, Used(used, events[0]), Moved(r, p, events[0]), events[1..], k - 1);
    }
  }

  /** In any run: between two takes of one value, every value of the range is in use at some moment. */
  lemma {:induction false} NoEarlyReuse(r: Range, used: iset<int>, p: int, events: seq<Event>, i: nat, j: nat)
    requires r.Cursor(p) && Runs(r, used, p, events)
    requires i < j < |events| && events[i].Took? && events[i] == events[j]
    ensures Full(r, Seen(EndUsed(used, events[..i + 1]), events[i + 1..j + 1]))
    decreases i
  {
    var e, rest := events[0], events[1..];
    var now, q := Used(used, e), Moved(r, p, e);
    if i == 0 {
      RunsFirst(r, now, q, rest, j);
      assert events[1..j + 1] == rest[..j] && rest[..j][j - 1] == e;
      assert events[..1] == [e] && [e][1..] == [] && EndUsed(used, [e]) == now;
      ReuseSweeps(r, used, p, e.x, rest[..j]);
    } else {
      NoEarlyReuse(r, now, q, rest, i - 1, j - 1);
      assert rest[i..j] == events[i + 1..j + 1];
      assert events[..i + 1][0] == e && events[..i + 1][1..] == rest[..i];
    }
  }

  // ---------- from an unused range ----------

  /** The values of the range in use are the first `m` after `p`. */
  ghost predicate FirstTaken(r: Range, p: int, used: iset<int>, m: nat)
    requires r.Cursor(p)
  {
    forall y :: r.Has(y) ==> (y in used <==> r.Steps(p, y) < m)
  }

  lemma {:induction false} TakesInOrder(r: Range, p: int, used: iset<int>, m: nat, q: int, events: seq<Event>, k: nat)
    requires r.Cursor(p) && m <= r.n && FirstTaken(r, p, used, m) && q == (if m < r.n then r.At(p, m) else p)
    requires Runs(r, used, q, events) && (forall i :: 0 <= i < |events| ==> events[i].Took?) && k < |events|
    ensures m + k < r.n && events[k].x == r.At(p, m + k)
    decreases k
  {
    var e := events[0];
    assert m < r.n;
    assert e.x == r.At(p, m) by {
      var first := r.At(p, m);
      assert r.Has(first) && first !in used;
    }
    if k > 0 {
      TakesInOrder(r, p, Used(used, e), m + 1, r.Past(e.x), events[1..], k - 1);
    }
  }

  /** Takes alone, from an unused range: each value once, in order around from the cursor, and no more. */
  lemma Enumerates(r: Range, p: int, used: iset<int>, events: seq<Event>)
    requires r.Cursor(p) && (forall y :: r.lo <= y < r.lo + r.n ==> y !in used)
    requires Runs(r, used, p, events) && forall i :: 0 <= i < |events| ==> events[i].Took?
    ensures |events| <= r.n
    ensures forall k :: 0 <= k < |events| ==> events[k].x == r.At(p, k)
  {
    forall k | 0 <= k < |events|
      ensures k < r.n && events[k].x == r.At(p, k)
    {
      TakesInOrder(r, p, used, 0, p, events, k);
    }
    if events != [] {
      TakesInOrder(r, p, used, 0, p, events, |events| - 1);
    }
  }

  lemma {:induction false} TakenAtEnd(r: Range, p: int, used: iset<int>, m: nat, q: int, events: seq<Event>)
    requires r.Cursor(p) && m <= r.n && FirstTaken(r, p, used, m) && q == (if m < r.n then r.At(p, m) else p)
    requires Runs(r, used, q, events) && forall i :: 0 <= i < |events| ==> events[i].Took?
    ensures m + |events| <= r.n && FirstTaken(r, p, EndUsed(used, events), m + |events|)
    decreases |events|
  {
    if events != [] {
      var e := events[0];
      TakesInOrder(r, p, used, m, q, events, 0);
      TakenAtEnd(r, p, Used(used, e), m + 1, r.Past(e.x), events[1..]);
    }
  }

  /** From an unused range a further take is possible exactly while fewer values were taken than there are. */
  lemma FullAfterAll(r: Range, p: int, used: iset<int>, events: seq<Event>)
    requires r.Cursor(p) && (forall y :: r.lo <= y < r.lo + r.n ==> y !in used)
    requires Runs(r, used, p, events) && forall i :: 0 <= i < |events| ==> events[i].Took?
    ensures Full(r, EndUsed(used, events)) <==> |events| == r.n
  {
    TakenAtEnd(r, p, used, 0, p, events);
    var m := |events|;
    if m < r.n {
      assert r.Has(r.At(p, m)) && r.At(p, m) !in EndUsed(used, events);
    } else {
      forall y | r.lo <= y < r.lo + r.n
        ensures y in EndUsed(used, events)
      {
        assert r.Has(y) && r.Steps(p, y) < m;
      }
    }
  }
}
