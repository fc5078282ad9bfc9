/** The text of a bitmap: its runs of set bits, in increasing order. */
module RangeList {
  import opened Bytes
  import opened Bitmap

  datatype Span = Span(first: nat, last: nat)

  // ---------- the text ----------

  predicate Digit(c: char) { '0' <= c <= '9' }

  function Decimal(n: nat): (s: string)
    ensures s != [] && forall i :: 0 <= i < |s| ==> Digit(s[i])
  {
    var d := ['0' + (n % 10) as char];
    if n < 10 then d else Decimal(n / 10) + d
  }

  function Item(r: Span): string {
    if r.first == r.last then Decimal(r.first) else Decimal(r.first) + "-" + Decimal(r.last)
  }

  /** What comes before the next item. */
  function Lead(runs: seq<Span>): string
    decreases |runs|, 1
  {
    if runs == [] then "" else Text(runs) + ","
  }

  function Text(runs: seq<Span>): string
    decreases |runs|, 0
  {
    if runs == [] then "" else Lead(runs[..|runs| - 1]) + Item(runs[|runs| - 1])
  }

  // ---------- reading it back ----------

  /** Digits read on from `acc`, and what follows them. */
  function ReadNumber(s: string, acc: nat): (nat, string) {
    if s == [] || !Digit(s[0]) then (acc, s) else ReadNumber(s[1..], 10 * acc + (s[0] - '0') as nat)
  }

  lemma {:induction false} ReadRest(s: string, acc: nat)
    ensures |ReadNumber(s, acc).1| <= |s|
    ensures s != [] && Digit(s[0]) ==> |ReadNumber(s, acc).1| < |s|
  {
    if s != [] && Digit(s[0]) {
      ReadRest(s[1..], 10 * acc + (s[0] - '0') as nat);
    }
  }

  /** One item, `a` or `a-b`, and what follows it. */
  function ReadItem(s: string): (r: Option<(Span, string)>)
    ensures r.Some? ==> |r.value.1| < |s|
  {
    if s == [] || !Digit(s[0]) then None
    else
      ReadRest(s, 0);
      var (a, rest) := ReadNumber(s, 0);
      if rest == [] || rest[0] != '-' then Some((Span(a, a), rest))
      else if rest[1..] == [] || !Digit(rest[1]) then None
      else
        ReadRest(rest[1..], 0);
        var (b, more) := ReadNumber(rest[1..], 0);
        Some((Span(a, b), more))
  }

  /** The items of a list. */
  function ReadList(s: string): Option<seq<Span>>
    decreases |s|
  {
    match ReadItem(s)
    case None => None
    case Some((r, rest)) =>
      if rest == [] then Some([r])
      else if rest[0] != ',' then None
      else
        match ReadList(rest[1..])
        case None => None
        case Some(more) => Some([r] + more)
  }

  /** Nothing reads as no items. */
  function Read(s: string): Option<seq<Span>> {
    if s == [] then Some([]) else ReadList(s)
  }

  predicate NoDigit(s: string) {
    s == [] || !Digit(s[0])
  }

  lemma {:induction false} ReadDecimal(n: nat, rest: string)
    ensures ReadNumber(Decimal(n) + rest, 0) == ReadNumber(rest, n)
    decreases n
  {
    var d := ['0' + (n % 10) as char];
    if n < 10 {
      assert (d + rest)[1..] == rest;
    } else {
      assert Decimal(n) + rest == Decimal(n / 10) + (d + rest);
      ReadDecimal(n / 10, d + rest);
      assert (d + rest)[1..] == rest;
    }
  }

  lemma ReadOne(a: nat, rest: string)
    requires NoDigit(rest) && (rest == [] || rest[0] != '-')
    ensures ReadItem(Decimal(a) + rest) == Some((Span(a, a), rest))
  {
    ReadDecimal(a, rest);
  }

  lemma ReadTwo(a: nat, b: nat, rest: string)
    requires NoDigit(rest)
    ensures ReadItem(Decimal(a) + ("-" + (Decimal(b) + rest))) == Some((Span(a, b), rest))
  {
    var more := "-" + (Decimal(b) + rest);
    ReadDecimal(a, more);
    assert more[1..] == Decimal(b) + rest;
    ReadDecimal(b, rest);
  }

  lemma ReadItemBack(r: Span, rest: string)
    requires NoDigit(rest) && (rest == [] || rest[0] != '-')
    ensures ReadItem(Item(r) + rest) == Some((r, rest))
  {
    if r.first == r.last {
      ReadOne(r.first, rest);
    } else {
      ReadTwo(r.first, r.last, rest);
      Associate(Decimal(r.first), "-", Decimal(r.last), rest);
    }
  }

  lemma Associate(a: string, b: string, c: string, d: string)
    ensures ((a + b) + c) + d == a + (b + (c + d))
  {
  }

  /** The text from its first item on. */
  function Tail(runs: seq<Span>): string {
    if runs == [] then "" else "," + Text(runs)
  }

  lemma {:induction false} TextFirst(r: Span, runs: seq<Span>)
    ensures Text([r] + runs) == Item(r) + Tail(runs)
    decreases |runs|
  {
    if runs == [] {
      TextOne(r);
    } else {
      var init, last := runs[..|runs| - 1], runs[|runs| - 1];
      assert runs == init + [last];
      assert [r] + runs == ([r] + init) + [last];
      TextLast([r] + init, last);
      TextFirst(r, init);
      LeadTail(init, last);
      Associate(Item(r), Tail(init), ",", Item(last));
    }
  }

  lemma TextOne(r: Span)
    ensures Text([r] + []) == Item(r) + ""
  {
    assert [r] + [] == [r] && [r][..0] == [];
    assert Text([r]) == "" + Item(r);
  }

  lemma TextLast(runs: seq<Span>, last: Span)
    requires runs != []
    ensures Text(runs + [last]) == (Text(runs) + ",") + Item(last)
  {
    assert (runs + [last])[..|runs|] == runs;
  }

  lemma LeadTail(init: seq<Span>, last: Span)
    ensures Tail(init + [last]) == Tail(init) + ("," + Item(last))
  {
    var runs := init + [last];
    assert runs[..|runs| - 1] == init;
    var t, i := Text(init), Item(last);
    assert Text(runs) == Lead(init) + i;
    assert "," + ((t + ",") + i) == ("," + t) + ("," + i);
    assert "," + ("" + i) == "" + ("," + i);
  }

  lemma ReadStep(s: string, r: Span, rest: string)
    requires ReadItem(s) == Some((r, rest))
    ensures rest == [] ==> ReadList(s) == Some([r])
    ensures rest != [] && rest[0] == ',' && ReadList(rest[1..]).Some? ==> ReadList(s) == Some([r] + ReadList(rest[1..]).value)
  {
  }

  /** Reading the text gives the items. */
  lemma {:induction false} ReadBack(runs: seq<Span>)
    ensures Read(Text(runs)) == Some(runs)
    decreases |runs|
  {
    if runs != [] {
      var r, rest := runs[0], runs[1..];
      assert runs == [r] + rest;
      TextFirst(r, rest);
      var tail := Tail(rest);
      ReadItemBack(r, tail);
      TextStarts(runs);
      ReadStep(Text(runs), r, tail);
      if rest != [] {
        assert tail[0] == ',' && tail[1..] == Text(rest);
        ReadBack(rest);
        TextStarts(rest);
      } else {
        assert [r] == runs;
      }
    }
  }

  lemma TextStarts(runs: seq<Span>)
    requires runs != []
    ensures Text(runs) != []
  {
  }

  // ---------- the runs of a bitmap ----------

  /** The runs of the bits below `n`; the last one may go on. */
  function RunsBelow(bytes: seq<byte>, n: nat): (runs: seq<Span>)
    ensures runs != [] ==> runs[|runs| - 1].last < n
  {
    if n == 0 then []
    else
      var before := RunsBelow(bytes, n - 1);
      if !Has(bytes, n - 1) then before
      else if n >= 2 && Has(bytes, n - 2) && before != [] then
        before[..|before| - 1] + [Span(before[|before| - 1].first, n - 1)]
      else before + [Span(n - 1, n - 1)]
  }

  /** Runs in increasing order, a gap between any two. */
  predicate Apart(runs: seq<Span>) {
    && (forall k :: 0 <= k < |runs| ==> runs[k].first <= runs[k].last)
    && (forall j, k :: 0 <= j < k < |runs| ==> runs[j].last + 1 < runs[k].first)
  }

  /** Some run holds `i`. */
  predicate InRuns(runs: seq<Span>, i: int) {
    exists k :: 0 <= k < |runs| && runs[k].first <= i <= runs[k].last
  }

  /** The runs with bit `m` added, to the last run or as a run of its own. */
  predicate Grown(before: seq<Span>, runs: seq<Span>, m: nat, joins: bool) {
    if joins then
      && before != [] && before[|before| - 1].last == m - 1
      && runs == before[..|before| - 1] + [Span(before[|before| - 1].first, m)]
    else runs == before + [Span(m, m)]
  }

  lemma RunsGrow(before: seq<Span>, runs: seq<Span>, m: nat, joins: bool, i: int)
    requires Grown(before, runs, m, joins) && (forall k :: 0 <= k < |before| ==> before[k].first <= before[k].last)
    ensures InRuns(runs, i) <==> InRuns(before, i) || i == m
  {
    if InRuns(before, i) {
      var k :| 0 <= k < |before| && before[k].first <= i <= before[k].last;
      assert runs[k].first <= i <= runs[k].last;
    }
    if i == m {
      assert runs[|runs| - 1].last == m;
    }
    if InRuns(runs, i) {
      var k :| 0 <= k < |runs| && runs[k].first <= i <= runs[k].last;
      if k < |before| && i != m {
        assert before[k].first <= i <= before[k].last;
      }
    }
  }

  lemma GrownApart(before: seq<Span>, runs: seq<Span>, m: nat, joins: bool)
    requires Grown(before, runs, m, joins) && Apart(before)
    requires !joins ==> forall k :: 0 <= k < |before| ==> before[k].last + 1 < m
    ensures Apart(runs)
  {
  }

  /** The runs are apart and hold exactly the bits below `n`. */
  ghost predicate HoldBelow(bytes: seq<byte>, n: nat, runs: seq<Span>) {
    && Apart(runs)
    && (forall i :: InRuns(runs, i) <==> i < n && Has(bytes, i))
  }

  lemma GrownHold(bytes: seq<byte>, m: nat, before: seq<Span>, runs: seq<Span>, joins: bool)
    requires HoldBelow(bytes, m, before) && Has(bytes, m) && Grown(before, runs, m, joins)
    requires joins <==> m >= 1 && Has(bytes, m - 1)
    ensures HoldBelow(bytes, m + 1, runs)
  {
    forall k | 0 <= k < |before| && !joins
      ensures before[k].last + 1 < m
    {
      assert InRuns(before, before[k].last);
    }
    GrownApart(before, runs, m, joins);
    forall i
      ensures InRuns(runs, i) <==> i < m + 1 && Has(bytes, i)
    {
      RunsGrow(before, runs, m, joins, i);
    }
  }

  /** A bit ends the last run. */
  lemma LastRun(bytes: seq<byte>, n: nat, runs: seq<Span>)
    requires HoldBelow(bytes, n, runs) && n > 0 && Has(bytes, n - 1)
    ensures runs != [] && runs[|runs| - 1].last == n - 1
  {
    assert InRuns(runs, n - 1);
    var k :| 0 <= k < |runs| && runs[k].first <= n - 1 <= runs[k].last;
    assert InRuns(runs, runs[|runs| - 1].last);
  }

  /** A bit joins the run that ends just before it, or starts one. */
  lemma RunsBelowGrow(bytes: seq<byte>, m: nat)
    requires Has(bytes, m) && HoldBelow(bytes, m, RunsBelow(bytes, m))
    ensures Grown(RunsBelow(bytes, m), RunsBelow(bytes, m + 1), m, m >= 1 && Has(bytes, m - 1))
  {
    if m >= 1 && Has(bytes, m - 1) {
      LastRun(bytes, m, RunsBelow(bytes, m));
    }
  }

  lemma SameHold(bytes: seq<byte>, m: nat, runs: seq<Span>)
    requires HoldBelow(bytes, m, runs) && !Has(bytes, m)
    ensures HoldBelow(bytes, m + 1, runs)
  {
  }

  lemma RunsBelowStep(bytes: seq<byte>, m: nat)
    requires HoldBelow(bytes, m, RunsBelow(bytes, m))
    ensures HoldBelow(bytes, m + 1, RunsBelow(bytes, m + 1))
  {
    if Has(bytes, m) {
      RunsBelowGrow(bytes, m);
      GrownHold(bytes, m, RunsBelow(bytes, m), RunsBelow(bytes, m + 1), m >= 1 && Has(bytes, m - 1));
    } else {
      SameHold(bytes, m, RunsBelow(bytes, m));
    }
  }

  lemma {:induction false} RunsBelowAre(bytes: seq<byte>, n: nat)
    ensures HoldBelow(bytes, n, RunsBelow(bytes, n))
  {
    if n > 0 {
      RunsBelowAre(bytes, n - 1);
      RunsBelowStep(bytes, n - 1);
    }
  }

  /** The runs are determined by what they hold. */
  lemma {:induction false} RunsUnique(a: seq<Span>, b: seq<Span>)
    requires Apart(a) && Apart(b) && forall i :: InRuns(a, i) <==> InRuns(b, i)
    ensures a == b
    decreases |a|
  {
    if a != [] || b != [] {
      SameFirst(a, b);
      var c, d := a[1..], b[1..];
      assert a == [a[0]] + c && b == [b[0]] + d;
      forall i
        ensures InRuns(c, i) <==> InRuns(d, i)
      {
        RestHolds(a, i);
        RestHolds(b, i);
      }
      RunsUnique(c, d);
    }
  }

  lemma RestHolds(a: seq<Span>, i: int)
    requires Apart(a) && a != []
    ensures InRuns(a[1..], i) <==> InRuns(a, i) && i > a[0].last
  {
    var c := a[1..];
    if InRuns(c, i) {
      var k :| 0 <= k < |c| && c[k].first <= i <= c[k].last;
      assert a[k + 1].first <= i <= a[k + 1].last;
    }
    if InRuns(a, i) && i > a[0].last {
      var k :| 0 <= k < |a| && a[k].first <= i <= a[k].last;
      assert c[k - 1] == a[k];
    }
  }

  lemma SameFirst(a: seq<Span>, b: seq<Span>)
    requires Apart(a) && Apart(b) && (forall i :: InRuns(a, i) <==> InRuns(b, i)) && (a != [] || b != [])
    ensures a != [] && b != [] && a[0] == b[0]
  {
    assert a != [] ==> InRuns(a, a[0].first);
    assert b != [] ==> InRuns(b, b[0].first);
    FirstRun(a, b[0].first);
    FirstRun(b, a[0].first);
    assert InRuns(a, a[0].last) && InRuns(b, b[0].last);
    assert InRuns(b, a[0].last + 1) <==> InRuns(a, a[0].last + 1);
    assert InRuns(b, b[0].last + 1) <==> InRuns(a, b[0].last + 1);
    AfterFirst(a);
    AfterFirst(b);
  }

  lemma FirstRun(a: seq<Span>, i: int)
    requires Apart(a) && InRuns(a, i)
    ensures a != [] && a[0].first <= i
  {
  }

  lemma AfterFirst(a: seq<Span>)
    requires Apart(a) && a != []
    ensures !InRuns(a, a[0].last + 1)
  {
  }

  /** The maximal runs of set bits: apart, increasing, holding exactly the members. */
  ghost predicate MaximalRuns(bytes: seq<byte>, runs: seq<Span>) {
    Apart(runs) && forall i: nat :: InRuns(runs, i) <==> i in Members(bytes)
  }

  lemma AllRuns(bytes: seq<byte>)
    ensures MaximalRuns(bytes, RunsBelow(bytes, 8 * |bytes|))
  {
    RunsBelowAre(bytes, 8 * |bytes|);
  }

  /** The text between two bits: what is printed, and the run that is open. */
  ghost predicate Printed(bytes: seq<byte>, i: nat, s: string, lastOnline: bool, crange: bool, printed: bool) {
    var runs := RunsBelow(bytes, i);
    && (lastOnline <==> i > 0 && Has(bytes, i - 1))
    && (printed <==> runs != [])
    && (crange ==> lastOnline)
    && if !lastOnline then s == Text(runs)
       else
         && runs != [] && runs[|runs| - 1].first <= runs[|runs| - 1].last == i - 1
         && (crange <==> runs[|runs| - 1].first < i - 1)
         && s == Lead(runs[..|runs| - 1]) + Decimal(runs[|runs| - 1].first) + if crange then "-" else ""
  }

  lemma Pieces(lead: string, a: string, b: string)
    ensures (lead + a + "-") + b == lead + (a + "-" + b) && lead + a + "" == lead + a
  {
  }

  /** The closing of an open run. */
  lemma CloseItem(lead: string, r: Span, s: string, crange: bool)
    requires r.first <= r.last && (crange <==> r.first < r.last)
    requires s == lead + Decimal(r.first) + if crange then "-" else ""
    ensures (if crange then s + Decimal(r.last) else s) == lead + Item(r)
  {
    Pieces(lead, Decimal(r.first), Decimal(r.last));
  }

  lemma Closes(bytes: seq<byte>, i: nat, s: string, crange: bool, printed: bool)
    requires i > 0 && Printed(bytes, i, s, true, crange, printed)
    ensures (if crange then s + Decimal(i - 1) else s) == Text(RunsBelow(bytes, i))
  {
    var runs := RunsBelow(bytes, i);
    CloseItem(Lead(runs[..|runs| - 1]), runs[|runs| - 1], s, crange);
  }

  lemma OpensRun(bytes: seq<byte>, i: nat, s: string, printed: bool)
    requires Has(bytes, i) && Printed(bytes, i, s, false, false, printed) && HoldBelow(bytes, i, RunsBelow(bytes, i))
    ensures Printed(bytes, i + 1, (if printed then s + "," else s) + Decimal(i), true, false, true)
  {
    RunsBelowGrow(bytes, i);
    var before, runs := RunsBelow(bytes, i), RunsBelow(bytes, i + 1);
    assert runs[..|runs| - 1] == before;
    var lead := if printed then s + "," else s;
    assert lead == Lead(before);
    assert lead + Decimal(i) + "" == lead + Decimal(i);
  }

  lemma ExtendsRun(bytes: seq<byte>, i: nat, s: string, crange: bool, printed: bool)
    requires Has(bytes, i) && Printed(bytes, i, s, true, crange, printed) && HoldBelow(bytes, i, RunsBelow(bytes, i))
    ensures Printed(bytes, i + 1, if crange then s else s + "-", true, true, printed)
  {
    RunsBelowGrow(bytes, i);
    var before, runs := RunsBelow(bytes, i), RunsBelow(bytes, i + 1);
    assert runs[..|runs| - 1] == before[..|before| - 1];
    var head := Lead(before[..|before| - 1]) + Decimal(before[|before| - 1].first);
    assert head + "" == head;
  }

  lemma EndsRun(bytes: seq<byte>, i: nat, s: string, lastOnline: bool, crange: bool, printed: bool)
    requires !Has(bytes, i) && Printed(bytes, i, s, lastOnline, crange, printed)
    ensures Printed(bytes, i + 1, if crange then s + Decimal(i - 1) else s, false, false, printed)
  {
    if lastOnline {
      Closes(bytes, i, s, crange, printed);
    }
  }

  /** Bitmap.String. */
  method String(bytes: seq<byte>) returns (s: string)
    ensures exists runs :: MaximalRuns(bytes, runs) && s == Text(runs)
  {
    s := Print(bytes);
    AllRuns(bytes);
  }

  /** The loop of Bitmap.String. */
  method Print(bytes: seq<byte>) returns (s: string)
    ensures s == Text(RunsBelow(bytes, 8 * |bytes|))
  {
    s := "";
    var lastOnline, crange, printed := false, false, false;
    var i := 0;
    while i <= |bytes| * 8 - 1
      invariant 0 <= i <= |bytes| * 8
      invariant Printed(bytes, i, s, lastOnline, crange, printed)
    {
      RunsBelowAre(bytes, i);
      if Has(bytes, i) {
        if !lastOnline {
          OpensRun(bytes, i, s, printed);
          if printed {
            s := s + ",";
          }
          s := s + Decimal(i);
          printed := true;
        } else {
          ExtendsRun(bytes, i, s, crange, printed);
          if !crange {
            crange := true;
            s := s + "-";
          }
        }
        lastOnline := true;
      } else {
        EndsRun(bytes, i, s, lastOnline, crange, printed);
        if lastOnline {
          if crange {
            s := s + Decimal(i - 1);
          }
        }
        lastOnline := false;
        crange := false;
      }
      i := i + 1;
    }
    if lastOnline {
      Closes(bytes, i, s, crange, printed);
      if crange {
        s := s + Decimal(i - 1);
      }
    }
  }

  /** Reading a printed bitmap gives its maximal runs, and so its set bits. */
  lemma StringReadsBack(bytes: seq<byte>, s: string, i: nat)
    requires exists runs :: MaximalRuns(bytes, runs) && s == Text(runs)
    ensures Read(s).Some? && MaximalRuns(bytes, Read(s).value)
    ensures i in Members(bytes) <==> InRuns(Read(s).value, i)
  {
    var runs :| MaximalRuns(bytes, runs) && s == Text(runs);
    ReadBack(runs);
  }
}
