/**
 What a run of the sender does, told from the items it took: which requests were accepted and
 which refused, who got which reply, when the loop ended, and how many bytes each turn wrote.
 */
module ControlProgress {
  import opened Bytes
  import opened Frames
  import opened ControlChannel
  import opened ControlSession

  // ---------- the items of a run ----------

  /** The last pause or unpause among the items was a pause. */
  predicate PausedBy(paused: bool, items: seq<Item>) {
    if items == [] then paused
    else
      var last := items[|items| - 1];
      last.PauseSync? || (!last.Unpause? && PausedBy(paused, items[..|items| - 1]))
  }

  function RequestsIn(items: seq<Item>): seq<Id> {
    if items == [] then []
    else RequestsIn(items[..|items| - 1]) + if items[|items| - 1].Request? then [items[|items| - 1].id] else []
  }

  function PausesIn(items: seq<Item>): seq<Id> {
    if items == [] then []
    else PausesIn(items[..|items| - 1]) + if items[|items| - 1].PauseSync? then [items[|items| - 1].id] else []
  }

  function UnpausesIn(items: seq<Item>): seq<Id> {
    if items == [] then []
    else UnpausesIn(items[..|items| - 1]) + if items[|items| - 1].Unpause? then [items[|items| - 1].id] else []
  }

  /** The requests that came while the sender was not paused, and could be marshalled. */
  function AcceptedIn(paused: bool, items: seq<Item>): seq<Cmd> {
    if items == [] then []
    else
      var front, last := items[..|items| - 1], items[|items| - 1];
      AcceptedIn(paused, front)
      + if last.Request? && !PausedBy(paused, front) && last.payload.Some? then [Cmd(last.id, Message(last.code, last.payload.value))] else []
  }

  /** The other requests, each with its reason. */
  function RejectedIn(paused: bool, items: seq<Item>): seq<(Id, Reason)> {
    if items == [] then []
    else
      var front, last := items[..|items| - 1], items[|items| - 1];
      RejectedIn(paused, front)
      + if !last.Request? then []
        else if PausedBy(paused, front) then [(last.id, VmPaused)]
        else if last.payload.None? then [(last.id, MarshalFailed)]
        else []
  }

  /** The n-th reply that finds a command waiting goes to the n-th accepted command. */
  function RepliedIn(paused: bool, items: seq<Item>): seq<(Id, Reply)> {
    if items == [] then []
    else
      var front, last := items[..|items| - 1], items[|items| - 1];
      var before, accepted := RepliedIn(paused, front), AcceptedIn(paused, front);
      before
      + if (last.Ack? || last.Error?) && |before| < |accepted| then [(accepted[|before|].id, Reply(last.Ack?, last.ret))] else []
  }

  /** The bytes the guest has credited. */
  function CreditIn(items: seq<Item>): nat {
    if items == [] then 0
    else CreditIn(items[..|items| - 1]) + if items[|items| - 1].Next? && items[|items| - 1].ret != [] then Amount(items[|items| - 1].ret) else 0
  }

  /** The sender took every item. */
  predicate AllTaken(paused: bool, items: seq<Item>, wrote: seq<nat>)
    requires |wrote| == |items|
  {
    items == [] || Run(Init(paused), items[..|items| - 1], wrote[..|items| - 1]).looping
  }

  /** `s` is where the items lead. */
  predicate Accounts(paused: bool, items: seq<Item>, s: State) {
    && s.paused == PausedBy(paused, items)
    && s.hist.requests == RequestsIn(items) && s.hist.pauses == PausesIn(items) && s.hist.unpauses == UnpausesIn(items)
    && s.hist.accepted == AcceptedIn(paused, items) && s.hist.rejects == RejectedIn(paused, items)
    && s.hist.replies == RepliedIn(paused, items) && s.hist.credit == CreditIn(items)
  }

  lemma StepAccounts(paused: bool, items: seq<Item>, s: State, item: Item, wrote: nat)
    requires Accounts(paused, items, s) && QueueInv(s)
    ensures Accounts(paused, items + [item], Step(s, item, wrote))
  {
    assert (items + [item])[..|items|] == items;
    StepAdds(s, item, wrote);
    if (item.Ack? || item.Error?) && s.cmds != [] {
      assert s.cmds[0] == s.hist.accepted[|s.hist.replies|];
    }
  }

  /** What one item adds to each account. */
  predicate Adds(s: State, item: Item, t: State) {
    && t.paused == (item.PauseSync? || (!item.Unpause? && s.paused))
    && t.hist.requests == s.hist.requests + (if item.Request? then [item.id] else [])
    && t.hist.pauses == s.hist.pauses + (if item.PauseSync? then [item.id] else [])
    && t.hist.unpauses == s.hist.unpauses + (if item.Unpause? then [item.id] else [])
    && t.hist.accepted == s.hist.accepted
       + (if item.Request? && !s.paused && item.payload.Some? then [Cmd(item.id, Message(item.code, item.payload.value))] else [])
    && t.hist.rejects == s.hist.rejects
       + (if !item.Request? then [] else if s.paused then [(item.id, VmPaused)]
          else if item.payload.None? then [(item.id, MarshalFailed)] else [])
    && t.hist.replies == s.hist.replies
       + (if (item.Ack? || item.Error?) && s.cmds != [] then [(s.cmds[0].id, Reply(item.Ack?, item.ret))] else [])
    && t.hist.credit == s.hist.credit + (if item.Next? && item.ret != [] then Amount(item.ret) else 0)
  }

  lemma ReplyAdds(s: State, item: Item)
    requires item.Ack? || item.Error?
    ensures Adds(s, item, Take(s, item))
  {
  }

  lemma RequestAdds(s: State, item: Item)
    requires item.Request?
    ensures Adds(s, item, Take(s, item))
  {
  }

  lemma OtherAdds(s: State, item: Item)
    requires item.Next? || item.PauseSync? || item.Unpause?
    ensures Adds(s, item, Take(s, item))
  {
  }

  lemma FlushAdds(s: State, item: Item, t: State, wrote: nat)
    requires Adds(s, item, t)
    ensures Adds(s, item, Flush(t, wrote))
  {
  }

  lemma StepAdds(s: State, item: Item, wrote: nat)
    ensures Adds(s, item, Step(s, item, wrote))
  {
    if item.Ack? || item.Error? {
      ReplyAdds(s, item);
    } else if item.Request? {
      RequestAdds(s, item);
    } else {
      OtherAdds(s, item);
    }
    FlushAdds(s, item, Take(s, item), wrote);
  }

  lemma {:induction false} RunAccounts(paused: bool, items: seq<Item>, wrote: seq<nat>)
    requires |wrote| == |items| && AllTaken(paused, items, wrote)
    ensures Accounts(paused, items, Run(Init(paused), items, wrote))
  {
    if items != [] {
      var n := |items| - 1;
      TakenBefore(paused, items, wrote);
      RunAccounts(paused, items[..n], wrote[..n]);
      RunKeepsInv(paused, items[..n], wrote[..n]);
      StepAccounts(paused, items[..n], Run(Init(paused), items[..n], wrote[..n]), items[n], wrote[n]);
      assert items == items[..n] + [items[n]];
    }
  }

  lemma TakenBefore(paused: bool, items: seq<Item>, wrote: seq<nat>)
    requires |wrote| == |items| > 0 && AllTaken(paused, items, wrote)
    ensures AllTaken(paused, items[..|items| - 1], wrote[..|items| - 1])
  {
  }

  // ---------- the end of the loop ----------

  /** Command `k` was DESTROYPOD, and has its reply. */
  predicate Destroyed(h: History, k: nat) {
    k < |h.replies| && k < |h.accepted| && h.accepted[k].msg.tag == 4
  }

  ghost predicate EndInv(s: State) {
    && (s.panicked ==> !s.looping)
    && (s.looping || s.panicked <==> forall k: nat :: !Destroyed(s.hist, k))
  }

  lemma ReplyEnds(s: State, item: Item, wrote: nat)
    requires QueueInv(s) && s.looping && EndInv(s) && (item.Ack? || item.Error?)
    ensures EndInv(Step(s, item, wrote))
  {
    var t := Step(s, item, wrote);
    var n := |s.hist.replies|;
    if s.cmds != [] {
      assert s.cmds[0] == s.hist.accepted[n];
      assert forall k: nat :: Destroyed(t.hist, k) <==> Destroyed(s.hist, k) || (k == n && s.cmds[0].msg.tag == 4);
      assert s.cmds[0].msg.tag == 4 ==> Destroyed(t.hist, n);
    }
  }

  lemma OthersGoOn(s: State, item: Item, wrote: nat)
    requires QueueInv(s) && s.looping && EndInv(s) && !item.Ack? && !item.Error?
    ensures EndInv(Step(s, item, wrote))
  {
    var t := Step(s, item, wrote);
    StepAdds(s, item, wrote);
    assert t.looping == !Short(item) && t.panicked == (s.panicked || Short(item));
    assert |s.hist.replies| <= |s.hist.accepted|;
    assert forall k: nat :: Destroyed(t.hist, k) <==> Destroyed(s.hist, k);
  }

  lemma {:induction false} RunEnds(paused: bool, items: seq<Item>, wrote: seq<nat>)
    requires |wrote| == |items|
    ensures EndInv(Run(Init(paused), items, wrote))
  {
    if items != [] {
      var n := |items| - 1;
      RunEnds(paused, items[..n], wrote[..n]);
      RunKeepsInv(paused, items[..n], wrote[..n]);
      var s := Run(Init(paused), items[..n], wrote[..n]);
      if s.looping {
        if items[n].Ack? || items[n].Error? {
          ReplyEnds(s, items[n], wrote[n]);
        } else {
          OthersGoOn(s, items[n], wrote[n]);
        }
      }
    }
  }

  /** In every run the loop has ended if and only if it panicked or DESTROYPOD has its reply. */
  lemma EndsExactly(paused: bool, items: seq<Item>, wrote: seq<nat>)
    requires |wrote| == |items|
    ensures var s := Run(Init(paused), items, wrote);
      !s.looping <==> s.panicked || exists k: nat :: Destroyed(s.hist, k)
  {
    RunEnds(paused, items, wrote);
  }

  // ---------- the bytes of each turn ----------

  /** Bytes are left to write only while some that were written are not credited. */
  predicate Flowing(s: State) {
    s.got <= s.index && (s.got == s.index ==> s.data == [])
  }

  /** The bytes of the commands accepted so far that are not written yet. */
  function Unwritten(h: History, written: nat): int {
    |EncodeAll(VM_WIDTH, Messages(h.accepted))| - written
  }

  /**
   A turn writes exactly when all that was written before it is credited: then as many of the
   bytes that are left as the window of 512 and the connection take.
   */
  predicate WritesRight(s: State, t: State, wrote: nat) {
    |t.hist.wire| == |s.hist.wire|
      + if t.hist.credit == |s.hist.wire| then Min(wrote, Min(512, Unwritten(t.hist, |s.hist.wire|))) else 0
  }

  lemma LeftToWrite(s: State)
    requires WireInv(s)
    ensures Unwritten(s.hist, |s.hist.wire|) == |s.data| - s.index
  {
    assert |s.hist.wire + s.data[s.index..]| == |s.hist.wire| + |s.data| - s.index;
  }

  lemma FlushWrites(s: State, t: State, wrote: nat)
    requires WireInv(t) && t.hist.wire == s.hist.wire && wrote >= 1 && t.got <= t.index
    requires t.index > 0 ==> t.got < t.index
    ensures WritesRight(s, Flush(t, wrote), wrote) && Flowing(Flush(t, wrote))
  {
    LeftToWrite(t);
  }

  /** The turns after which the sender does not look at its bytes: nothing changes for them. */
  lemma SameWrites(s: State, t: State, wrote: nat)
    requires WireInv(s) && Flowing(s) && WireSame(s, t)
    ensures WritesRight(s, t, wrote) && Flowing(t)
  {
    LeftToWrite(s);
  }

  lemma StepWrites(s: State, item: Item, wrote: nat)
    requires WireInv(s) && Flowing(s) && wrote >= 1 && !Short(item)
    requires s.hist.credit + (if item.Next? then Amount(item.ret) else 0) <= |s.hist.wire|
    ensures WritesRight(s, Step(s, item, wrote), wrote) && Flowing(Step(s, item, wrote))
  {
    TakeKeepsWire(s, item);
    TakeOnly(s, item);
    var t := Take(s, item);
    if item.Ack? || item.Error? || (item.Request? && (s.paused || item.payload.None?)) {
      TakeSameWire(s, item);
      SameWrites(s, t, wrote);
    } else {
      TakeOpens(s, item);
      FlushWrites(s, t, wrote);
    }
  }

  lemma TakeOpens(s: State, item: Item)
    requires WireInv(s) && Flowing(s) && !Short(item)
    requires s.hist.credit + (if item.Next? then Amount(item.ret) else 0) <= |s.hist.wire|
    ensures var t := Take(s, item); t.got <= t.index && (t.index > 0 ==> t.got < t.index)
  {
  }

  /** Every write of the session takes at least one byte. */
  predicate Flows(acts: seq<Action>) {
    forall i :: 0 <= i < |acts| ==> (acts[i].Call? || acts[i].Deliver? ==> acts[i].wrote >= 1)
  }

  lemma ActFlows(s: Session, a: Action)
    requires SessionInv(s) && Enabled(s, a) && s.host.looping && Flowing(s.host)
    requires a.Call? || a.Deliver? ==> a.wrote >= 1
    ensures Flowing(Act(s, a).host)
    ensures a.Call? || a.Deliver? ==> WritesRight(s.host, Act(s, a).host, a.wrote)
  {
    match a
    case Call(item, wrote) => StepWrites(s.host, item, wrote);
    case Deliver(wrote) =>
      assert s.guest.credited == s.host.hist.credit + CreditsIn(s.inbound);
      assert CreditsIn(s.inbound) >= if s.inbound[0].Next? then Amount(s.inbound[0].ret) else 0;
      StepWrites(s.host, s.inbound[0], wrote);
    case _ =>
  }

  lemma {:induction false} ReachFlows(paused: bool, acts: seq<Action>, t: Session)
    requires After(Start(paused), acts) == Some(t) && Flows(acts)
    ensures t.host.looping ==> Flowing(t.host)
    decreases |acts|
  {
    if acts != [] {
      var n := |acts| - 1;
      var u := After(Start(paused), acts[..n]).value;
      ReachFlows(paused, acts[..n], u);
      ReachKeepsInv(paused, acts[..n], u);
      if u.host.looping {
        ActFlows(u, acts[n]);
      }
    }
  }

  /** In every interleaving where each write takes at least a byte: once the guest has credited all it was sent, all is sent. */
  lemma NothingHeldBack(paused: bool, acts: seq<Action>, t: Session)
    requires After(Start(paused), acts) == Some(t) && Flows(acts) && t.host.looping
    requires t.host.hist.credit == |t.host.hist.wire|
    ensures t.host.hist.wire == EncodeAll(VM_WIDTH, Messages(t.host.hist.accepted))
  {
    ReachFlows(paused, acts, t);
    ReachKeepsInv(paused, acts, t);
    assert t.host.data[t.host.index..] == [];
    assert t.host.hist.wire + [] == t.host.hist.wire;
  }

  /** And each turn of such an interleaving writes as much as window and connection take, as soon as the window is open. */
  lemma TurnWrites(paused: bool, acts: seq<Action>, s: Session, a: Action)
    requires After(Start(paused), acts) == Some(s) && Flows(acts) && s.host.looping && Enabled(s, a)
    requires (a.Call? || a.Deliver?) && a.wrote >= 1
    ensures WritesRight(s.host, Act(s, a).host, a.wrote)
  {
    ReachFlows(paused, acts, s);
    ReachKeepsInv(paused, acts, s);
    ActFlows(s, a);
  }
}
