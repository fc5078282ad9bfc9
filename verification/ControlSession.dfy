/**
 The control channel end to end: the sender, the byte stream, a guest that reads the stream,
 credits bytes it has received and answers commands it has received, in order and once each,
 and the agent's API calls, interleaved in any way.
 */
module ControlSession {
  import opened Bytes
  import opened Frames
  import opened ControlChannel

  /** `received` bytes are read, `credited` of them are credited, `answers` are the replies given. */
  datatype Guest = Guest(received: nat, credited: nat, answers: seq<Reply>)

  /** `inbound` is what the guest has sent and the sender has not yet taken. */
  datatype Session = Session(host: State, guest: Guest, inbound: seq<Item>)

  datatype Action =
    | Call(item: Item, wrote: nat)
    | Deliver(wrote: nat)
    | Receive(n: nat)
    | Credit(n: nat)
    | Answer(reply: Reply)

  function Start(paused: bool): Session {
    Session(Init(paused), Guest(0, 0, []), [])
  }

  /** The commands the guest has received entirely. */
  function Arrived(s: Session): seq<Message>
    requires s.guest.received <= |s.host.hist.wire|
  {
    Split(VM_WIDTH, s.host.hist.wire[..s.guest.received]).0
  }

  predicate CallItem(item: Item) {
    match item
    case Request(_, code, payload) => payload.Some? ==> Fits(VM_WIDTH, Message(code, payload.value))
    case PauseSync(_) => true
    case Unpause(_) => true
    case _ => false
  }

  /** What the environment may do: the guest credits and answers no more than it has received. */
  predicate Enabled(s: Session, a: Action) {
    && s.guest.received <= |s.host.hist.wire|
    && match a
       case Call(item, _) => CallItem(item)
       case Deliver(_) => s.inbound != []
       case Receive(n) => s.guest.received + n <= |s.host.hist.wire|
       case Credit(n) => n < 0x1_0000_0000 && s.guest.credited + n <= s.guest.received
       case Answer(_) => |s.guest.answers| < |Arrived(s)|
  }

  function ReplyItem(r: Reply): Item {
    if r.ok then Ack(r.ret) else Error(r.ret)
  }

  function Turn(s: State, item: Item, wrote: nat): State {
    if s.looping then Step(s, item, wrote) else s
  }

  function Act(s: Session, a: Action): Session
    requires Enabled(s, a)
  {
    match a
    case Call(item, wrote) => s.(host := Turn(s.host, item, wrote))
    case Deliver(wrote) => s.(host := Turn(s.host, s.inbound[0], wrote), inbound := s.inbound[1..])
    case Receive(n) => s.(guest := s.guest.(received := s.guest.received + n))
    case Credit(n) =>
      s.(guest := s.guest.(credited := s.guest.credited + n), inbound := s.inbound + [Next(ToBE(n, 4))])
    case Answer(r) =>
      s.(guest := s.guest.(answers := s.guest.answers + [r]), inbound := s.inbound + [ReplyItem(r)])
  }

  /** The session after the actions, if each was possible in its turn. */
  function After(s: Session, acts: seq<Action>): (t: Option<Session>)
    decreases |acts|
  {
    if acts == [] then Some(s)
    else
      var n := |acts| - 1;
      match After(s, acts[..n])
      case None => None
      case Some(u) => if Enabled(u, acts[n]) then Some(Act(u, acts[n])) else None
  }

  // ---------- what travels from the guest ----------

  function CreditsIn(items: seq<Item>): (n: nat) {
    if items == [] then 0
    else (if items[0].Next? then Amount(items[0].ret) else 0) + CreditsIn(items[1..])
  }

  function RepliesIn(items: seq<Item>): (rs: seq<Reply>) {
    if items == [] then []
    else (match items[0]
          case Ack(ret) => [Reply(true, ret)]
          case Error(ret) => [Reply(false, ret)]
          case _ => []) + RepliesIn(items[1..])
  }

  lemma {:induction false} AppendCredit(items: seq<Item>, item: Item)
    ensures CreditsIn(items + [item]) == CreditsIn(items) + CreditsIn([item])
  {
    if items == [] {
      assert items + [item] == [item];
    } else {
      AppendCredit(items[1..], item);
      assert (items + [item])[1..] == items[1..] + [item];
    }
  }

  lemma {:induction false} AppendReply(items: seq<Item>, item: Item)
    ensures RepliesIn(items + [item]) == RepliesIn(items) + RepliesIn([item])
  {
    if items == [] {
      assert items + [item] == [item];
    } else {
      var rest := items[1..];
      assert (items + [item])[1..] == rest + [item];
      AppendReply(rest, item);
      var head := if items[0].Ack? || items[0].Error? then [Reply(items[0].Ack?, items[0].ret)] else [];
      assert RepliesIn(items) == head + RepliesIn(rest);
      assert RepliesIn(items + [item]) == head + RepliesIn(rest + [item]);
      assert head + (RepliesIn(rest) + RepliesIn([item])) == head + RepliesIn(rest) + RepliesIn([item]);
    }
  }

  lemma AppendInbound(items: seq<Item>, item: Item)
    ensures CreditsIn(items + [item]) == CreditsIn(items) + CreditsIn([item])
    ensures RepliesIn(items + [item]) == RepliesIn(items) + RepliesIn([item])
  {
    AppendCredit(items, item);
    AppendReply(items, item);
  }

  /** The results the sender has given, without the ids. */
  function Given(h: History): (rs: seq<Reply>)
    ensures |rs| == |h.replies|
  {
    seq(|h.replies|, i requires 0 <= i < |h.replies| => h.replies[i].1)
  }

  predicate GuestItems(items: seq<Item>) {
    forall i :: 0 <= i < |items| ==> items[i].Ack? || items[i].Error? || (items[i].Next? && !Short(items[i]))
  }

  predicate SessionInv(s: Session) {
    && Inv(s.host) && !s.host.panicked && AllFit(VM_WIDTH, Messages(s.host.hist.accepted))
    && GuestItems(s.inbound)
    && s.guest.credited <= s.guest.received <= |s.host.hist.wire|
    && (s.host.looping ==>
          && s.guest.credited == s.host.hist.credit + CreditsIn(s.inbound)
          && s.guest.answers == Given(s.host.hist) + RepliesIn(s.inbound))
    && Given(s.host.hist) <= s.guest.answers
    && |s.guest.answers| <= |Arrived(s)|
  }

  // ---------- each action keeps it ----------

  lemma TakeOnly(s: State, item: Item)
    ensures var t := Take(s, item);
      && t.hist.wire == s.hist.wire
      && (!item.Request? ==> t.hist.accepted == s.hist.accepted)
      && (!item.Next? ==> t.hist.credit == s.hist.credit)
      && (!item.Ack? && !item.Error? ==> t.hist.replies == s.hist.replies)
  {
  }

  lemma StepOnlyWrites(s: State, item: Item, wrote: nat)
    ensures s.hist.wire <= Step(s, item, wrote).hist.wire
    ensures !item.Request? ==> Step(s, item, wrote).hist.accepted == s.hist.accepted
    ensures !item.Next? ==> Step(s, item, wrote).hist.credit == s.hist.credit
    ensures !item.Ack? && !item.Error? ==> Step(s, item, wrote).hist.replies == s.hist.replies
  {
    TakeOnly(s, item);
  }

  lemma ArrivedSame(s: Session, t: Session)
    requires s.guest.received <= |s.host.hist.wire| && s.host.hist.wire <= t.host.hist.wire
    requires t.guest.received == s.guest.received
    ensures Arrived(t) == Arrived(s)
  {
    assert t.host.hist.wire[..s.guest.received] == s.host.hist.wire[..s.guest.received];
  }

  lemma CallKeeps(s: Session, item: Item, wrote: nat)
    requires SessionInv(s) && CallItem(item)
    ensures SessionInv(Act(s, Call(item, wrote)))
  {
    var t := Act(s, Call(item, wrote));
    if s.host.looping {
      StepKeepsInv(s.host, item, wrote);
      StepOnlyWrites(s.host, item, wrote);
      ArrivedSame(s, t);
      AcceptFits(s.host, item, wrote);
      assert Given(t.host.hist) == Given(s.host.hist);
    }
  }

  lemma AcceptFits(s: State, item: Item, wrote: nat)
    requires AllFit(VM_WIDTH, Messages(s.hist.accepted)) && CallItem(item)
    ensures AllFit(VM_WIDTH, Messages(Step(s, item, wrote).hist.accepted))
    ensures Step(s, item, wrote).looping == s.looping
  {
    var t := Step(s, item, wrote);
    if item.Request? && !s.paused && item.payload.Some? {
      AppendMessages(s.hist.accepted, Cmd(item.id, Message(item.code, item.payload.value)));
    }
  }

  /** The commands that have arrived at the guest are the first accepted ones. */
  lemma ArrivedPrefix(s: Session)
    requires WireInv(s.host) && AllFit(VM_WIDTH, Messages(s.host.hist.accepted))
    requires s.guest.received <= |s.host.hist.wire|
    ensures Arrived(s) <= Messages(s.host.hist.accepted)
    ensures |Arrived(s)| == |s.host.hist.accepted| ==>
      s.guest.received == |s.host.hist.wire| && s.host.data[s.host.index..] == []
  {
    var ms := Messages(s.host.hist.accepted);
    var all := EncodeAll(VM_WIDTH, ms);
    assert all[..s.guest.received] == s.host.hist.wire[..s.guest.received];
    SplitPrefix(VM_WIDTH, ms, s.guest.received);
    if |Arrived(s)| == |ms| {
      assert Arrived(s) == ms;
      assert all + [] == all[..s.guest.received];
    }
  }

  /** A reply that reaches the sender always finds its command at the head of the queue. */
  lemma ReplyFindsCommand(s: Session)
    requires SessionInv(s) && s.host.looping && s.inbound != [] && !s.inbound[0].Next?
    ensures s.host.cmds != []
    ensures s.guest.answers[|s.host.hist.replies|] == RepliesIn(s.inbound)[0]
  {
    ArrivedPrefix(s);
    assert RepliesIn(s.inbound) != [];
    assert |s.host.hist.accepted| == |s.host.hist.replies| + |s.host.cmds|;
  }

  /** The sender has taken what the guest sent first; `h` is where that leaves it. */
  lemma Delivered(s: Session, h: State)
    requires SessionInv(s) && s.inbound != [] && Inv(h) && !h.panicked
    requires h.hist.accepted == s.host.hist.accepted && s.host.hist.wire <= h.hist.wire
    requires h.looping ==> s.guest.credited == h.hist.credit + CreditsIn(s.inbound[1..])
    requires h.looping ==> s.guest.answers == Given(h.hist) + RepliesIn(s.inbound[1..])
    requires Given(h.hist) <= s.guest.answers
    ensures SessionInv(s.(host := h, inbound := s.inbound[1..]))
  {
    ArrivedSame(s, s.(host := h, inbound := s.inbound[1..]));
  }

  lemma ReplyTaken(h: State, inbound: seq<Item>, wrote: nat)
    requires inbound != [] && (inbound[0].Ack? || inbound[0].Error?) && h.cmds != []
    ensures var t := Step(h, inbound[0], wrote);
      && Given(t.hist) + RepliesIn(inbound[1..]) == Given(h.hist) + RepliesIn(inbound)
      && CreditsIn(inbound[1..]) == CreditsIn(inbound) && t.panicked == h.panicked
  {
    ReplyGiven(h, inbound[0], wrote);
    ReplyFirst(inbound);
    var r := Reply(inbound[0].Ack?, inbound[0].ret);
    Shift(Given(h.hist), r, RepliesIn(inbound[1..]));
  }

  lemma ReplyGiven(h: State, item: Item, wrote: nat)
    requires (item.Ack? || item.Error?) && h.cmds != []
    ensures Given(Step(h, item, wrote).hist) == Given(h.hist) + [Reply(item.Ack?, item.ret)]
    ensures Step(h, item, wrote).panicked == h.panicked
  {
    assert Step(h, item, wrote).hist.replies == h.hist.replies + [(h.cmds[0].id, Reply(item.Ack?, item.ret))];
  }

  lemma ReplyFirst(inbound: seq<Item>)
    requires inbound != [] && (inbound[0].Ack? || inbound[0].Error?)
    ensures RepliesIn(inbound) == [Reply(inbound[0].Ack?, inbound[0].ret)] + RepliesIn(inbound[1..])
    ensures CreditsIn(inbound[1..]) == CreditsIn(inbound)
  {
  }

  lemma Shift(a: seq<Reply>, r: Reply, b: seq<Reply>)
    ensures (a + [r]) + b == a + ([r] + b)
  {
  }

  lemma DeliverReplyKeeps(s: Session, wrote: nat)
    requires SessionInv(s) && s.host.looping && s.inbound != [] && !s.inbound[0].Next?
    ensures SessionInv(Act(s, Deliver(wrote)))
  {
    ReplyFindsCommand(s);
    StepKeepsInv(s.host, s.inbound[0], wrote);
    StepOnlyWrites(s.host, s.inbound[0], wrote);
    ReplyTaken(s.host, s.inbound, wrote);
    Delivered(s, Step(s.host, s.inbound[0], wrote));
  }

  lemma DeliverNextKeeps(s: Session, wrote: nat)
    requires SessionInv(s) && s.host.looping && s.inbound != [] && s.inbound[0].Next?
    ensures SessionInv(Act(s, Deliver(wrote)))
  {
    StepKeepsInv(s.host, s.inbound[0], wrote);
    StepOnlyWrites(s.host, s.inbound[0], wrote);
    NextTaken(s.host, s.inbound, wrote);
    assert Given(Step(s.host, s.inbound[0], wrote).hist) == Given(s.host.hist);
    Delivered(s, Step(s.host, s.inbound[0], wrote));
  }

  lemma NextTaken(s: State, inbound: seq<Item>, wrote: nat)
    requires inbound != [] && inbound[0].Next? && !Short(inbound[0])
    ensures RepliesIn(inbound) == RepliesIn(inbound[1..])
    ensures Step(s, inbound[0], wrote).hist.credit + CreditsIn(inbound[1..]) == s.hist.credit + CreditsIn(inbound)
    ensures Step(s, inbound[0], wrote).looping == s.looping && Step(s, inbound[0], wrote).panicked == s.panicked
  {
    NextCredits(s, inbound[0], wrote);
    assert RepliesIn(inbound) == [] + RepliesIn(inbound[1..]);
  }

  lemma NextCredits(s: State, item: Item, wrote: nat)
    requires item.Next? && !Short(item)
    ensures Step(s, item, wrote).hist.credit == s.hist.credit + Amount(item.ret)
    ensures Step(s, item, wrote).looping == s.looping && Step(s, item, wrote).panicked == s.panicked
  {
  }

  lemma ReceiveKeeps(s: Session, n: nat)
    requires SessionInv(s) && s.guest.received + n <= |s.host.hist.wire|
    ensures SessionInv(Act(s, Receive(n)))
  {
    ArrivedMore(s.host, s.guest.received, s.guest.received + n);
  }

  lemma ArrivedMore(s: State, a: nat, b: nat)
    requires a <= b <= |s.hist.wire|
    ensures |Split(VM_WIDTH, s.hist.wire[..a]).0| <= |Split(VM_WIDTH, s.hist.wire[..b]).0|
  {
    assert s.hist.wire[..b] == s.hist.wire[..a] + s.hist.wire[a..b];
    SplitMonotone(VM_WIDTH, s.hist.wire[..a], s.hist.wire[a..b]);
  }

  lemma CreditKeeps(s: Session, n: nat)
    requires SessionInv(s) && Enabled(s, Credit(n))
    ensures SessionInv(Act(s, Credit(n)))
  {
    var t := Act(s, Credit(n));
    AppendInbound(s.inbound, Next(ToBE(n, 4)));
    CreditItem(n);
    assert RepliesIn(t.inbound) == RepliesIn(s.inbound) + [] == RepliesIn(s.inbound);
    ArrivedSame(s, t);
  }

  lemma CreditItem(n: nat)
    requires n < 0x1_0000_0000
    ensures CreditsIn([Next(ToBE(n, 4))]) == n && RepliesIn([Next(ToBE(n, 4))]) == []
  {
    StoreLoad(n, 4);
    Pow256Values();
    assert ToBE(n, 4)[..4] == ToBE(n, 4);
  }

  lemma AnswerKeeps(s: Session, r: Reply)
    requires SessionInv(s) && Enabled(s, Answer(r))
    ensures SessionInv(Act(s, Answer(r)))
  {
    var item := ReplyItem(r);
    AppendInbound(s.inbound, item);
    assert CreditsIn([item]) == 0;
    assert RepliesIn([item]) == [r];
    assert s.host.looping ==>
      Given(s.host.hist) + (RepliesIn(s.inbound) + [r]) == Given(s.host.hist) + RepliesIn(s.inbound) + [r];
  }

  lemma ActKeepsInv(s: Session, a: Action)
    requires SessionInv(s) && Enabled(s, a)
    ensures SessionInv(Act(s, a))
  {
    match a
    case Call(item, wrote) => CallKeeps(s, item, wrote);
    case Deliver(wrote) =>
      if s.host.looping {
        if s.inbound[0].Next? {
          DeliverNextKeeps(s, wrote);
        } else {
          DeliverReplyKeeps(s, wrote);
        }
      }
    case Receive(n) => ReceiveKeeps(s, n);
    case Credit(n) => CreditKeeps(s, n);
    case Answer(r) => AnswerKeeps(s, r);
  }

  lemma {:induction false} ReachKeepsInv(paused: bool, acts: seq<Action>, t: Session)
    requires After(Start(paused), acts) == Some(t)
    ensures SessionInv(t)
    decreases |acts|
  {
    if acts != [] {
      var u := After(Start(paused), acts[..|acts| - 1]).value;
      ReachKeepsInv(paused, acts[..|acts| - 1], u);
      ActKeepsInv(u, acts[|acts| - 1]);
    } else {
      assert Split(VM_WIDTH, []) == ([], []);
    }
  }

  // ---------- whole sessions ----------

  /** The k-th answer of the guest is the result of the k-th accepted command, for every interleaving. */
  lemma AnswersMatchCommands(paused: bool, acts: seq<Action>, t: Session, k: nat)
    requires After(Start(paused), acts) == Some(t) && k < |t.host.hist.replies|
    ensures k < |t.host.hist.accepted| && k < |t.guest.answers| && k < |Arrived(t)|
    ensures t.host.hist.replies[k] == (t.host.hist.accepted[k].id, t.guest.answers[k])
    ensures Arrived(t)[k] == t.host.hist.accepted[k].msg
  {
    ReachKeepsInv(paused, acts, t);
    ArrivedPrefix(t);
    var h := t.host.hist;
    assert CmdIds(h.accepted)[k] == ReplyIds(h.replies)[k];
    assert Given(h)[k] == t.guest.answers[k];
    assert Messages(h.accepted)[k] == Arrived(t)[k];
  }

  /** The window: never more than 512 bytes uncredited, and never a negative amount. */
  lemma WindowHolds(paused: bool, acts: seq<Action>, t: Session)
    requires After(Start(paused), acts) == Some(t) && t.host.looping
    ensures 0 <= |t.host.hist.wire| - t.host.hist.credit <= 512
    ensures t.host.got <= t.host.index
  {
    ReachKeepsInv(paused, acts, t);
  }

  /** With such a guest the sender never meets a NEXT without a body. */
  lemma NeverPanics(paused: bool, acts: seq<Action>, t: Session)
    requires After(Start(paused), acts) == Some(t)
    ensures !t.host.panicked
  {
    ReachKeepsInv(paused, acts, t);
  }

  /** With no command queued there is nothing left to write: every accepted command is with the guest. */
  lemma DrainedMeansSent(paused: bool, acts: seq<Action>, t: Session)
    requires After(Start(paused), acts) == Some(t) && t.host.cmds == []
    ensures t.host.index <= |t.host.data| && t.host.data[t.host.index..] == [] && t.guest.received == |t.host.hist.wire|
    ensures Arrived(t) == Messages(t.host.hist.accepted)
  {
    ReachKeepsInv(paused, acts, t);
    ArrivedPrefix(t);
    assert |t.host.hist.accepted| == |t.host.hist.replies|;
  }

  /** From an answered pause until an unpause nothing is accepted, written, received or left to write. */
  lemma {:induction false} PausedIsQuiet(paused: bool, before: seq<Action>, s: Session, acts: seq<Action>, t: Session)
    requires After(Start(paused), before) == Some(s) && s.host.paused && s.host.pausing.None?
    requires After(s, acts) == Some(t)
    requires forall i :: 0 <= i < |acts| && acts[i].Call? ==> !acts[i].item.Unpause?
    ensures t.host.paused && t.host.pausing.None? && t.host.cmds == []
    ensures t.host.hist.accepted == s.host.hist.accepted && t.host.hist.wire == s.host.hist.wire
    ensures t.host.index <= |t.host.data| && t.host.data[t.host.index..] == [] && t.guest.answers == s.guest.answers
  {
    ReachKeepsInv(paused, before, s);
    QuietRun(s, acts, t);
    QuietNow(t);
  }

  lemma QuietNow(s: Session)
    requires SessionInv(s) && s.host.cmds == []
    ensures s.host.index <= |s.host.data| && s.host.data[s.host.index..] == []
    ensures |Arrived(s)| == |s.host.hist.replies| == |s.guest.answers|
  {
    ArrivedPrefix(s);
    assert |s.host.hist.accepted| == |s.host.hist.replies|;
  }

  lemma {:induction false} QuietRun(s: Session, acts: seq<Action>, t: Session)
    requires SessionInv(s) && s.host.paused && s.host.pausing.None?
    requires After(s, acts) == Some(t)
    requires forall i :: 0 <= i < |acts| && acts[i].Call? ==> !acts[i].item.Unpause?
    ensures SessionInv(t) && t.host.paused && t.host.pausing.None? && t.host.cmds == []
    ensures t.host.hist.accepted == s.host.hist.accepted && t.host.hist.wire == s.host.hist.wire
    ensures t.guest.answers == s.guest.answers
    decreases |acts|
  {
    if acts != [] {
      var a := acts[|acts| - 1];
      var u := After(s, acts[..|acts| - 1]).value;
      QuietRun(s, acts[..|acts| - 1], u);
      ActKeepsInv(u, a);
      QuietStep(u, a);
    }
  }

  lemma QuietStep(u: Session, a: Action)
    requires SessionInv(u) && Enabled(u, a) && u.host.paused && u.host.pausing.None?
    requires a.Call? ==> !a.item.Unpause?
    ensures var t := Act(u, a);
      && t.host.paused && t.host.pausing.None? && t.host.cmds == []
      && t.host.hist.accepted == u.host.hist.accepted && t.host.hist.wire == u.host.hist.wire
      && t.guest.answers == u.guest.answers
  {
    QuietNow(u);
    var t := Act(u, a);
    ActKeepsInv(u, a);
    if a.Call? && u.host.looping {
      QuietHost(u.host, a.item, a.wrote);
    } else if a.Deliver? && u.host.looping {
      QuietHost(u.host, u.inbound[0], a.wrote);
    }
  }

  lemma QuietHost(s: State, item: Item, wrote: nat)
    requires Inv(s) && s.paused && s.pausing.None? && s.data[s.index..] == []
    requires !item.Unpause?
    ensures var t := Step(s, item, wrote);
      && t.paused && t.pausing.None? && t.cmds == []
      && t.hist.accepted == s.hist.accepted && t.hist.wire == s.hist.wire
  {
    StepKeepsInv(s, item, wrote);
    var all := EncodeAll(VM_WIDTH, Messages(s.hist.accepted));
    assert s.hist.wire == all;
    StepOnlyWrites(s, item, wrote);
  }
}
