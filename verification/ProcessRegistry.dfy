/**
 The agent's registry of processes and output streams. A process is removed, and its exit
 status put on its wait channel, once three things have happened in any order: it exited, its
 output was closed, and somebody waits for it. Every step is one region of the agent's lock.
 */
module ProcessRegistry {
  import opened Bytes

  const CLOSED_STATUS := 255
  const INIT_PROCESS := "init"

  datatype Key = Key(container: string, process: string)

  /** A pState. `chan` is the wait channel's content, None while there is no channel. */
  datatype Proc = Proc(
    stdio: nat, stderr: nat, exit: Option<int>, outClosed: bool, chan: Option<seq<int>>,
    waiting: nat,         // callers blocked on the channel
    holding: seq<int>,    // values taken from the channel and not yet put back
    sent: seq<int>,       // every value handleWaitProcess has put on the channel
    returned: seq<int>)   // every value WaitProcess has returned

  /**
   `all` are the processes ever registered; `procs` and `outs` refer to them by position.
   `given` are the stream numbers ever allocated, with the process each was allocated to.
   */
  datatype State = State(
    closed: bool, last: nat, procs: map<Key, nat>, outs: map<nat, nat>, created: set<string>,
    all: seq<Proc>, given: map<nat, nat>, panicked: bool)

  datatype Step =
    | Create(container: string, terminal: bool)
    | StartContainer(container: string)
    | Exec(key: Key, terminal: bool)
    | Remove(key: Key)                        // a command that failed takes its process back
    | Exited(key: Key, status: int)
    | Exited4242(stdio: nat, code: int)
    | Eof(stream: nat)
    | Wait(key: Key)
    | Receive(p: nat)
    | PutBack(p: nat)
    | Close

  function Init(last: nat): State {
    State(false, last, map[], map[], {}, [], map[], false)
  }

  // ---------- one step ----------

  /** A process whose status can be handed over. */
  predicate Complete(p: Proc) {
    p.exit.Some? && p.chan.Some? && p.outClosed
  }

  function Hand(p: Proc): Proc
    requires Complete(p)
  {
    p.(chan := Some(p.chan.value + [p.exit.value]), sent := p.sent + [p.exit.value])
  }

  function Settle(p: Proc): Proc {
    if Complete(p) then Hand(p) else p
  }

  /** The registered process of `k` becomes `p`, and is handed over if it is complete. */
  function Update(s: State, k: Key, p: Proc): State
    requires k in s.procs && s.procs[k] < |s.all|
  {
    s.(all := s.all[s.procs[k] := Settle(p)], procs := if Complete(p) then s.procs - {k} else s.procs)
  }

  predicate WellFormed(s: State) {
    forall k :: k in s.procs ==> s.procs[k] < |s.all|
  }

  function Lookup(s: State, k: Key): Proc
    requires WellFormed(s) && k in s.procs
  {
    s.all[s.procs[k]]
  }

  function Register(s: State, k: Key, terminal: bool): State {
    var stdio := s.last;
    var stderr := if terminal then 0 else s.last + 1;
    var i := |s.all|;
    var outs := s.outs[stdio := i];
    s.(last := if terminal then s.last + 1 else s.last + 2,
       procs := s.procs[k := i],
       outs := if terminal then outs else outs[stderr := i],
       given := if terminal then s.given[stdio := i] else s.given[stdio := i][stderr := i],
       all := s.all + [Proc(stdio, stderr, None, false, None, 0, [], [], [])])
  }

  function Removed(s: State, k: Key): State
    requires WellFormed(s)
  {
    if k !in s.procs then s
    else
      var p := Lookup(s, k);
      var gone := (if p.stdio > 0 then {p.stdio} else {}) + (if p.stderr > 0 then {p.stderr} else {});
      s.(procs := s.procs - {k}, outs := s.outs - gone)
  }

  /** The key under which a process with this stdio stream is registered. */
  ghost predicate HasStdio(s: State, seqNo: nat, k: Key)
    requires WellFormed(s)
  {
    k in s.procs && Lookup(s, k).stdio == seqNo
  }

  ghost function Exit4242(s: State, stdio: nat, code: int): State
    requires WellFormed(s)
  {
    if k :| HasStdio(s, stdio, k) then Update(s, k, Lookup(s, k).(exit := Some(code))) else s
  }

  ghost function CloseOut(s: State, stdio: nat): State
    requires WellFormed(s)
  {
    if k :| HasStdio(s, stdio, k) then Update(s, k, Lookup(s, k).(outClosed := true)) else s
  }

  /** removeStreamOut; closing the stderr stream of a process that no longer has one is a nil call. */
  ghost function OnEof(s: State, stream: nat): State
    requires WellFormed(s)
  {
    if stream !in s.outs || s.outs[stream] >= |s.all| then s
    else
      var p := s.all[s.outs[stream]];
      var s1 := s.(outs := s.outs - {stream});
      if stream != p.stdio then s1
      else if p.stderr > 0 && p.stderr !in s1.outs then s1.(panicked := true)
      else CloseOut(if p.stderr > 0 then s1.(outs := s1.outs - {p.stderr}) else s1, stream)
  }

  function OnWait(s: State, k: Key): State
    requires WellFormed(s)
  {
    if k !in s.procs then s
    else
      var p := Lookup(s, k);
      if p.chan.None? then Update(s, k, p.(chan := Some([]), waiting := p.waiting + 1))
      else s.(all := s.all[s.procs[k] := p.(waiting := p.waiting + 1)])
  }

  function Shut(p: Proc): Proc {
    Settle(p.(outClosed := true, exit := Some(CLOSED_STATUS)))
  }

  function OnClose(s: State): State {
    if s.closed then s
    else s.(closed := true, outs := map[], procs := map[],
            all := seq(|s.all|, i requires 0 <= i < |s.all| => if i in s.procs.Values then Shut(s.all[i]) else s.all[i]))
  }

  predicate CanReceive(s: State, i: nat) {
    i < |s.all| && s.all[i].waiting > 0 && s.all[i].chan.Some? && s.all[i].chan.value != []
  }

  /** The wait channel has room for one value. */
  predicate CanPutBack(s: State, i: nat) {
    i < |s.all| && s.all[i].holding != [] && s.all[i].chan == Some([])
  }

  function OnReceive(s: State, i: nat): State
    requires CanReceive(s, i)
  {
    var p := s.all[i];
    s.(all := s.all[i := p.(waiting := p.waiting - 1, chan := Some(p.chan.value[1..]),
                            holding := p.holding + [p.chan.value[0]])])
  }

  function OnPutBack(s: State, i: nat): State
    requires CanPutBack(s, i)
  {
    var p := s.all[i];
    var v := p.holding[0];
    s.(all := s.all[i := p.(holding := p.holding[1..], chan := Some([v]), returned := p.returned + [v])])
  }

  ghost function Next(s: State, step: Step): State
    requires WellFormed(s)
  {
    if s.panicked then s
    else match step
      case Create(c, terminal) =>
        var k := Key(c, INIT_PROCESS);
        if c in s.created || k in s.procs then s
        else Register(s, k, terminal).(created := s.created + {c})
      case StartContainer(c) => s.(created := s.created - {c})
      case Exec(k, terminal) => if k in s.procs then s else Register(s, k, terminal)
      case Remove(k) => Removed(s, k)
      case Exited(k, status) => if k in s.procs then Update(s, k, Lookup(s, k).(exit := Some(status))) else s
      case Exited4242(stdio, code) => Exit4242(s, stdio, code)
      case Eof(stream) => OnEof(s, stream)
      case Wait(k) => OnWait(s, k)
      case Receive(i) => if CanReceive(s, i) then OnReceive(s, i) else s
      case PutBack(i) => if CanPutBack(s, i) then OnPutBack(s, i) else s
      case Close => OnClose(s)
  }

  // ---------- what every step keeps ----------

  predicate Registered(s: State, i: nat) {
    i in s.procs.Values
  }

  /** A registered process: not yet handed over, its stdio stream present exactly until it is closed. */
  predicate LiveInv(s: State, p: Proc) {
    && !Complete(p) && p.sent == [] && p.holding == [] && p.returned == []
    && (p.chan.Some? ==> p.chan.value == []) && (p.waiting > 0 ==> p.chan.Some?)
    && (p.outClosed <==> p.stdio !in s.outs)
    && (p.outClosed ==> p.stderr !in s.outs)
  }

  /** A process that left: taken back without a status, or handed over once, after exit and output close. */
  predicate GoneInv(p: Proc) {
    && (p.chan.None? ==> p.sent == [] && p.holding == [])
    && (p.chan.Some? ==> p.chan.value + p.holding == p.sent)
    && |p.sent| <= 1
    && (Complete(p) ==> p.sent != [])
    && (p.sent != [] ==> p.outClosed && p.exit == Some(p.sent[0]))
    && (forall j :: 0 <= j < |p.returned| ==> p.sent != [] && p.returned[j] == p.sent[0])
  }

  /** The stream numbers of process `i` were given to it and to nobody else. */
  predicate SeqInv(s: State, i: nat)
    requires i < |s.all|
  {
    var p := s.all[i];
    && p.stdio in s.given && s.given[p.stdio] == i && p.stderr != p.stdio
    && (p.stderr != 0 ==> p.stderr in s.given && s.given[p.stderr] == i)
  }

  /** An output stream belongs to a registered process, as its stdio or its stderr. */
  predicate OutInv(s: State, stream: nat)
    requires stream in s.outs
  {
    var i := s.outs[stream];
    && stream in s.given && s.given[stream] == i && i < |s.all| && Registered(s, i)
    && (stream == s.all[i].stdio || stream == s.all[i].stderr)
  }

  predicate KeysInv(s: State) {
    && WellFormed(s)
    && (forall k1, k2 :: k1 in s.procs && k2 in s.procs && s.procs[k1] == s.procs[k2] ==> k1 == k2)
  }

  predicate SeqsInv(s: State) {
    && s.last >= 1
    && (forall q :: q in s.given ==> 1 <= q < s.last && s.given[q] < |s.all|)
    && (forall i :: 0 <= i < |s.all| ==> SeqInv(s, i))
  }

  predicate OutsInv(s: State) {
    forall stream :: stream in s.outs ==> OutInv(s, stream)
  }

  predicate ProcInv(s: State, i: nat)
    requires i < |s.all|
  {
    if Registered(s, i) then LiveInv(s, s.all[i]) else GoneInv(s.all[i])
  }

  predicate ProcsInv(s: State) {
    forall i :: 0 <= i < |s.all| ==> ProcInv(s, i)
  }

  predicate Inv(s: State) {
    KeysInv(s) && SeqsInv(s) && OutsInv(s) && ProcsInv(s)
  }

  lemma RegisterRegistered(s: State, k: Key, terminal: bool, i: nat)
    requires Inv(s) && k !in s.procs && i <= |s.all|
    ensures Registered(Register(s, k, terminal), i) <==> Registered(s, i) || i == |s.all|
  {
    var t := Register(s, k, terminal);
    assert t.procs[k] == |s.all|;
    if Registered(s, i) {
      var k' :| k' in s.procs && s.procs[k'] == i;
      assert t.procs[k'] == i;
    }
  }

  lemma RegisterKeepsOut(s: State, k: Key, terminal: bool, stream: nat)
    requires Inv(s) && k !in s.procs && stream in Register(s, k, terminal).outs
    ensures OutInv(Register(s, k, terminal), stream)
  {
    if stream in s.outs {
      assert OutInv(s, stream);
      RegisterRegistered(s, k, terminal, s.outs[stream]);
    }
    RegisterRegistered(s, k, terminal, |s.all|);
  }

  lemma RegisterKeepsProc(s: State, k: Key, terminal: bool, i: nat)
    requires Inv(s) && k !in s.procs && i <= |s.all|
    ensures SeqInv(Register(s, k, terminal), i) && ProcInv(Register(s, k, terminal), i)
  {
    RegisterRegistered(s, k, terminal, i);
    if i < |s.all| {
      assert SeqInv(s, i) && ProcInv(s, i);
    }
  }

  lemma RegisterKeeps(s: State, k: Key, terminal: bool)
    requires Inv(s) && k !in s.procs
    ensures Inv(Register(s, k, terminal))
  {
    var t := Register(s, k, terminal);
    forall stream | stream in t.outs
      ensures OutInv(t, stream)
    {
      RegisterKeepsOut(s, k, terminal, stream);
    }
    forall i | 0 <= i < |t.all|
      ensures SeqInv(t, i) && ProcInv(t, i)
    {
      RegisterKeepsProc(s, k, terminal, i);
    }
  }

  /** After an update the same processes are registered, except one that was handed over. */
  lemma UpdateRegistered(s: State, k: Key, p: Proc, i: nat)
    requires KeysInv(s) && k in s.procs
    ensures Registered(Update(s, k, p), i) <==> Registered(s, i) && (Complete(p) ==> i != s.procs[k])
  {
    var t := Update(s, k, p);
    if Registered(s, i) && (Complete(p) ==> i != s.procs[k]) {
      var k' :| k' in s.procs && s.procs[k'] == i;
      assert k' in t.procs && t.procs[k'] == i;
    }
    if Registered(t, i) {
      var k' :| k' in t.procs && t.procs[k'] == i;
      assert s.procs[k'] == i;
    }
  }

  /** `p` can stand for the process of `k` once the streams `gone` of it are taken away. */
  predicate Agrees(s: State, k: Key, p: Proc, gone: set<nat>)
    requires WellFormed(s) && k in s.procs
  {
    && p.stdio == Lookup(s, k).stdio && p.stderr == Lookup(s, k).stderr && gone <= {p.stdio, p.stderr}
    && p.sent == [] && p.holding == [] && p.returned == []
    && (p.chan.Some? ==> p.chan.value == []) && (p.waiting > 0 ==> p.chan.Some?)
    && (p.outClosed <==> p.stdio !in s.outs - gone)
    && (p.outClosed ==> p.stderr !in s.outs - gone)
  }

  function Change(s: State, k: Key, p: Proc, gone: set<nat>): State
    requires WellFormed(s) && k in s.procs
  {
    Update(s.(outs := s.outs - gone), k, p)
  }

  lemma ChangeKeepsSeqs(s: State, k: Key, p: Proc, gone: set<nat>)
    requires Inv(s) && k in s.procs && Agrees(s, k, p, gone)
    ensures KeysInv(Change(s, k, p, gone)) && SeqsInv(Change(s, k, p, gone))
  {
    var t := Change(s, k, p, gone);
    forall i | 0 <= i < |t.all|
      ensures SeqInv(t, i)
    {
      assert SeqInv(s, i);
    }
  }

  lemma ChangeKeepsOut(s: State, k: Key, p: Proc, gone: set<nat>, stream: nat)
    requires Inv(s) && k in s.procs && Agrees(s, k, p, gone) && stream in s.outs - gone
    ensures OutInv(Change(s, k, p, gone), stream)
  {
    assert OutInv(s, stream);
    UpdateRegistered(s.(outs := s.outs - gone), k, p, s.outs[stream]);
  }

  /** The process that changes: still registered, or handed over. */
  lemma ChangeKeepsOwn(s: State, k: Key, p: Proc, gone: set<nat>)
    requires Inv(s) && k in s.procs && Agrees(s, k, p, gone)
    ensures ProcInv(Change(s, k, p, gone), s.procs[k])
  {
    var t := Change(s, k, p, gone);
    UpdateRegistered(s.(outs := s.outs - gone), k, p, s.procs[k]);
    assert Registered(t, s.procs[k]) <==> !Complete(p);
    if Complete(p) {
      HandedOver(p);
    } else {
      assert LiveInv(t, p);
    }
  }

  lemma HandedOver(p: Proc)
    requires Complete(p) && p.sent == [] && p.holding == [] && p.returned == [] && p.chan.value == []
    ensures GoneInv(Hand(p))
  {
  }

  /** The other processes: their streams are not among those taken away. */
  lemma ChangeKeepsOther(s: State, k: Key, p: Proc, gone: set<nat>, i: nat)
    requires Inv(s) && k in s.procs && Agrees(s, k, p, gone) && i < |s.all| && i != s.procs[k]
    ensures ProcInv(Change(s, k, p, gone), i)
  {
    UpdateRegistered(s.(outs := s.outs - gone), k, p, i);
    assert SeqInv(s, s.procs[k]) && SeqInv(s, i) && ProcInv(s, i);
    assert s.all[i].stdio !in gone;
  }

  lemma ChangeKeepsProc(s: State, k: Key, p: Proc, gone: set<nat>, i: nat)
    requires Inv(s) && k in s.procs && Agrees(s, k, p, gone) && i < |s.all|
    ensures ProcInv(Change(s, k, p, gone), i)
  {
    if i == s.procs[k] {
      ChangeKeepsOwn(s, k, p, gone);
    } else {
      ChangeKeepsOther(s, k, p, gone, i);
    }
  }

  /**
   The general change: streams of the process of `k` are taken away and it becomes `p`, which
   agrees with what is left of its streams.
   */
  lemma ChangeKeeps(s: State, k: Key, p: Proc, gone: set<nat>)
    requires Inv(s) && k in s.procs && Agrees(s, k, p, gone)
    ensures Inv(Change(s, k, p, gone))
  {
    var t := Change(s, k, p, gone);
    ChangeKeepsSeqs(s, k, p, gone);
    forall stream | stream in t.outs
      ensures OutInv(t, stream)
    {
      ChangeKeepsOut(s, k, p, gone, stream);
    }
    forall i | 0 <= i < |t.all|
      ensures ProcInv(t, i)
    {
      ChangeKeepsProc(s, k, p, gone, i);
    }
  }

  lemma LiveHere(s: State, k: Key)
    requires Inv(s) && k in s.procs
    ensures LiveInv(s, Lookup(s, k)) && SeqInv(s, s.procs[k])
  {
    assert Registered(s, s.procs[k]) && ProcInv(s, s.procs[k]);
  }

  lemma ExitKeeps(s: State, k: Key, status: int)
    requires Inv(s) && k in s.procs
    ensures Inv(Update(s, k, Lookup(s, k).(exit := Some(status))))
  {
    LiveHere(s, k);
    assert s.outs - {} == s.outs;
    ChangeKeeps(s, k, Lookup(s, k).(exit := Some(status)), {});
  }

  lemma OneKey(s: State, k1: Key, k2: Key)
    requires Inv(s) && k1 in s.procs && k2 in s.procs && Lookup(s, k1).stdio == Lookup(s, k2).stdio
    ensures k1 == k2
  {
    assert SeqInv(s, s.procs[k1]) && SeqInv(s, s.procs[k2]);
  }

  lemma Exit4242Is(s: State, stdio: nat, code: int, k: Key)
    requires Inv(s) && HasStdio(s, stdio, k)
    ensures Exit4242(s, stdio, code) == Update(s, k, Lookup(s, k).(exit := Some(code)))
  {
    forall k' | HasStdio(s, stdio, k')
      ensures k' == k
    {
      OneKey(s, k, k');
    }
  }

  lemma Exit4242Keeps(s: State, stdio: nat, code: int)
    requires Inv(s)
    ensures Inv(Exit4242(s, stdio, code))
  {
    if k :| HasStdio(s, stdio, k) {
      Exit4242Is(s, stdio, code, k);
      ExitKeeps(s, k, code);
    }
  }

  /** The streams a process loses when its stdio ends. */
  function Streams(p: Proc): set<nat> {
    if p.stderr > 0 then {p.stdio, p.stderr} else {p.stdio}
  }

  lemma CloseOutIs(s: State, outs: map<nat, nat>, k: Key)
    requires Inv(s) && k in s.procs
    ensures CloseOut(s.(outs := outs), Lookup(s, k).stdio)
         == Update(s.(outs := outs), k, Lookup(s, k).(outClosed := true))
  {
    var s1 := s.(outs := outs);
    var stdio := Lookup(s, k).stdio;
    assert HasStdio(s1, stdio, k);
    forall k' | HasStdio(s1, stdio, k')
      ensures k' == k
    {
      OneKey(s, k, k');
    }
  }

  /** What the end of a registered process's stdio does. */
  lemma StdioEofIs(s: State, k: Key)
    requires Inv(s) && k in s.procs && !Lookup(s, k).outClosed
    ensures var p := Lookup(s, k);
      && p.stdio in s.outs && s.outs[p.stdio] == s.procs[k]
      && OnEof(s, p.stdio) ==
         if p.stderr > 0 && p.stderr !in s.outs then s.(outs := s.outs - {p.stdio}, panicked := true)
         else Change(s, k, p.(outClosed := true), Streams(p))
  {
    LiveHere(s, k);
    var p := Lookup(s, k);
    assert OutInv(s, p.stdio);
    var s1 := s.(outs := s.outs - {p.stdio});
    assert p.stderr > 0 ==> s1.outs - {p.stderr} == s.outs - Streams(p);
    CloseOutIs(s, s.outs - Streams(p), k);
  }

  lemma EofKeeps(s: State, stream: nat)
    requires Inv(s) && !OnEof(s, stream).panicked
    ensures Inv(OnEof(s, stream))
  {
    if stream in s.outs {
      assert OutInv(s, stream);
      var k :| k in s.procs && s.procs[k] == s.outs[stream];
      if stream == Lookup(s, k).stdio {
        StdioEofKeeps(s, k);
      } else {
        StderrEofKeeps(s, k, stream);
      }
    }
  }

  lemma StdioEofKeeps(s: State, k: Key)
    requires Inv(s) && k in s.procs && Lookup(s, k).stdio in s.outs && s.outs[Lookup(s, k).stdio] == s.procs[k]
    requires !OnEof(s, Lookup(s, k).stdio).panicked
    ensures Inv(OnEof(s, Lookup(s, k).stdio))
  {
    var p := Lookup(s, k);
    LiveHere(s, k);
    StdioEofIs(s, k);
    ChangeKeeps(s, k, p.(outClosed := true), Streams(p));
  }

  lemma StderrEofKeeps(s: State, k: Key, stream: nat)
    requires Inv(s) && k in s.procs && stream in s.outs && s.outs[stream] == s.procs[k] && stream != Lookup(s, k).stdio
    ensures Inv(OnEof(s, stream))
  {
    var p := Lookup(s, k);
    assert OutInv(s, stream);
    LiveHere(s, k);
    ChangeKeeps(s, k, p, {stream});
    assert s.all[s.procs[k] := p] == s.all;
  }

  /** A process somebody more waits for. */
  function Awaited(p: Proc): Proc {
    p.(chan := if p.chan.None? then Some([]) else p.chan, waiting := p.waiting + 1)
  }

  lemma WaitIs(s: State, k: Key)
    requires WellFormed(s) && k in s.procs && LiveInv(s, Lookup(s, k))
    ensures OnWait(s, k) == Change(s, k, Awaited(Lookup(s, k)), {})
  {
    assert s.outs - {} == s.outs;
  }

  lemma WaitKeeps(s: State, k: Key)
    requires Inv(s)
    ensures Inv(OnWait(s, k))
  {
    if k in s.procs {
      LiveHere(s, k);
      WaitIs(s, k);
      assert s.outs - {} == s.outs;
      ChangeKeeps(s, k, Awaited(Lookup(s, k)), {});
    }
  }

  lemma RemovedRegistered(s: State, k: Key, i: nat)
    requires KeysInv(s) && k in s.procs
    ensures Registered(Removed(s, k), i) <==> Registered(s, i) && i != s.procs[k]
  {
    var t := Removed(s, k);
    if Registered(s, i) && i != s.procs[k] {
      var k' :| k' in s.procs && s.procs[k'] == i;
      assert k' in t.procs && t.procs[k'] == i;
    }
    if Registered(t, i) {
      var k' :| k' in t.procs && t.procs[k'] == i;
      assert s.procs[k'] == i;
    }
  }

  lemma RemoveKeeps(s: State, k: Key)
    requires Inv(s)
    ensures Inv(Removed(s, k))
  {
    if k in s.procs {
      var t := Removed(s, k);
      LiveHere(s, k);
      forall i | 0 <= i < |t.all|
        ensures SeqInv(t, i)
      {
        assert SeqInv(s, i);
      }
      forall stream | stream in t.outs
        ensures OutInv(t, stream)
      {
        assert OutInv(s, stream);
        RemovedRegistered(s, k, s.outs[stream]);
      }
      forall i | 0 <= i < |t.all|
        ensures ProcInv(t, i)
      {
        assert SeqInv(s, i) && ProcInv(s, i);
        RemovedRegistered(s, k, i);
      }
    }
  }

  /** Steps of waiters: only the wait bookkeeping of one process that has left changes. */
  lemma TokenKeeps(s: State, i: nat, p: Proc)
    requires Inv(s) && i < |s.all| && !Registered(s, i) && GoneInv(p)
    requires p.stdio == s.all[i].stdio && p.stderr == s.all[i].stderr
    ensures Inv(s.(all := s.all[i := p]))
  {
    var t := s.(all := s.all[i := p]);
    forall j | 0 <= j < |t.all|
      ensures SeqInv(t, j) && ProcInv(t, j)
    {
      assert SeqInv(s, j) && ProcInv(s, j);
    }
    forall stream | stream in t.outs
      ensures OutInv(t, stream)
    {
      assert OutInv(s, stream);
    }
  }

  lemma ReceiveKeeps(s: State, i: nat)
    requires Inv(s) && CanReceive(s, i)
    ensures Inv(OnReceive(s, i))
  {
    var p := s.all[i];
    assert ProcInv(s, i);
    assert p.chan.value[1..] + (p.holding + [p.chan.value[0]]) == p.sent;
    TokenKeeps(s, i, OnReceive(s, i).all[i]);
  }

  lemma PutBackGone(p: Proc)
    requires GoneInv(p) && p.chan == Some([]) && p.holding != []
    ensures GoneInv(p.(holding := p.holding[1..], chan := Some([p.holding[0]]), returned := p.returned + [p.holding[0]]))
  {
    assert [] + p.holding == p.holding == [p.holding[0]] + p.holding[1..];
  }

  lemma PutBackKeeps(s: State, i: nat)
    requires Inv(s) && CanPutBack(s, i)
    ensures Inv(OnPutBack(s, i))
  {
    assert ProcInv(s, i);
    PutBackGone(s.all[i]);
    TokenKeeps(s, i, OnPutBack(s, i).all[i]);
  }

  lemma CloseKeeps(s: State)
    requires Inv(s)
    ensures Inv(OnClose(s))
  {
    if !s.closed {
      var t := OnClose(s);
      forall i | 0 <= i < |t.all|
        ensures SeqInv(t, i) && ProcInv(t, i)
      {
        assert SeqInv(s, i) && ProcInv(s, i);
      }
    }
  }

  lemma CreatedIrrelevant(s: State, created: set<string>)
    requires Inv(s)
    ensures Inv(s.(created := created))
  {
    var t := s.(created := created);
    forall i | 0 <= i < |s.all|
      ensures SeqInv(t, i) && ProcInv(t, i)
    {
      assert SeqInv(s, i) && ProcInv(s, i);
    }
    forall stream | stream in t.outs
      ensures OutInv(t, stream)
    {
      assert OutInv(s, stream);
    }
  }

  /** Every step of the agent that does not panic keeps the registry right. */
  lemma NextKeepsInv(s: State, step: Step)
    requires Inv(s) && !Next(s, step).panicked
    ensures Inv(Next(s, step))
  {
    match step
    case Create(c, terminal) =>
      if c !in s.created && Key(c, INIT_PROCESS) !in s.procs {
        RegisterKeeps(s, Key(c, INIT_PROCESS), terminal);
        CreatedIrrelevant(Register(s, Key(c, INIT_PROCESS), terminal), s.created + {c});
      }
    case StartContainer(c) => CreatedIrrelevant(s, s.created - {c});
    case Exec(k, terminal) => if k !in s.procs { RegisterKeeps(s, k, terminal); }
    case Remove(k) => RemoveKeeps(s, k);
    case Exited(k, status) => if k in s.procs { ExitKeeps(s, k, status); }
    case Exited4242(stdio, code) => Exit4242Keeps(s, stdio, code);
    case Eof(stream) => EofKeeps(s, stream);
    case Wait(k) => WaitKeeps(s, k);
    case Receive(i) => if CanReceive(s, i) { ReceiveKeeps(s, i); }
    case PutBack(i) => if CanPutBack(s, i) { PutBackKeeps(s, i); }
    case Close => CloseKeeps(s);
  }

  // ---------- whole runs ----------

  ghost function Run(last: nat, steps: seq<Step>): (s: State)
    ensures WellFormed(s)
    decreases |steps|
  {
    if steps == [] then Init(last)
    else
      var s := Run(last, steps[..|steps| - 1]);
      NextWellFormed(s, steps[|steps| - 1]);
      Next(s, steps[|steps| - 1])
  }

  lemma NextWellFormed(s: State, step: Step)
    requires WellFormed(s)
    ensures WellFormed(Next(s, step))
  {
  }

  lemma {:induction false} RunKeepsInv(last: nat, steps: seq<Step>)
    requires last >= 1 && !Run(last, steps).panicked
    ensures Inv(Run(last, steps))
    decreases |steps|
  {
    if steps != [] {
      var front := steps[..|steps| - 1];
      RunKeepsInv(last, front);
      NextKeepsInv(Run(last, front), steps[|steps| - 1]);
    }
  }

  /**
   A process's status is put on its wait channel exactly once when its exit, the close of its
   output and a waiter are all there, and not before; it is the status recorded for it, the
   process is then no longer registered, and every waiter that has returned got that status.
   */
  lemma StatusDeliveredOnce(last: nat, steps: seq<Step>, i: nat)
    requires last >= 1 && !Run(last, steps).panicked && i < |Run(last, steps).all|
    ensures var p := Run(last, steps).all[i];
      && (Complete(p) <==> |p.sent| == 1)
      && (!Complete(p) <==> p.sent == [])
      && (Complete(p) ==> p.outClosed && p.exit == Some(p.sent[0]) && !Registered(Run(last, steps), i))
      && (forall j :: 0 <= j < |p.returned| ==> p.sent == [p.returned[j]])
  {
    RunKeepsInv(last, steps);
    assert ProcInv(Run(last, steps), i);
  }

  /** The delivered value is never lost: it is on the channel or in the hands of one waiter that will put it back. */
  lemma StatusConserved(last: nat, steps: seq<Step>, i: nat)
    requires last >= 1 && !Run(last, steps).panicked && i < |Run(last, steps).all|
    requires Run(last, steps).all[i].sent != []
    ensures var s := Run(last, steps);
      && s.all[i].chan.Some? && s.all[i].chan.value + s.all[i].holding == s.all[i].sent
      && (CanPutBack(s, i) || (s.all[i].waiting > 0 ==> CanReceive(s, i)))
  {
    RunKeepsInv(last, steps);
    var s := Run(last, steps);
    assert ProcInv(s, i);
    assert |s.all[i].chan.value| + |s.all[i].holding| == 1;
  }

  /** A registered process still misses one of exit, closed output and waiter, and its channel is empty. */
  lemma RegisteredIsIncomplete(last: nat, steps: seq<Step>, k: Key)
    requires last >= 1 && !Run(last, steps).panicked && k in Run(last, steps).procs
    ensures var s := Run(last, steps);
      var p := Lookup(s, k);
      && !(p.exit.Some? && p.chan.Some? && p.outClosed)
      && (p.outClosed <==> p.stdio !in s.outs)
      && (p.chan.Some? ==> p.chan.value == [])
  {
    RunKeepsInv(last, steps);
    LiveHere(Run(last, steps), k);
  }

  /** Every output stream belongs to a registered process, and stream numbers are non-zero and never given twice. */
  lemma StreamsOwned(last: nat, steps: seq<Step>, stream: nat)
    requires last >= 1 && !Run(last, steps).panicked && stream in Run(last, steps).outs
    ensures var s := Run(last, steps);
      && 1 <= stream < s.last
      && exists k :: k in s.procs && s.procs[k] == s.outs[stream] && stream in Streams(Lookup(s, k))
  {
    RunKeepsInv(last, steps);
    var s := Run(last, steps);
    assert OutInv(s, stream);
    var k :| k in s.procs && s.procs[k] == s.outs[stream];
    LiveHere(s, k);
    assert stream in Streams(Lookup(s, k));
  }

  lemma NumbersNeverReused(s: State, k: Key, terminal: bool)
    requires Inv(s) && k !in s.procs
    ensures forall q :: q in Streams(Register(s, k, terminal).all[|s.all|]) ==> q != 0 && q !in s.given
    ensures forall i, q :: 0 <= i < |s.all| && q in Streams(s.all[i]) ==> q !in Streams(Register(s, k, terminal).all[|s.all|])
  {
    forall i | 0 <= i < |s.all|
      ensures forall q :: q in Streams(s.all[i]) ==> q in s.given
    {
      assert SeqInv(s, i);
    }
  }

  /** Numbering from zero breaks the bookkeeping: a failed exec leaves its stream behind. */
  lemma ZeroLeaks()
    ensures var k := Key("c", "p");
      var s := Next(Next(Init(0), Exec(k, true)), Remove(k));
      s.procs == map[] && 0 in s.outs
  {
  }

  /** For numbering that starts at `last`, the bookkeeping holds after every run exactly when `last` is not zero. */
  lemma StartMatters(last: nat)
    ensures last >= 1 <==> forall steps :: !Run(last, steps).panicked ==> OutsInv(Run(last, steps))
  {
    if last >= 1 {
      forall steps | !Run(last, steps).panicked
        ensures OutsInv(Run(last, steps))
      {
        RunKeepsInv(last, steps);
      }
    } else {
      var k := Key("c", "p");
      var one, two := [Exec(k, true)], [Exec(k, true), Remove(k)];
      assert one[..0] == [] && two[..1] == one;
      assert Run(0, []) == Init(0);
      assert Run(0, one) == Next(Init(0), Exec(k, true));
      assert Run(0, two) == Next(Run(0, one), Remove(k));
      ZeroLeaks();
      assert 0 in Run(0, two).outs && !OutInv(Run(0, two), 0);
    }
  }

  // ---------- the panic ----------

  /** `stream` is the stdio, still open, of the process of `k`, whose stderr has already ended. */
  predicate StderrEnded(s: State, k: Key, stream: nat)
    requires WellFormed(s)
  {
    && k in s.procs && Lookup(s, k).stdio == stream && !Lookup(s, k).outClosed
    && Lookup(s, k).stderr > 0 && Lookup(s, k).stderr !in s.outs
  }

  /** A step panics exactly when the stdio of a process ends after its stderr has already ended. */
  lemma PanicsWhen(s: State, step: Step)
    requires Inv(s) && !s.panicked
    ensures Next(s, step).panicked <==> step.Eof? && exists k :: StderrEnded(s, k, step.stream)
  {
    if step.Eof? {
      if OnEof(s, step.stream).panicked {
        EofPanics(s, step.stream);
      }
      if k :| StderrEnded(s, k, step.stream) {
        StdioEofIs(s, k);
      }
    } else {
      OthersDoNotPanic(s, step);
    }
  }

  lemma OthersDoNotPanic(s: State, step: Step)
    requires WellFormed(s) && !s.panicked && !step.Eof?
    ensures !Next(s, step).panicked
  {
  }

  lemma EofPanics(s: State, stream: nat)
    requires Inv(s) && !s.panicked && OnEof(s, stream).panicked
    ensures exists k :: StderrEnded(s, k, stream)
  {
    assert OutInv(s, stream);
    var k :| k in s.procs && s.procs[k] == s.outs[stream];
    LiveHere(s, k);
    assert StderrEnded(s, k, stream);
  }

  /** The guest ending stderr before stdio is enough. */
  lemma StderrFirstPanics()
    ensures var s := Next(Init(1), Exec(Key("c", "p"), false));
      Next(Next(s, Eof(2)), Eof(1)).panicked
  {
    var k := Key("c", "p");
    var s := Next(Init(1), Exec(k, false));
    assert s.all[s.outs[2]].stdio == 1;
    var t := Next(s, Eof(2));
    assert t.outs == map[1 := 0];
  }

  // ---------- order does not matter ----------

  /** A process nothing has happened to yet, with its streams open. */
  predicate Untouched(s: State, k: Key)
    requires WellFormed(s)
  {
    && k in s.procs
    && var p := Lookup(s, k);
    && p.exit.None? && !p.outClosed && p.chan.None? && p.waiting == 0
    && (p.stderr > 0 ==> p.stderr in s.outs)
  }

  /** The process after some of the three events. */
  function Part(p: Proc, status: int, exited: bool, ended: bool, waited: bool): Proc {
    p.(exit := if exited then Some(status) else None, outClosed := ended,
       chan := if waited then Some([]) else None, waiting := if waited then 1 else 0)
  }

  /** The registry after some of the three events; with all three the process has left, its status on the channel. */
  function After(s: State, k: Key, status: int, exited: bool, ended: bool, waited: bool): State
    requires WellFormed(s) && k in s.procs
  {
    var p := Lookup(s, k);
    Change(s, k, Part(p, status, exited, ended, waited), if ended then Streams(p) else {})
  }

  lemma AfterKeeps(s: State, k: Key, status: int, exited: bool, ended: bool, waited: bool)
    requires Inv(s) && Untouched(s, k)
    ensures Inv(After(s, k, status, exited, ended, waited))
  {
    LiveHere(s, k);
    var p := Lookup(s, k);
    ChangeKeeps(s, k, Part(p, status, exited, ended, waited), if ended then Streams(p) else {});
  }

  lemma ThenExit(s: State, k: Key, status: int, ended: bool, waited: bool)
    requires Inv(s) && !s.panicked && Untouched(s, k)
    ensures Next(After(s, k, status, false, ended, waited), Exited(k, status)) == After(s, k, status, true, ended, waited)
  {
  }

  lemma ThenWait(s: State, k: Key, status: int, exited: bool, ended: bool)
    requires Inv(s) && !s.panicked && Untouched(s, k)
    ensures Next(After(s, k, status, exited, ended, false), Wait(k)) == After(s, k, status, exited, ended, true)
  {
  }

  lemma ThenEof(s: State, k: Key, status: int, exited: bool, waited: bool)
    requires Inv(s) && !s.panicked && Untouched(s, k)
    ensures Next(After(s, k, status, exited, false, waited), Eof(Lookup(s, k).stdio)) == After(s, k, status, exited, true, waited)
  {
    var t := After(s, k, status, exited, false, waited);
    AfterKeeps(s, k, status, exited, false, waited);
    EofAfter(s, k, status, exited, waited);
    StdioEofIs(t, k);
  }

  /** Before the end of output the process and all streams are still there. */
  lemma EofAfter(s: State, k: Key, status: int, exited: bool, waited: bool)
    requires Inv(s) && Untouched(s, k)
    ensures var t := After(s, k, status, exited, false, waited);
      && t.outs == s.outs && k in t.procs && t.procs == s.procs && Lookup(t, k) == Part(Lookup(s, k), status, exited, false, waited)
      && forall p, gone :: Change(t, k, p, gone) == Change(s, k, p, gone)
  {
    var t := After(s, k, status, exited, false, waited);
    assert s.outs - {} == s.outs;
    forall p, gone
      ensures Change(t, k, p, gone) == Change(s, k, p, gone)
    {
      assert t.all[s.procs[k] := Settle(p)] == s.all[s.procs[k] := Settle(p)];
    }
  }

  ghost function Next3(s: State, a: Step, b: Step, c: Step): State
    requires WellFormed(s)
  {
    NextWellFormed(s, a);
    NextWellFormed(Next(s, a), b);
    Next(Next(Next(s, a), b), c)
  }

  /** Exit, end of output and wait lead to the same registry in all six orders. */
  lemma OrderIrrelevant(s: State, k: Key, status: int)
    requires Inv(s) && !s.panicked && Untouched(s, k)
    ensures var x, e, w := Exited(k, status), Eof(Lookup(s, k).stdio), Wait(k);
      var done := After(s, k, status, true, true, true);
      && k !in done.procs && done.all[s.procs[k]].sent == [status] && done.all[s.procs[k]].chan == Some([status])
      && Next3(s, x, e, w) == done && Next3(s, x, w, e) == done && Next3(s, e, x, w) == done
      && Next3(s, e, w, x) == done && Next3(s, w, x, e) == done && Next3(s, w, e, x) == done
  {
    StartsUntouched(s, k, status);
    ThenExit(s, k, status, false, false);
    ThenExit(s, k, status, true, false);
    ThenExit(s, k, status, false, true);
    ThenExit(s, k, status, true, true);
    ThenWait(s, k, status, false, false);
    ThenWait(s, k, status, true, false);
    ThenWait(s, k, status, false, true);
    ThenWait(s, k, status, true, true);
    ThenEof(s, k, status, false, false);
    ThenEof(s, k, status, true, false);
    ThenEof(s, k, status, false, true);
    ThenEof(s, k, status, true, true);
    LiveHere(s, k);
  }

  lemma StartsUntouched(s: State, k: Key, status: int)
    requires Inv(s) && Untouched(s, k)
    ensures After(s, k, status, false, false, false) == s
  {
    assert s.outs - {} == s.outs;
    assert Part(Lookup(s, k), status, false, false, false) == Lookup(s, k);
  }
}
