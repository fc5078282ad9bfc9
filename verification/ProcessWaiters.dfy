/**
 The callers of WaitProcess that never return: a command that fails takes its process out of the
 registry without a status, and whoever waits for that process is left behind.
 */
module ProcessWaiters {
  import opened Bytes
  import opened ProcessRegistry

  /** Somebody waits for process `i`, which left the registry without a status. */
  predicate Stranded(s: State, i: nat) {
    i < |s.all| && !Registered(s, i) && s.all[i].waiting > 0 && s.all[i].sent == []
  }

  /** Process `i` is taken back while somebody waits for it. */
  predicate Strands(s: State, step: Step, i: nat) {
    && !s.panicked && step.Remove? && step.key in s.procs && s.procs[step.key] == i
    && i < |s.all| && s.all[i].waiting > 0
  }

  lemma RegisterStrands(s: State, k: Key, terminal: bool, i: nat)
    requires Inv(s) && k !in s.procs
    ensures Stranded(Register(s, k, terminal), i) <==> Stranded(s, i)
  {
    if i < |s.all| {
      RegisterRegistered(s, k, terminal, i);
    }
  }

  /** An update leaves the process registered, or hands its status over. */
  lemma UpdateStrands(s: State, outs: map<nat, nat>, k: Key, p: Proc, i: nat)
    requires KeysInv(s) && k in s.procs
    ensures Stranded(Update(s.(outs := outs), k, p), i) <==> Stranded(s, i)
  {
    UpdateRegistered(s.(outs := outs), k, p, i);
    assert Registered(s, s.procs[k]);
  }

  lemma RemoveStrands(s: State, k: Key, i: nat)
    requires Inv(s) && !s.panicked
    ensures Stranded(Removed(s, k), i) <==> Stranded(s, i) || Strands(s, Remove(k), i)
  {
    if k in s.procs {
      RemovedRegistered(s, k, i);
      LiveHere(s, k);
      assert Registered(s, s.procs[k]);
    }
  }

  lemma EofStrands(s: State, stream: nat, i: nat)
    requires Inv(s)
    ensures Stranded(OnEof(s, stream), i) <==> Stranded(s, i)
  {
    if stream in s.outs {
      assert OutInv(s, stream);
      var k :| k in s.procs && s.procs[k] == s.outs[stream];
      if stream == Lookup(s, k).stdio {
        LiveHere(s, k);
        StdioEofIs(s, k);
        UpdateStrands(s, s.outs - Streams(Lookup(s, k)), k, Lookup(s, k).(outClosed := true), i);
      }
    }
  }

  lemma ExitStrands(s: State, stdio: nat, code: int, i: nat)
    requires Inv(s)
    ensures Stranded(Exit4242(s, stdio, code), i) <==> Stranded(s, i)
  {
    if k :| HasStdio(s, stdio, k) {
      Exit4242Is(s, stdio, code, k);
      UpdateStrands(s, s.outs, k, Lookup(s, k).(exit := Some(code)), i);
    }
  }

  lemma WaitStrands(s: State, k: Key, i: nat)
    requires Inv(s)
    ensures Stranded(OnWait(s, k), i) <==> Stranded(s, i)
  {
    if k in s.procs {
      var p := Lookup(s, k);
      assert Registered(s, s.procs[k]);
      if p.chan.None? {
        UpdateStrands(s, s.outs, k, p.(chan := Some([]), waiting := p.waiting + 1), i);
      }
    }
  }

  /** A channel with a status on it, or a waiter that holds one, belongs to a process whose status was sent. */
  lemma TokenStrands(s: State, j: nat, i: nat)
    requires Inv(s)
    ensures CanReceive(s, j) ==> (Stranded(OnReceive(s, j), i) <==> Stranded(s, i))
    ensures CanPutBack(s, j) ==> (Stranded(OnPutBack(s, j), i) <==> Stranded(s, i))
  {
    if j < |s.all| {
      assert ProcInv(s, j);
    }
  }

  /** Closing the agent gives every process that is waited for a status. */
  lemma CloseStrands(s: State, i: nat)
    requires Inv(s)
    ensures Stranded(OnClose(s), i) <==> Stranded(s, i)
  {
    if !s.closed && i < |s.all| {
      assert ProcInv(s, i);
      assert !Registered(OnClose(s), i);
    }
  }

  /** A waiter is left without a status by the removal of its process, and by nothing else; it stays so. */
  lemma StrandedNext(s: State, step: Step, i: nat)
    requires Inv(s)
    ensures Stranded(Next(s, step), i) <==> Stranded(s, i) || Strands(s, step, i)
  {
    if !s.panicked {
      match step
      case Create(c, terminal) =>
        if c !in s.created && Key(c, INIT_PROCESS) !in s.procs { RegisterStrands(s, Key(c, INIT_PROCESS), terminal, i); }
      case StartContainer(c) =>
      case Exec(k, terminal) => if k !in s.procs { RegisterStrands(s, k, terminal, i); }
      case Remove(k) => RemoveStrands(s, k, i);
      case Exited(k, status) =>
        if k in s.procs { UpdateStrands(s, s.outs, k, Lookup(s, k).(exit := Some(status)), i); }
      case Exited4242(stdio, code) => ExitStrands(s, stdio, code, i);
      case Eof(stream) => EofStrands(s, stream, i);
      case Wait(k) => WaitStrands(s, k, i);
      case Receive(j) => TokenStrands(s, j, i);
      case PutBack(j) => TokenStrands(s, j, i);
      case Close => CloseStrands(s, i);
    }
  }

  ghost predicate StrandsAt(last: nat, steps: seq<Step>, n: nat, i: nat) {
    n < |steps| && Strands(Run(last, steps[..n]), steps[n], i)
  }

  lemma StrandsSnoc(last: nat, front: seq<Step>, step: Step, i: nat)
    ensures (exists n: nat :: StrandsAt(last, front + [step], n, i)) <==>
      (exists n: nat :: StrandsAt(last, front, n, i)) || Strands(Run(last, front), step, i)
  {
    var steps := front + [step];
    forall n: nat | n < |front|
      ensures StrandsAt(last, steps, n, i) <==> StrandsAt(last, front, n, i)
    {
      assert steps[..n] == front[..n];
    }
    assert steps[..|front|] == front;
    assert StrandsAt(last, steps, |front|, i) <==> Strands(Run(last, front), step, i);
    if n: nat :| StrandsAt(last, steps, n, i) {
      assert n < |front| || n == |front|;
    }
    if n: nat :| StrandsAt(last, front, n, i) {
      assert StrandsAt(last, steps, n, i);
    }
  }

  /** In every run exactly the waiters of the processes that were taken back while they waited are left without a status. */
  lemma {:induction false} StrandedInRun(last: nat, steps: seq<Step>, i: nat)
    requires last >= 1 && !Run(last, steps).panicked
    ensures Stranded(Run(last, steps), i) <==> exists n: nat :: StrandsAt(last, steps, n, i)
    decreases |steps|
  {
    if steps != [] {
      var front, step := steps[..|steps| - 1], steps[|steps| - 1];
      assert steps == front + [step];
      RunKeepsInv(last, front);
      StrandedInRun(last, front, i);
      StrandedNext(Run(last, front), step, i);
      StrandsSnoc(last, front, step, i);
    }
  }
}
