/**
 What is recorded of a process, told from the steps of a run: the status last reported for it,
 whether its output has ended, and its waiters.
 */
module ProcessReports {
  import opened Bytes
  import opened ProcessRegistry

  /** The status a step reports for process `i`; closing the agent reports 255 for every registered one. */
  function Report(s: State, step: Step, i: nat): Option<int>
    requires WellFormed(s) && i < |s.all|
  {
    if s.panicked then None
    else match step
      case Exited(k, status) => if k in s.procs && s.procs[k] == i then Some(status) else None
      case Exited4242(stdio, code) => if Registered(s, i) && s.all[i].stdio == stdio then Some(code) else None
      case Close => if Registered(s, i) && !s.closed then Some(255) else None
      case _ => None
  }

  /** The step ends the output of process `i`: the end of its stdio, unless that panics, or the close of the agent. */
  predicate EndsOutput(s: State, step: Step, i: nat)
    requires WellFormed(s) && i < |s.all|
  {
    && !s.panicked && Registered(s, i)
    && ((step == Eof(s.all[i].stdio) && s.all[i].stdio in s.outs && (s.all[i].stderr == 0 || s.all[i].stderr in s.outs))
        || (step.Close? && !s.closed))
  }

  /** The step is a call that waits for process `i`. */
  predicate WaitsFor(s: State, step: Step, i: nat)
    requires WellFormed(s) && i < |s.all|
  {
    !s.panicked && step.Wait? && step.key in s.procs && s.procs[step.key] == i
  }

  /** The callers of WaitProcess that came for this process. */
  function Waiters(p: Proc): nat {
    p.waiting + |p.holding| + |p.returned|
  }

  predicate Records(p: Proc, q: Proc, report: Option<int>, ends: bool, waits: bool) {
    && q.stdio == p.stdio && q.stderr == p.stderr
    && q.exit == (if report.Some? then report else p.exit)
    && q.outClosed == (p.outClosed || ends)
    && q.chan.Some? == (p.chan.Some? || waits)
    && Waiters(q) == Waiters(p) + if waits then 1 else 0
  }

  predicate Recorded(s: State, step: Step, t: State, i: nat)
    requires WellFormed(s) && i < |s.all|
  {
    i < |t.all| && Records(s.all[i], t.all[i], Report(s, step, i), EndsOutput(s, step, i), WaitsFor(s, step, i))
  }

  lemma UpdateRecords(s: State, outs: map<nat, nat>, k: Key, p: Proc, i: nat)
    requires WellFormed(s) && k in s.procs && i < |s.all|
    ensures var t := Update(s.(outs := outs), k, p);
      && i < |t.all|
      && Records(if i == s.procs[k] then p else s.all[i], t.all[i], None, false, false)
  {
  }

  lemma ExitRecords(s: State, k: Key, status: int, i: nat)
    requires Inv(s) && i < |s.all|
    ensures Recorded(s, Exited(k, status), Next(s, Exited(k, status)), i)
  {
    if !s.panicked && k in s.procs {
      UpdateRecords(s, s.outs, k, Lookup(s, k).(exit := Some(status)), i);
    }
  }

  lemma Exit4242Records(s: State, stdio: nat, code: int, i: nat)
    requires Inv(s) && i < |s.all|
    ensures Recorded(s, Exited4242(stdio, code), Next(s, Exited4242(stdio, code)), i)
  {
    if !s.panicked {
      if k :| HasStdio(s, stdio, k) {
        Exit4242Is(s, stdio, code, k);
        UpdateRecords(s, s.outs, k, Lookup(s, k).(exit := Some(code)), i);
        StdioIsOwn(s, k, i);
      } else {
        NobodyHas(s, stdio, i);
      }
    }
  }

  /** A stream number belongs to one process. */
  lemma StdioIsOwn(s: State, k: Key, i: nat)
    requires Inv(s) && k in s.procs && i < |s.all|
    ensures s.all[i].stdio == Lookup(s, k).stdio <==> i == s.procs[k]
    ensures Registered(s, s.procs[k])
  {
    assert SeqInv(s, i) && SeqInv(s, s.procs[k]);
  }

  lemma NobodyHas(s: State, stdio: nat, i: nat)
    requires WellFormed(s) && i < |s.all| && !exists k :: HasStdio(s, stdio, k)
    ensures !(Registered(s, i) && s.all[i].stdio == stdio)
  {
    if Registered(s, i) && s.all[i].stdio == stdio {
      var k :| k in s.procs && s.procs[k] == i;
      assert HasStdio(s, stdio, k);
    }
  }

  lemma StdioEofRecords(s: State, k: Key, i: nat)
    requires Inv(s) && !s.panicked && i < |s.all| && k in s.procs && !Lookup(s, k).outClosed
    ensures var step := Eof(Lookup(s, k).stdio); Recorded(s, step, Next(s, step), i)
  {
    StdioEofIs(s, k);
    StdioIsOwn(s, k, i);
    UpdateRecords(s, s.outs - Streams(Lookup(s, k)), k, Lookup(s, k).(outClosed := true), i);
  }

  lemma OtherEofRecords(s: State, stream: nat, i: nat)
    requires Inv(s) && !s.panicked && i < |s.all| && stream in s.outs && s.outs[stream] < |s.all|
    requires stream != s.all[s.outs[stream]].stdio
    ensures Recorded(s, Eof(stream), Next(s, Eof(stream)), i)
  {
    OtherStream(s, stream, i);
  }

  lemma EofRecords(s: State, stream: nat, i: nat)
    requires Inv(s) && i < |s.all|
    ensures Recorded(s, Eof(stream), Next(s, Eof(stream)), i)
  {
    if !s.panicked && stream in s.outs {
      assert OutInv(s, stream);
      var k :| k in s.procs && s.procs[k] == s.outs[stream];
      if stream == Lookup(s, k).stdio {
        LiveHere(s, k);
        StdioEofRecords(s, k, i);
      } else {
        OtherEofRecords(s, stream, i);
      }
    }
  }

  lemma OtherStream(s: State, stream: nat, i: nat)
    requires Inv(s) && i < |s.all| && stream in s.outs && s.outs[stream] < |s.all| && stream != s.all[s.outs[stream]].stdio
    ensures s.all[i].stdio != stream
  {
    assert OutInv(s, stream) && SeqInv(s, i);
  }

  lemma WaitRecords(s: State, k: Key, i: nat)
    requires Inv(s) && i < |s.all|
    ensures Recorded(s, Wait(k), Next(s, Wait(k)), i)
  {
    if !s.panicked && k in s.procs {
      LiveHere(s, k);
      WaitIs(s, k);
      UpdateRecords(s, s.outs - {}, k, Awaited(Lookup(s, k)), i);
    }
  }

  lemma CloseRecords(s: State, i: nat)
    requires Inv(s) && i < |s.all|
    ensures Recorded(s, Close, Next(s, Close), i)
  {
    if !s.panicked && !s.closed && Registered(s, i) {
      assert ProcInv(s, i);
      assert OnClose(s).all[i] == Shut(s.all[i]);
    }
  }

  lemma ReceiveRecords(s: State, j: nat, i: nat)
    requires WellFormed(s) && i < |s.all|
    ensures Recorded(s, Receive(j), Next(s, Receive(j)), i)
  {
  }

  lemma PutBackRecords(s: State, j: nat, i: nat)
    requires WellFormed(s) && i < |s.all|
    ensures Recorded(s, PutBack(j), Next(s, PutBack(j)), i)
  {
  }

  lemma RestRecords(s: State, step: Step, i: nat)
    requires WellFormed(s) && i < |s.all| && (step.Create? || step.StartContainer? || step.Exec? || step.Remove?)
    ensures i < |Next(s, step).all| && Next(s, step).all[i] == s.all[i]
  {
  }

  lemma NextRecords(s: State, step: Step, i: nat)
    requires Inv(s) && i < |s.all|
    ensures Recorded(s, step, Next(s, step), i)
  {
    match step
    case Exited(k, status) => ExitRecords(s, k, status, i);
    case Exited4242(stdio, code) => Exit4242Records(s, stdio, code, i);
    case Receive(j) => ReceiveRecords(s, j, i);
    case PutBack(j) => PutBackRecords(s, j, i);
    case Eof(stream) => EofRecords(s, stream, i);
    case Wait(k) => WaitRecords(s, k, i);
    case Close => CloseRecords(s, i);
    case _ => RestRecords(s, step, i);
  }

  /** A process without a status, with open output and without waiters. */
  predicate Blank(p: Proc) {
    p.exit.None? && !p.outClosed && p.chan.None? && Waiters(p) == 0
  }

  /** So a process starts. */
  lemma NewRecords(s: State, step: Step)
    requires WellFormed(s)
    ensures |s.all| <= |Next(s, step).all| <= |s.all| + 1
    ensures |Next(s, step).all| > |s.all| ==> Blank(Next(s, step).all[|s.all|])
  {
  }

  // ---------- whole runs ----------

  /** The status last reported for process `i` in the run. */
  ghost function LastReport(last: nat, steps: seq<Step>, i: nat): Option<int>
    decreases |steps|
  {
    if steps == [] then None
    else
      var front := steps[..|steps| - 1];
      var s := Run(last, front);
      if i < |s.all| && Report(s, steps[|steps| - 1], i).Some? then Report(s, steps[|steps| - 1], i) else LastReport(last, front, i)
  }

  /** The output of process `i` was ended in the run. */
  ghost predicate OutputEnded(last: nat, steps: seq<Step>, i: nat)
    decreases |steps|
  {
    steps != []
    && var front := steps[..|steps| - 1];
    var s := Run(last, front);
    (i < |s.all| && EndsOutput(s, steps[|steps| - 1], i)) || OutputEnded(last, front, i)
  }

  /** How many calls of the run wait, or waited, for process `i`. */
  ghost function WaitCalls(last: nat, steps: seq<Step>, i: nat): nat
    decreases |steps|
  {
    if steps == [] then 0
    else
      var front := steps[..|steps| - 1];
      var s := Run(last, front);
      WaitCalls(last, front, i) + if i < |s.all| && WaitsFor(s, steps[|steps| - 1], i) then 1 else 0
  }

  ghost predicate Reported(last: nat, steps: seq<Step>, i: nat) {
    var s := Run(last, steps);
    if i < |s.all| then
      && s.all[i].exit == LastReport(last, steps, i) && s.all[i].outClosed == OutputEnded(last, steps, i)
      && Waiters(s.all[i]) == WaitCalls(last, steps, i) && (s.all[i].chan.Some? <==> WaitCalls(last, steps, i) > 0)
    else LastReport(last, steps, i).None? && !OutputEnded(last, steps, i) && WaitCalls(last, steps, i) == 0
  }

  lemma ReportSnoc(last: nat, front: seq<Step>, step: Step, i: nat)
    ensures var s, steps := Run(last, front), front + [step];
      && Run(last, steps) == Next(s, step)
      && LastReport(last, steps, i) ==
         (if i < |s.all| && Report(s, step, i).Some? then Report(s, step, i) else LastReport(last, front, i))
      && (OutputEnded(last, steps, i) <==> (i < |s.all| && EndsOutput(s, step, i)) || OutputEnded(last, front, i))
      && WaitCalls(last, steps, i) == WaitCalls(last, front, i) + if i < |s.all| && WaitsFor(s, step, i) then 1 else 0
  {
    assert (front + [step])[..|front|] == front;
  }

  lemma ReportedOld(last: nat, front: seq<Step>, step: Step, i: nat)
    requires Inv(Run(last, front)) && Reported(last, front, i) && i < |Run(last, front).all|
    ensures Reported(last, front + [step], i)
  {
    ReportSnoc(last, front, step, i);
    NextRecords(Run(last, front), step, i);
  }

  lemma ReportedBlank(last: nat, steps: seq<Step>, i: nat)
    requires LastReport(last, steps, i).None? && !OutputEnded(last, steps, i) && WaitCalls(last, steps, i) == 0
    requires BlankAt(Run(last, steps), i)
    ensures Reported(last, steps, i)
  {
  }

  predicate BlankAt(s: State, i: nat) {
    i < |s.all| ==> Blank(s.all[i])
  }

  lemma RunGrows(last: nat, front: seq<Step>, step: Step, i: nat)
    requires i >= |Run(last, front).all|
    ensures BlankAt(Run(last, front + [step]), i)
  {
    RunIs(last, front, step);
    NextBlank(Run(last, front), step, i);
  }

  lemma NextBlank(s: State, step: Step, i: nat)
    requires WellFormed(s) && i >= |s.all|
    ensures BlankAt(Next(s, step), i)
  {
    NewRecords(s, step);
  }

  lemma RunIs(last: nat, front: seq<Step>, step: Step)
    ensures Run(last, front + [step]) == Next(Run(last, front), step)
  {
    assert (front + [step])[..|front|] == front;
  }

  lemma NothingToReport(last: nat, front: seq<Step>, step: Step, i: nat)
    requires i >= |Run(last, front).all|
    ensures LastReport(last, front + [step], i) == LastReport(last, front, i)
    ensures OutputEnded(last, front + [step], i) == OutputEnded(last, front, i)
    ensures WaitCalls(last, front + [step], i) == WaitCalls(last, front, i)
  {
    assert (front + [step])[..|front|] == front;
  }

  lemma ReportedNew(last: nat, front: seq<Step>, step: Step, i: nat)
    requires i >= |Run(last, front).all|
    requires LastReport(last, front, i).None? && !OutputEnded(last, front, i) && WaitCalls(last, front, i) == 0
    ensures Reported(last, front + [step], i)
  {
    NothingToReport(last, front, step, i);
    RunGrows(last, front, step, i);
    ReportedBlank(last, front + [step], i);
  }

  lemma Last(last: nat, steps: seq<Step>) returns (front: seq<Step>, step: Step)
    requires steps != [] && !Run(last, steps).panicked
    ensures steps == front + [step] && !Run(last, front).panicked
  {
    front, step := steps[..|steps| - 1], steps[|steps| - 1];
    assert steps == front + [step];
  }

  /**
   In every run: the status of a process is the one last reported for it, its output is closed if and
   only if it was ended, and every call that waited for it waits, holds the status or has returned.
   */
  lemma {:induction false} RecordsRight(last: nat, steps: seq<Step>, i: nat)
    requires last >= 1 && !Run(last, steps).panicked
    ensures Reported(last, steps, i)
    decreases |steps|
  {
    if steps != [] {
      var front, step := Last(last, steps);
      RunKeepsInv(last, front);
      RecordsRight(last, front, i);
      if i < |Run(last, front).all| {
        ReportedOld(last, front, step, i);
      } else {
        ReportedNew(last, front, step, i);
      }
    }
  }

  lemma CloseGives(s: State, i: nat)
    requires Inv(s) && !s.closed && Registered(s, i) && i < |s.all| && s.all[i].waiting > 0
    ensures var t := OnClose(s); i < |t.all| && t.all[i].sent == [255] && CanReceive(t, i)
  {
    assert ProcInv(s, i);
    assert OnClose(s).all[i] == Shut(s.all[i]);
  }

  /** Whoever waits for a process that is registered when the agent is closed gets 255. */
  lemma ClosedGets255(last: nat, steps: seq<Step>, i: nat)
    requires last >= 1 && !Run(last, steps).panicked
    requires var s := Run(last, steps); !s.closed && Registered(s, i) && i < |s.all| && s.all[i].waiting > 0
    ensures var t := Run(last, steps + [Close]); i < |t.all| && t.all[i].sent == [255] && CanReceive(t, i)
  {
    RunKeepsInv(last, steps);
    ReportSnoc(last, steps, Close, i);
    CloseGives(Run(last, steps), i);
  }

  // ---------- registering and closing ----------

  /** The containers that are created and not started, after one more step. */
  function CreatedThen(created: set<string>, procs: map<Key, nat>, step: Step): set<string> {
    match step
    case Create(c, _) => if Key(c, "init") in procs then created else created + {c}
    case StartContainer(c) => created - {c}
    case _ => created
  }

  ghost function CreatedIn(last: nat, steps: seq<Step>): set<string>
    decreases |steps|
  {
    if steps == [] then {}
    else CreatedThen(CreatedIn(last, steps[..|steps| - 1]), Run(last, steps[..|steps| - 1]).procs, steps[|steps| - 1])
  }

  predicate ClosedIn(steps: seq<Step>) {
    exists k :: 0 <= k < |steps| && steps[k].Close?
  }

  lemma StepFlags(s: State, step: Step)
    requires WellFormed(s) && !s.panicked
    ensures Next(s, step).closed == (s.closed || step.Close?)
    ensures Next(s, step).created == CreatedThen(s.created, s.procs, step)
  {
  }

  lemma ClosedSnoc(front: seq<Step>, step: Step)
    ensures ClosedIn(front + [step]) <==> ClosedIn(front) || step.Close?
  {
    var steps := front + [step];
    assert steps[|front|] == step;
    if k :| 0 <= k < |front| && front[k].Close? {
      assert steps[k].Close?;
    }
    if k :| 0 <= k < |steps| && steps[k].Close? {
      assert k < |front| ==> front[k].Close?;
    }
  }

  lemma CreatedSnoc(last: nat, front: seq<Step>, step: Step)
    ensures Run(last, front + [step]) == Next(Run(last, front), step)
    ensures CreatedIn(last, front + [step]) == CreatedThen(CreatedIn(last, front), Run(last, front).procs, step)
  {
    assert (front + [step])[..|front|] == front;
  }

  /** In every run: a container counts as created from its creation to its start, and the agent as closed once it was closed. */
  lemma {:induction false} FlagsRight(last: nat, steps: seq<Step>)
    requires !Run(last, steps).panicked
    ensures Run(last, steps).created == CreatedIn(last, steps) && (Run(last, steps).closed <==> ClosedIn(steps))
    decreases |steps|
  {
    if steps != [] {
      var front, step := Last(last, steps);
      FlagsRight(last, front);
      CreatedSnoc(last, front, step);
      ClosedSnoc(front, step);
      StepFlags(Run(last, front), step);
    }
  }

  /** The key under which a step registers a process: none when the id is taken, or the container is created already. */
  function KeyFor(created: set<string>, procs: map<Key, nat>, step: Step): Option<Key> {
    match step
    case Create(c, _) => if c in created || Key(c, "init") in procs then None else Some(Key(c, "init"))
    case Exec(k, _) => if k in procs then None else Some(k)
    case _ => None
  }

  /** A new process has the next stream number, and without a terminal the one after it for stderr. */
  predicate RegistersAt(s: State, t: State, key: Option<Key>, terminal: bool) {
    && |t.all| == |s.all| + (if key.Some? then 1 else 0)
    && t.last == s.last + (if key.None? then 0 else if terminal then 1 else 2)
    && (key.Some? ==>
          && key.value in t.procs && t.procs[key.value] == |s.all|
          && t.all[|s.all|].stdio == s.last && t.all[|s.all|].stderr == if terminal then 0 else s.last + 1)
  }

  predicate OnTerminal(step: Step) {
    (step.Create? || step.Exec?) && step.terminal
  }

  lemma StepRegisters(s: State, step: Step)
    requires WellFormed(s) && !s.panicked
    ensures RegistersAt(s, Next(s, step), KeyFor(s.created, s.procs, step), OnTerminal(step))
  {
  }

  /** In every run a process is registered by exactly the creations and executions whose key is free, under that key and with the next stream numbers. */
  lemma RegistersExactly(last: nat, steps: seq<Step>, step: Step)
    requires !Run(last, steps).panicked
    ensures RegistersAt(Run(last, steps), Run(last, steps + [step]),
                        KeyFor(CreatedIn(last, steps), Run(last, steps).procs, step), OnTerminal(step))
  {
    FlagsRight(last, steps);
    CreatedSnoc(last, steps, step);
    StepRegisters(Run(last, steps), step);
  }
}
