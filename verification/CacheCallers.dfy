/**
 The callers of the VM cache: every call of GetBaseVm gets one VM, one refusal, or still waits,
 and while one waits the cache can move.
 */
module CacheCallers {
  import opened CacheFactory

  /** How many calls were made. */
  function Calls(steps: seq<Step>): nat {
    if steps == [] then 0 else Calls(steps[..|steps| - 1]) + if steps[|steps| - 1].Get? then 1 else 0
  }

  /** The workers that are about to give up, or have. */
  predicate Closing(w: Worker) {
    w.Doomed? || w.Ended?
  }

  predicate CallersInv(s: State, calls: nat) {
    && |s.delivered| + s.refused + s.getters == calls
    && (s.refused > 0 ==> s.phase.Shut?)
    && (s.phase.Open? ==> s.tokens == 0 && forall i :: 0 <= i < |s.workers| ==> !Closing(s.workers[i]))
  }

  lemma DeliverAnswers(s: State, i: nat, calls: nat)
    requires CallersInv(s, calls) && Enabled(s, Deliver(i))
    ensures CallersInv(Next(s, Deliver(i)), calls)
  {
  }

  lemma WorkerKeepsCallers(s: State, step: Step, calls: nat)
    requires CallersInv(s, calls) && Enabled(s, step) && OfWorker(step) && !step.Deliver?
    ensures CallersInv(Next(s, step), calls)
  {
    var t := Next(s, step);
    assert t.phase == s.phase && t.getters == s.getters && t.delivered == s.delivered && t.refused == s.refused;
    if s.phase.Open? {
      assert !step.TakeToken? && !step.Leave?;
      assert !step.Kill?;
    }
  }

  lemma OtherKeepsCallers(s: State, step: Step, calls: nat)
    requires CallersInv(s, calls) && Enabled(s, step) && !OfWorker(step)
    ensures CallersInv(Next(s, step), calls + if step.Get? then 1 else 0)
  {
  }

  lemma StepKeepsCallers(s: State, step: Step, calls: nat)
    requires CallersInv(s, calls) && Enabled(s, step)
    ensures CallersInv(Next(s, step), calls + if step.Get? then 1 else 0)
  {
    if step.Deliver? {
      DeliverAnswers(s, step.i, calls);
    } else if OfWorker(step) {
      WorkerKeepsCallers(s, step, calls);
    } else {
      OtherKeepsCallers(s, step, calls);
    }
  }

  lemma {:induction false} RunKeepsCallers(size: nat, steps: seq<Step>, s: State)
    requires Reaches(size, steps, s)
    ensures CallersInv(s, Calls(steps))
    decreases |steps|
  {
    if steps != [] {
      var front, step := steps[..|steps| - 1], steps[|steps| - 1];
      RunKeepsCallers(size, front, Run(size, front).0);
      StepKeepsCallers(Run(size, front).0, step, Calls(front));
    }
  }

  /** In every run each call has got one VM, or one refusal after the cache was shut, or still waits. */
  lemma EachCallOnce(size: nat, steps: seq<Step>, s: State)
    requires Reaches(size, steps, s)
    ensures |s.delivered| + s.refused + s.getters == Calls(steps)
    ensures s.refused > 0 ==> s.phase.Shut?
  {
    RunKeepsCallers(size, steps, s);
  }

  /** A step of the cache itself, not of a caller. */
  predicate Internal(step: Step) {
    !step.Get? && !step.StartWorker?
  }

  /** While a caller waits, and nothing was sent on a closed channel, some step of the cache is possible. */
  lemma NoCallerStuck(size: nat, steps: seq<Step>, s: State) returns (step: Step)
    requires size >= 1 && Reaches(size, steps, s) && s.getters > 0 && !s.panicked
    ensures Internal(step) && Enabled(s, step)
    ensures s.phase.Shut? ==> step.GetRefused?
  {
    RunKeepsCallers(size, steps, s);
    CallsComeLate(size, steps, s);
    if s.phase.Shut? {
      step := GetRefused;
    } else if s.phase.Open? {
      step := WorkerMoves(s);
    } else if s.phase.Sending? {
      TokensBounded(size, steps, s);
      step := if Enabled(s, SendToken) then SendToken else SentAll;
    } else {
      CloseProgresses(size, steps, s);
      if Enabled(s, Finish) {
        step := Finish;
      } else {
        var i: nat :| i < |s.workers| && Live(s.workers[i]) == 1
          && (Enabled(s, Fetch(i)) || Enabled(s, TakeToken(i)) || Enabled(s, Kill(i)) || Enabled(s, FailedDone(i)));
        step := if Enabled(s, Fetch(i)) then Fetch(i) else if Enabled(s, TakeToken(i)) then TakeToken(i)
          else if Enabled(s, Kill(i)) then Kill(i) else FailedDone(i);
      }
    }
  }

  /** An open cache: its first worker can fetch, deliver to the caller that waits, or close the cache after a failure. */
  lemma WorkerMoves(s: State) returns (step: Step)
    requires CallersInv(s, |s.delivered| + s.refused + s.getters) && s.phase.Open? && s.getters > 0 && !s.panicked && s.workers != []
    ensures Internal(step) && Enabled(s, step)
  {
    assert !Closing(s.workers[0]);
    match s.workers[0]
    case Fetching => step := Fetch(0);
    case Offering(_) => step := Deliver(0);
    case Failed => step := FailedDone(0);
    case Calling => step := BeginClose(0);
  }

  /** Nobody can call before every worker was started. */
  lemma {:induction false} CallsComeLate(size: nat, steps: seq<Step>, s: State)
    requires Reaches(size, steps, s) && s.getters > 0
    ensures |s.workers| == s.size == size
    decreases |steps|
  {
    var front, step := steps[..|steps| - 1], steps[|steps| - 1];
    var u := Run(size, front).0;
    RunKeepsInv(size, front);
    RunKeepsInv(size, steps);
    if u.getters > 0 {
      CallsComeLate(size, front, u);
    }
    WorkersStay(u, step);
  }

  lemma WorkersStay(s: State, step: Step)
    requires Enabled(s, step)
    ensures |Next(s, step).workers| == |s.workers| + if step.StartWorker? then 1 else 0
  {
  }
}
