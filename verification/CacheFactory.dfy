/**
 The VM cache: `size` workers each fetch a base VM and offer it on one unbuffered channel until
 they take a close token; closing sends tokens, waits for the workers and closes the channel.
 Workers, callers and closers act in any order, also while New is still starting workers.
 */
module CacheFactory {

  type Vm = nat

  /** Fetching a VM; offering one; holding one and a token; out of VMs; closing; gone. */
  datatype Worker = Fetching | Offering(vm: Vm) | Doomed(vm: Vm) | Failed | Calling | Ended

  datatype Phase = Open | Sending | Waiting | Shut

  /** `early`: the channel was closed before New had started every worker. */
  datatype State = State(
    size: nat, workers: seq<Worker>, group: int, tokens: nat, phase: Phase,
    getters: nat, early: bool, panicked: bool,
    nextVm: nat, delivered: seq<Vm>, killed: seq<Vm>, refused: nat, sent: nat, taken: nat, baseClosed: nat)

  datatype Step =
    | StartWorker
    | Fetch(i: nat)
    | FetchError(i: nat)
    | Deliver(i: nat)          // the select sends on the channel, which panics once that is closed
    | TakeToken(i: nat)
    | Kill(i: nat)
    | FailedDone(i: nat)
    | Get
    | GetRefused
    | BeginClose(i: nat)       // by a failed worker, or by a caller once New has returned
    | SendToken
    | SentAll
    | Finish
    | Leave(i: nat)

  function Init(size: nat): State {
    State(size, [], 0, 0, Open, 0, false, false, 0, [], [], 0, 0, 0, 0)
  }

  predicate At(s: State, i: nat, w: Worker) {
    i < |s.workers| && s.workers[i] == w
  }

  predicate Offers(s: State, i: nat) {
    i < |s.workers| && s.workers[i].Offering?
  }

  predicate Started(s: State) {
    |s.workers| == s.size
  }

  predicate Enabled(s: State, step: Step) {
    && !s.panicked
    && match step
       case StartWorker => |s.workers| < s.size
       case Fetch(i) => At(s, i, Fetching)
       case FetchError(i) => At(s, i, Fetching)
       case Deliver(i) => Offers(s, i) && (s.getters > 0 || s.phase.Shut?)
       case TakeToken(i) => Offers(s, i) && s.tokens > 0
       case Kill(i) => i < |s.workers| && s.workers[i].Doomed?
       case FailedDone(i) => At(s, i, Failed)
       case Get => Started(s)
       case GetRefused => s.getters > 0 && s.phase.Shut?
       case BeginClose(i) => s.phase.Open? && (At(s, i, Calling) || Started(s))
       case SendToken => s.phase.Sending? && s.tokens < s.size
       case SentAll => s.phase.Sending? && s.tokens >= s.size
       case Finish => s.phase.Waiting? && s.group == 0
       case Leave(i) => At(s, i, Calling) && s.phase.Shut?
  }

  function Set(s: State, i: nat, w: Worker): State
    requires i < |s.workers|
  {
    s.(workers := s.workers[i := w])
  }

  function Next(s: State, step: Step): State
    requires Enabled(s, step)
  {
    match step
    case StartWorker => s.(workers := s.workers + [Fetching], group := s.group + 1)
    case Fetch(i) => Set(s, i, Offering(s.nextVm)).(nextVm := s.nextVm + 1)
    case FetchError(i) => Set(s, i, Failed)
    case Deliver(i) =>
      if s.phase.Shut? then s.(panicked := true)
      else Set(s, i, Fetching).(delivered := s.delivered + [s.workers[i].vm], getters := s.getters - 1)
    case TakeToken(i) => Set(s, i, Doomed(s.workers[i].vm)).(tokens := s.tokens - 1, taken := s.taken + 1)
    case Kill(i) => Set(s, i, Ended).(killed := s.killed + [s.workers[i].vm], group := s.group - 1)
    case FailedDone(i) => Set(s, i, Calling).(group := s.group - 1)
    case Get => s.(getters := s.getters + 1)
    case GetRefused => s.(getters := s.getters - 1, refused := s.refused + 1)
    case BeginClose(_) => s.(phase := Sending)
    case SendToken => s.(tokens := s.tokens + 1, sent := s.sent + 1)
    case SentAll => s.(phase := Waiting)
    case Finish => s.(phase := Shut, early := !Started(s), baseClosed := s.baseClosed + 1)
    case Leave(i) => Set(s, i, Ended)
  }

  // ---------- counting ----------

  function Sum(ws: seq<Worker>, f: Worker -> int): int {
    if ws == [] then 0 else Sum(ws[..|ws| - 1], f) + f(ws[|ws| - 1])
  }

  /** A worker the wait group counts. */
  function Live(w: Worker): int {
    if w.Calling? || w.Ended? then 0 else 1
  }

  /** A worker that may still take a token. */
  function Fresh(w: Worker): int {
    if w.Fetching? || w.Offering? then 1 else 0
  }

  lemma {:induction false} SumUpdate(ws: seq<Worker>, i: nat, w: Worker, f: Worker -> int)
    requires i < |ws|
    ensures Sum(ws[i := w], f) == Sum(ws, f) - f(ws[i]) + f(w)
  {
    var n := |ws| - 1;
    if i == n {
      assert ws[i := w][..n] == ws[..n];
    } else {
      assert ws[i := w][..n] == ws[..n][i := w];
      SumUpdate(ws[..n], i, w, f);
    }
  }

  lemma {:induction false} LiveBounds(ws: seq<Worker>)
    ensures 0 <= Sum(ws, Fresh) <= Sum(ws, Live)
    ensures forall i :: 0 <= i < |ws| && Live(ws[i]) == 1 ==> Sum(ws, Live) >= 1
    ensures forall i :: 0 <= i < |ws| && Fresh(ws[i]) == 1 ==> Sum(ws, Fresh) >= 1
  {
    if ws != [] {
      LiveBounds(ws[..|ws| - 1]);
    }
  }

  /** How many workers hold `v`. */
  function Held(ws: seq<Worker>, v: Vm): nat {
    if ws == [] then 0 else Held(ws[..|ws| - 1], v) + HeldBy(ws[|ws| - 1], v)
  }

  function HeldBy(w: Worker, v: Vm): nat {
    if (w.Offering? || w.Doomed?) && w.vm == v then 1 else 0
  }

  lemma {:induction false} HeldUpdate(ws: seq<Worker>, i: nat, w: Worker, v: Vm)
    requires i < |ws|
    ensures Held(ws[i := w], v) == Held(ws, v) - HeldBy(ws[i], v) + HeldBy(w, v)
  {
    var n := |ws| - 1;
    if i == n {
      assert ws[i := w][..n] == ws[..n];
    } else {
      assert ws[i := w][..n] == ws[..n][i := w];
      HeldUpdate(ws[..n], i, w, v);
    }
  }

  // ---------- what every step keeps ----------

  /** In how many places `v` is: delivered to callers, killed, or held by workers. */
  function Places(s: State, v: Vm): nat {
    multiset(s.delivered)[v] + multiset(s.killed)[v] + Held(s.workers, v)
  }

  /** A fetched VM is in one place, others are nowhere. */
  predicate VmInv(s: State, v: Vm) {
    Places(s, v) == if v < s.nextVm then 1 else 0
  }

  predicate CountInv(s: State) {
    && |s.workers| <= s.size
    && s.group == Sum(s.workers, Live)
    && s.tokens <= s.size && s.sent == s.tokens + s.taken
    && s.taken + Sum(s.workers, Fresh) <= |s.workers|
    && (s.phase.Open? ==> s.sent == 0)
    && (s.phase.Waiting? || s.phase.Shut? ==> s.tokens + s.taken >= s.size)
    && s.baseClosed == (if s.phase.Shut? then 1 else 0)
    && (s.early ==> s.phase.Shut?)
    && (s.phase.Shut? && !s.early ==> |s.workers| == s.size && s.group == 0)
    && (s.panicked ==> s.early)
  }

  lemma VmKeeps(s: State, step: Step, v: Vm)
    requires VmInv(s, v) && Enabled(s, step)
    ensures VmInv(Next(s, step), v)
  {
    match step
    case Fetch(i) => HeldUpdate(s.workers, i, Offering(s.nextVm), v);
    case Deliver(i) => VmDelivered(s, i, v);
    case Kill(i) => VmKilled(s, i, v);
    case TakeToken(i) => HeldUpdate(s.workers, i, Doomed(s.workers[i].vm), v);
    case FetchError(i) => HeldUpdate(s.workers, i, Failed, v);
    case FailedDone(i) => HeldUpdate(s.workers, i, Calling, v);
    case Leave(i) => HeldUpdate(s.workers, i, Ended, v);
    case StartWorker => assert (s.workers + [Fetching])[..|s.workers|] == s.workers;
    case _ =>
  }

  /** A VM that is delivered, or killed, leaves its worker. */
  lemma VmDelivered(s: State, i: nat, v: Vm)
    requires VmInv(s, v) && Enabled(s, Deliver(i))
    ensures VmInv(Next(s, Deliver(i)), v)
  {
    HeldUpdate(s.workers, i, Fetching, v);
    assert multiset(s.delivered + [s.workers[i].vm]) == multiset(s.delivered) + multiset{s.workers[i].vm};
  }

  lemma VmKilled(s: State, i: nat, v: Vm)
    requires VmInv(s, v) && Enabled(s, Kill(i))
    ensures VmInv(Next(s, Kill(i)), v)
  {
    HeldUpdate(s.workers, i, Ended, v);
    assert multiset(s.killed + [s.workers[i].vm]) == multiset(s.killed) + multiset{s.workers[i].vm};
  }

  lemma SetCounts(s: State, i: nat, w: Worker)
    requires i < |s.workers|
    ensures Sum(Set(s, i, w).workers, Live) == Sum(s.workers, Live) - Live(s.workers[i]) + Live(w)
    ensures Sum(Set(s, i, w).workers, Fresh) == Sum(s.workers, Fresh) - Fresh(s.workers[i]) + Fresh(w)
  {
    SumUpdate(s.workers, i, w, Live);
    SumUpdate(s.workers, i, w, Fresh);
  }

  predicate OfWorker(step: Step) {
    step.Fetch? || step.FetchError? || step.Deliver? || step.TakeToken? || step.Kill? || step.FailedDone? || step.Leave?
  }

  lemma WorkerCounts(s: State, step: Step)
    requires CountInv(s) && Enabled(s, step) && OfWorker(step)
    ensures CountInv(Next(s, step))
  {
    var t := Next(s, step);
    LiveBounds(s.workers);
    var i := step.i;
    SetCounts(s, i, t.workers[i]);
  }

  lemma OtherCounts(s: State, step: Step)
    requires CountInv(s) && Enabled(s, step) && !OfWorker(step)
    ensures CountInv(Next(s, step))
  {
    LiveBounds(s.workers);
    if step.StartWorker? {
      assert Next(s, step).workers[..|s.workers|] == s.workers;
    }
  }

  lemma CountKeeps(s: State, step: Step)
    requires CountInv(s) && Enabled(s, step)
    ensures CountInv(Next(s, step))
  {
    if OfWorker(step) {
      WorkerCounts(s, step);
    } else {
      OtherCounts(s, step);
    }
  }

  /** The state after the steps, if each was possible in its turn. */
  function Run(size: nat, steps: seq<Step>): (r: (State, bool)) {
    if steps == [] then (Init(size), true)
    else
      var (s, ok) := Run(size, steps[..|steps| - 1]);
      var step := steps[|steps| - 1];
      if ok && Enabled(s, step) then (Next(s, step), true) else (s, false)
  }

  predicate Reaches(size: nat, steps: seq<Step>, s: State) {
    Run(size, steps) == (s, true)
  }

  lemma {:induction false} RunKeepsInv(size: nat, steps: seq<Step>, v: Vm := 0)
    ensures CountInv(Run(size, steps).0) && VmInv(Run(size, steps).0, v) && Run(size, steps).0.size == size
  {
    if steps != [] {
      var front, step := steps[..|steps| - 1], steps[|steps| - 1];
      RunKeepsInv(size, front, v);
      var s := Run(size, front).0;
      if Run(size, front).1 && Enabled(s, step) {
        VmKeeps(s, step, v);
        CountKeeps(s, step);
      }
    }
  }

  // ---------- whole runs ----------

  /** Every VM is in exactly one place: with one worker, with one caller, or killed once. */
  lemma VmInOnePlace(size: nat, steps: seq<Step>, s: State, v: Vm)
    requires Reaches(size, steps, s)
    ensures multiset(s.delivered)[v] + multiset(s.killed)[v] + Held(s.workers, v) == if v < s.nextVm then 1 else 0
  {
    RunKeepsInv(size, steps, v);
  }

  /** The token loop never blocks, sends at most twice the cache size, and the lower factory is closed once. */
  lemma TokensBounded(size: nat, steps: seq<Step>, s: State)
    requires Reaches(size, steps, s)
    ensures s.tokens <= size && s.sent <= 2 * size && s.baseClosed <= 1
    ensures s.phase.Sending? && !s.panicked ==> Enabled(s, SendToken) || Enabled(s, SentAll)
  {
    RunKeepsInv(size, steps);
    LiveBounds(s.workers);
  }

  /** Once the tokens are sent, a worker in its select can always take one. */
  lemma NoWorkerStuck(size: nat, steps: seq<Step>, s: State, i: nat)
    requires Reaches(size, steps, s) && (s.phase.Waiting? || s.phase.Shut?) && !s.panicked && Offers(s, i)
    ensures Enabled(s, TakeToken(i))
    ensures s.tokens >= Sum(s.workers, Fresh)
  {
    RunKeepsInv(size, steps);
    LiveBounds(s.workers);
  }

  /** While the group is waited for, somebody it counts can move; and the closer is not among those counted. */
  lemma CloseProgresses(size: nat, steps: seq<Step>, s: State)
    requires Reaches(size, steps, s) && s.phase.Waiting? && !s.panicked
    ensures Enabled(s, Finish) || exists i: nat ::
      i < |s.workers| && Live(s.workers[i]) == 1
      && (Enabled(s, Fetch(i)) || Enabled(s, TakeToken(i)) || Enabled(s, Kill(i)) || Enabled(s, FailedDone(i)))
  {
    RunKeepsInv(size, steps);
    if s.group != 0 {
      var i := SomeLive(s.workers);
      if Offers(s, i) {
        NoWorkerStuck(size, steps, s, i);
      }
    }
  }

  lemma {:induction false} SomeLive(ws: seq<Worker>) returns (i: nat)
    requires Sum(ws, Live) != 0
    ensures i < |ws| && Live(ws[i]) == 1
  {
    var n := |ws| - 1;
    if Live(ws[n]) == 1 {
      i := n;
    } else {
      i := SomeLive(ws[..n]);
    }
  }

  /** When the channel is closed after all workers were started, every worker has gone: nothing is ever sent again. */
  lemma NothingSentAfterClose(size: nat, steps: seq<Step>, s: State, i: nat)
    requires Reaches(size, steps, s) && s.phase.Shut? && !s.early
    ensures !Enabled(s, Deliver(i)) && !Enabled(s, Fetch(i))
    ensures forall v: Vm :: v < s.nextVm ==> v in s.delivered || v in s.killed
  {
    RunKeepsInv(size, steps);
    LiveBounds(s.workers);
    forall v: Vm | v < s.nextVm
      ensures v in s.delivered || v in s.killed
    {
      RunKeepsInv(size, steps, v);
      NoneHeld(s.workers, v);
    }
    NoneHeld(s.workers, 0);
  }

  lemma {:induction false} NoneHeld(ws: seq<Worker>, v: Vm)
    requires Sum(ws, Live) == 0
    ensures Held(ws, v) == 0 && forall i :: 0 <= i < |ws| ==> Live(ws[i]) == 0
  {
    if ws != [] {
      LiveBounds(ws[..|ws| - 1]);
      NoneHeld(ws[..|ws| - 1], v);
    }
  }

  // ---------- closing too early ----------

  /** A send on the closed channel happens only when it was closed before every worker was started. */
  lemma PanicMeansEarly(size: nat, steps: seq<Step>, s: State)
    requires Reaches(size, steps, s) && s.panicked
    ensures s.early
  {
    RunKeepsInv(size, steps);
  }

  lemma Extend(size: nat, steps: seq<Step>, s: State, step: Step)
    requires Reaches(size, steps, s) && Enabled(s, step)
    ensures Reaches(size, steps + [step], Next(s, step))
  {
    assert (steps + [step])[..|steps|] == steps;
  }

  predicate StartedFirst(s: State) {
    s.size == 1 && !s.early && (s.workers == [] ==> s.phase.Open?)
  }

  lemma OneStep(s: State, step: Step)
    requires StartedFirst(s) && |s.workers| <= 1 && Enabled(s, step)
    ensures StartedFirst(Next(s, step))
  {
  }

  /** A cache of one VM is never closed early. */
  lemma {:induction false} OneIsNeverEarly(steps: seq<Step>)
    ensures StartedFirst(Run(1, steps).0)
  {
    if steps != [] {
      var front, step := steps[..|steps| - 1], steps[|steps| - 1];
      OneIsNeverEarly(front);
      RunKeepsInv(1, front);
      if Run(1, front).1 && Enabled(Run(1, front).0, step) {
        OneStep(Run(1, front).0, step);
      }
    }
  }

  /** The run in which the first worker fails and closes the cache before the second is started. */
  function Tokens(n: nat): seq<Step> {
    if n == 0 then [] else Tokens(n - 1) + [SendToken]
  }

  const FIRST_FAILS := [StartWorker, FetchError(0), FailedDone(0), BeginClose(0)]

  lemma FirstFailsRuns(size: nat)
    requires size >= 2
    ensures Reaches(size, FIRST_FAILS, Init(size).(workers := [Calling], phase := Sending))
  {
    var s0 := Init(size);
    var s1 := s0.(workers := [Fetching], group := 1);
    var s2 := s1.(workers := [Failed]);
    var s3 := s2.(workers := [Calling], group := 0);
    assert Reaches(size, [], s0);
    Extend(size, [], s0, StartWorker);
    assert Next(s0, StartWorker) == s1;
    Extend(size, [] + [StartWorker], s1, FetchError(0));
    assert Next(s1, FetchError(0)) == s2;
    Extend(size, [] + [StartWorker] + [FetchError(0)], s2, FailedDone(0));
    assert Next(s2, FailedDone(0)) == s3;
    Extend(size, [] + [StartWorker] + [FetchError(0)] + [FailedDone(0)], s3, BeginClose(0));
    assert [] + [StartWorker] + [FetchError(0)] + [FailedDone(0)] + [BeginClose(0)] == FIRST_FAILS;
  }

  lemma {:induction false} TokensRun(size: nat, n: nat)
    requires size >= 2 && n <= size
    ensures Reaches(size, FIRST_FAILS + Tokens(n), Init(size).(workers := [Calling], phase := Sending, tokens := n, sent := n))
  {
    if n == 0 {
      FirstFailsRuns(size);
      assert FIRST_FAILS + Tokens(0) == FIRST_FAILS;
    } else {
      TokensRun(size, n - 1);
      var s := Init(size).(workers := [Calling], phase := Sending, tokens := n - 1, sent := n - 1);
      Extend(size, FIRST_FAILS + Tokens(n - 1), s, SendToken);
      assert FIRST_FAILS + Tokens(n - 1) + [SendToken] == FIRST_FAILS + Tokens(n);
    }
  }

  /** With two or more workers the cache can be closed early, and then a later worker sends on it. */
  lemma EarlyCloseRun(size: nat) returns (steps: seq<Step>)
    requires size >= 2
    ensures Run(size, steps).1 && Run(size, steps).0.panicked
  {
    TokensRun(size, size);
    var s0 := Init(size).(workers := [Calling], phase := Sending, tokens := size, sent := size);
    steps := FIRST_FAILS + Tokens(size);
    Extend(size, steps, s0, SentAll);
    steps := steps + [SentAll];
    var s1 := Next(s0, SentAll);
    Extend(size, steps, s1, Finish);
    steps := steps + [Finish];
    var s2 := Next(s1, Finish);
    Extend(size, steps, s2, StartWorker);
    steps := steps + [StartWorker];
    var s3 := Next(s2, StartWorker);
    Extend(size, steps, s3, Fetch(1));
    steps := steps + [Fetch(1)];
    var s4 := Next(s3, Fetch(1));
    Extend(size, steps, s4, Deliver(1));
    steps := steps + [Deliver(1)];
  }

  /** Nothing can ever be sent on the closed channel exactly when the cache holds at most one VM. */
  lemma SafeSizes(size: nat)
    requires size >= 1
    ensures (forall steps :: Run(size, steps).1 ==> !Run(size, steps).0.panicked) <==> size == 1
  {
    if size == 1 {
      forall steps
        ensures !Run(1, steps).0.panicked
      {
        OneIsNeverEarly(steps);
        RunKeepsInv(1, steps);
      }
    } else {
      var steps := EarlyCloseRun(size);
    }
  }

  // ---------- the closer's loop ----------

  /** The factory as CloseFactory sees it: between any two of its steps the others move as `schedule` says. */
  class Factory {
    var s: State

    constructor (start: State)
      ensures s == start
    {
      s := start;
    }

    /** Workers, callers and New, which may still be starting workers, make the moves that are possible in their turn. */
    method OthersMove(moves: seq<Step>)
      requires CountInv(s) && s.phase.Sending? && !s.panicked
      modifies this
      ensures CountInv(s) && s.size == old(s.size) && s.sent == old(s.sent) && s.phase.Sending? && !s.panicked
    {
      for k := 0 to |moves|
        invariant CountInv(s) && s.size == old(s.size) && s.sent == old(s.sent) && s.phase.Sending? && !s.panicked
      {
        if !moves[k].SendToken? && !moves[k].SentAll? && Enabled(s, moves[k]) {
          CountKeeps(s, moves[k]);
          s := Next(s, moves[k]);
        }
      }
    }

    /** The token loop ends whatever the others do, having sent at most twice the cache size. */
    method SendTokens(schedule: nat -> seq<Step>) returns (rounds: nat)
      requires CountInv(s) && s.phase.Sending? && !s.panicked
      modifies this
      ensures CountInv(s) && s.phase.Waiting? && s.size == old(s.size)
      ensures s.tokens == s.size && rounds == s.sent - old(s.sent) && s.sent <= 2 * s.size
    {
      rounds := 0;
      while s.tokens < s.size
        invariant CountInv(s) && s.phase.Sending? && !s.panicked && s.size == old(s.size)
        invariant rounds == s.sent - old(s.sent)
        decreases 2 * s.size - s.sent
      {
        CountKeeps(s, SendToken);
        SentBound(s);
        s := Next(s, SendToken);
        rounds := rounds + 1;
        SentBound(s);
        OthersMove(schedule(rounds));
      }
      SentBound(s);
      CountKeeps(s, SentAll);
      s := Next(s, SentAll);
    }
  }

  lemma SentBound(s: State)
    requires CountInv(s)
    ensures s.sent <= 2 * s.size
  {
    LiveBounds(s.workers);
  }
}
