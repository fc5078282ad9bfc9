/** The registry as the agent keeps it: maps updated in place under one lock. */
module ProcessAgent {
  import opened Bytes
  import opened ProcessRegistry

  class Agent {
    var closed: bool
    var lastStreamSeq: nat
    var procs: map<Key, nat>
    var streamOuts: map<nat, nat>
    var containerCreated: set<string>
    var states: seq<Proc>          // the pStates, which procs and streamOuts point into
    ghost var given: map<nat, nat>
    var panicked: bool

    ghost function View(): State
      reads this
    {
      State(closed, lastStreamSeq, procs, streamOuts, containerCreated, states, given, panicked)
    }

    constructor (lastStreamSeq: nat)
      ensures View() == Init(lastStreamSeq)
    {
      closed, this.lastStreamSeq, procs, streamOuts := false, lastStreamSeq, map[], map[];
      containerCreated, states, given, panicked := {}, [], map[], false;
    }

    method AllocStreamSeq() returns (n: nat)
      modifies `lastStreamSeq
      ensures n == old(lastStreamSeq) && lastStreamSeq == n + 1
    {
      n := lastStreamSeq;
      lastStreamSeq := lastStreamSeq + 1;
    }

    /** setupProcessIo on a new pState, which is then registered under `k`. */
    method SetupProcess(k: Key, terminal: bool)
      modifies this
      ensures View() == Register(old(View()), k, terminal)
    {
      var i := |states|;
      var stdio := AllocStreamSeq();
      streamOuts := streamOuts[stdio := i];
      given := given[stdio := i];
      var stderr := 0;
      if !terminal {
        stderr := AllocStreamSeq();
        streamOuts := streamOuts[stderr := i];
        given := given[stderr := i];
      }
      states := states + [Proc(stdio, stderr, None, false, None, 0, [], [], [])];
      procs := procs[k := i];
    }

    method CreateContainer(container: string, terminal: bool) returns (ok: bool)
      requires WellFormed(View()) && !panicked
      modifies this
      ensures View() == Next(old(View()), Create(container, terminal))
      ensures ok <==> container !in old(containerCreated) && Key(container, INIT_PROCESS) !in old(procs)
    {
      if container in containerCreated || Key(container, INIT_PROCESS) in procs {
        return false;
      }
      SetupProcess(Key(container, INIT_PROCESS), terminal);
      containerCreated := containerCreated + {container};
      return true;
    }

    method ExecProcess(k: Key, terminal: bool) returns (ok: bool)
      requires WellFormed(View()) && !panicked
      modifies this
      ensures View() == Next(old(View()), Exec(k, terminal))
      ensures ok <==> k !in old(procs)
    {
      if k in procs {
        return false;
      }
      SetupProcess(k, terminal);
      return true;
    }

    method RemoveProcess(k: Key)
      requires WellFormed(View()) && !panicked
      modifies this
      ensures View() == Next(old(View()), Remove(k))
    {
      if k in procs {
        var ps := states[procs[k]];
        procs := procs - {k};
        if ps.stdio > 0 {
          streamOuts := streamOuts - {ps.stdio};
        }
        if ps.stderr > 0 {
          streamOuts := streamOuts - {ps.stderr};
        }
        assert streamOuts == Removed(old(View()), k).outs;
      }
    }

    /** handleWaitProcess after the state of the process of `k` became `ps`. */
    method HandleWaitProcess(k: Key, ps: Proc)
      requires WellFormed(View()) && k in procs
      modifies `procs, `states
      ensures View() == Update(old(View()), k, ps)
    {
      var i := procs[k];
      if ps.exit.Some? && ps.chan.Some? && ps.outClosed {
        procs := procs - {k};
        var status := ps.exit.value;
        states := states[i := ps.(chan := Some(ps.chan.value + [status]), sent := ps.sent + [status])];
      } else {
        states := states[i := ps];
      }
    }

    method SendProcessAsyncEvent(k: Key, status: int)
      requires WellFormed(View()) && !panicked
      modifies this
      ensures View() == Next(old(View()), Exited(k, status))
    {
      if k in procs {
        HandleWaitProcess(k, states[procs[k]].(exit := Some(status)));
      }
    }

    /** The loop over all processes looks for those with the stdio stream; there is at most one. */
    method SendProcessAsyncEvent4242(stdio: nat, code: int)
      requires Inv(View()) && !panicked
      modifies this
      ensures View() == Next(old(View()), Exited4242(stdio, code))
    {
      ghost var start := View();
      ghost var target := Exit4242(start, stdio, code);
      ghost var hit := false;
      var todo := procs.Keys;
      while todo != {}
        invariant if hit then View() == target else View() == start
        invariant forall k :: HasStdio(start, stdio, k) ==> (k in todo <==> !hit)
        invariant KeptOn(start, View(), todo)
        decreases todo
      {
        var k :| k in todo;
        todo := todo - {k};
        if states[procs[k]].stdio == stdio {
          OnlyStdio(start, stdio, k);
          Exit4242Is(start, stdio, code, k);
          HandleWaitProcess(k, states[procs[k]].(exit := Some(code)));
          UpdateElsewhere(start, k, Lookup(start, k).(exit := Some(code)), todo);
          hit := true;
        }
      }
    }

    method RemoveStreamOut(stream: nat)
      requires Inv(View()) && !panicked
      modifies this
      ensures View() == Next(old(View()), Eof(stream))
    {
      if stream in streamOuts {
        assert OutInv(View(), stream);
        var ps := states[streamOuts[stream]];
        streamOuts := streamOuts - {stream};
        if stream == ps.stdio {
          if ps.stderr > 0 {
            if ps.stderr !in streamOuts {
              panicked := true;
              return;
            }
            streamOuts := streamOuts - {ps.stderr};
          }
          CloseOutput(stream, old(View()));
        }
      }
    }

    /** The loop of removeStreamOut over all processes. */
    method CloseOutput(stdio: nat, ghost before: State)
      requires Inv(before) && View() == before.(outs := streamOuts)
      modifies `procs, `states
      ensures View() == CloseOut(old(View()), stdio)
    {
      ghost var start := View();
      ghost var target := CloseOut(start, stdio);
      ghost var hit := false;
      var todo := procs.Keys;
      while todo != {}
        invariant if hit then View() == target else View() == start
        invariant forall k :: HasStdio(start, stdio, k) ==> (k in todo <==> !hit)
        invariant KeptOn(start, View(), todo)
        decreases todo
      {
        var k :| k in todo;
        todo := todo - {k};
        if states[procs[k]].stdio == stdio {
          CloseTarget(before, start, stdio, k);
          HandleWaitProcess(k, states[procs[k]].(outClosed := true));
          UpdateElsewhere(start, k, Lookup(start, k).(outClosed := true), todo);
          hit := true;
        }
      }
    }

    /** The region of WaitProcess before it blocks on the channel; false: there is no such process. */
    method WaitProcess(k: Key) returns (found: bool)
      requires WellFormed(View()) && !panicked
      modifies this
      ensures View() == Next(old(View()), Wait(k)) && found == (k in old(procs))
    {
      if k !in procs {
        return false;
      }
      var ps := states[procs[k]];
      ps := ps.(waiting := ps.waiting + 1);
      if ps.chan.None? {
        HandleWaitProcess(k, ps.(chan := Some([])));
      } else {
        states := states[procs[k] := ps];
      }
      return true;
    }

    method Close()
      requires Inv(View()) && !panicked
      modifies this
      ensures View() == Next(old(View()), Step.Close)
    {
      if closed {
        return;
      }
      ghost var start := View();
      streamOuts := map[];
      var todo := procs.Keys;
      while todo != {}
        invariant todo <= start.procs.Keys && !closed
        invariant |states| == |start.all|
        invariant forall k :: k in procs ==> k in start.procs && procs[k] == start.procs[k]
        invariant forall k :: k in todo ==> k in procs
        invariant View() == start.(outs := map[], procs := procs, all := states)
        invariant forall i :: 0 <= i < |states| ==>
          states[i] == if ShutBefore(start, todo, i) then Shut(start.all[i]) else start.all[i]
        decreases todo
      {
        var k :| k in todo;
        ShutNext(start, todo, k);
        todo := todo - {k};
        HandleWaitProcess(k, states[procs[k]].(outClosed := true, exit := Some(CLOSED_STATUS)));
      }
      procs := map[];
      closed := true;
      assert states == OnClose(start).all;
    }
  }

  /** The process at `i` was registered at the start, and the loop of Close is past it. */
  predicate ShutBefore(start: State, todo: set<Key>, i: nat) {
    exists k :: k in start.procs && start.procs[k] == i && k !in todo
  }

  lemma ShutNext(start: State, todo: set<Key>, k: Key)
    requires KeysInv(start) && k in start.procs && k in todo
    ensures !ShutBefore(start, todo, start.procs[k])
    ensures forall i: nat :: ShutBefore(start, todo - {k}, i) <==> ShutBefore(start, todo, i) || i == start.procs[k]
  {
    forall i: nat
      ensures ShutBefore(start, todo - {k}, i) <==> ShutBefore(start, todo, i) || i == start.procs[k]
    {
      if ShutBefore(start, todo, i) {
        var j :| j in start.procs && start.procs[j] == i && j !in todo;
        assert j !in todo - {k};
      }
      if i == start.procs[k] {
        assert k !in todo - {k};
      }
    }
  }

  lemma OnlyStdio(s: State, stdio: nat, k: Key)
    requires Inv(s) && HasStdio(s, stdio, k)
    ensures forall k' :: HasStdio(s, stdio, k') ==> k' == k
  {
    forall k' | HasStdio(s, stdio, k')
      ensures k' == k
    {
      OneKey(s, k, k');
    }
  }

  /** The streams do not matter for who has a stdio number. */
  lemma CloseTarget(before: State, start: State, stdio: nat, k: Key)
    requires Inv(before) && start == before.(outs := start.outs) && HasStdio(start, stdio, k)
    ensures CloseOut(start, stdio) == Update(start, k, Lookup(start, k).(outClosed := true))
    ensures forall k' :: HasStdio(start, stdio, k') ==> k' == k
  {
    OnlyStdio(before, stdio, k);
    CloseOutIs(before, start.outs, k);
    forall k' | HasStdio(start, stdio, k')
      ensures k' == k
    {
      assert HasStdio(before, stdio, k');
    }
  }

  /** The processes of `keys` are still registered, as they were at the start. */
  ghost predicate KeptOn(start: State, now: State, keys: set<Key>) {
    && WellFormed(start) && WellFormed(now)
    && (forall k :: k in keys ==> k in start.procs && k in now.procs && Lookup(now, k) == Lookup(start, k))
  }

  lemma UpdateElsewhere(s: State, k: Key, p: Proc, keys: set<Key>)
    requires KeysInv(s) && k in s.procs && keys <= s.procs.Keys - {k}
    ensures KeptOn(s, Update(s, k, p), keys)
  {
  }
}
