/**
 When the QMP handler stops, told from the messages it has handled; what becomes of the sessions
 submitted to it, and of the commander that is running then.
 */
module QmpStops {
  import opened Bytes
  import opened QmpCommander
  import opened QmpHandler

  // ---------- the messages handled ----------

  /** Message `k` ends the handler: initialisation failed, or after it QEMU shut down, the connection broke, or it was told to quit. */
  predicate StopsAt(ms: seq<Msg>, k: nat) {
    k < |ms|
    && if Msg.Init in ms[..k] then ms[k] == Event(true) || ms[k].Broken? || ms[k].QuitMsg? else ms[k].InitFailed?
  }

  /** The sessions of the messages, in order. */
  function SubmitsIn(ms: seq<Msg>): seq<Session> {
    if ms == [] then []
    else SubmitsIn(ms[..|ms| - 1]) + if ms[|ms| - 1].Submit? then [ms[|ms| - 1].session] else []
  }

  /** What the sandbox must hear of the last message. */
  function AlertFor(initialised: bool, m: Msg): seq<Alert> {
    if initialised then if m == Event(true) then [VmExit] else if m.Broken? then [Interrupted] else []
    else if m.InitFailed? || m.Timeout? then [InitFailure] else []
  }

  function AlertsIn(ms: seq<Msg>): seq<Alert> {
    if ms == [] then []
    else AlertsIn(ms[..|ms| - 1]) + AlertFor(Msg.Init in ms[..|ms| - 1], ms[|ms| - 1])
  }

  ghost predicate LogInv(e: Engine) {
    && (e.handler.mode.Initializing? ==> Msg.Init !in e.handled)
    && (e.handler.mode.Looping? ==> Msg.Init in e.handled)
    && (e.handler.mode.Stopped? <==> exists k: nat :: StopsAt(e.handled, k))
    && e.submitted == SubmitsIn(e.handled) && e.told == AlertsIn(e.handled)
  }

  lemma StopsSnoc(ms: seq<Msg>, m: Msg)
    ensures (exists k: nat :: StopsAt(ms + [m], k)) <==> (exists k: nat :: StopsAt(ms, k)) || StopsAt(ms + [m], |ms|)
  {
    assert (ms + [m])[..|ms|] == ms;
    assert forall k: nat :: k < |ms| ==> (ms + [m])[..k] == ms[..k];
    if k: nat :| StopsAt(ms + [m], k) {
      assert k < |ms| ==> StopsAt(ms, k);
    }
    if k: nat :| StopsAt(ms, k) {
      assert StopsAt(ms + [m], k);
    }
  }

  lemma HandledShape(e: Engine)
    requires e.inbox != []
    ensures var t := Handled(e);
      var m := e.inbox[0];
      && t.handled == e.handled + [m] && t.submitted == e.submitted + (if m.Submit? then [m.session] else [])
      && t.handler.mode == OnMessage(e.handler, m).0.mode
      && t.told == e.told + (match OnMessage(e.handler, m).1.tell case None => [] case Some(a) => [a])
  {
  }

  lemma HandleLogs(e: Engine)
    requires LogInv(e) && Enabled(e, Handle, 0)
    ensures LogInv(Handled(e))
  {
    var m := e.inbox[0];
    HandledShape(e);
    StopsSnoc(e.handled, m);
    assert (e.handled + [m])[..|e.handled|] == e.handled;
  }

  lemma ActLogs(e: Engine, a: Action, i: nat)
    requires LogInv(e) && Enabled(e, a, i)
    ensures LogInv(Act(e, a, i))
  {
    if a.Handle? {
      HandleLogs(e);
    }
  }

  lemma {:induction false} RunLogs(acts: seq<(Action, nat)>)
    requires Run(acts).Some?
    ensures LogInv(Run(acts).value)
  {
    if acts != [] {
      var front := acts[..|acts| - 1];
      RunLogs(front);
      ActLogs(Run(front).value, acts[|acts| - 1].0, acts[|acts| - 1].1);
    }
  }

  /** In every run the handler has stopped if and only if one of the messages it handled is one to stop at, and it loops from initialisation until then. */
  lemma StopsExactly(acts: seq<(Action, nat)>, e: Engine)
    requires Run(acts) == Some(e)
    ensures e.handler.mode.Stopped? <==> exists k: nat :: StopsAt(e.handled, k)
    ensures e.handler.mode.Looping? <==> Msg.Init in e.handled && forall k: nat :: !StopsAt(e.handled, k)
  {
    RunLogs(acts);
  }

  /** In every run each session that was handed in is answered or still in the queue, in that order. */
  lemma SubmitsKept(acts: seq<(Action, nat)>, e: Engine)
    requires Run(acts) == Some(e)
    ensures SubmitsIn(e.handled) == Sessions(e.responded) + e.handler.buf
  {
    RunLogs(acts);
    RunKeepsInv(acts);
  }

  /** In every run the sandbox is told of the shutdown, of the broken connection, and of a failed or late initialisation, and of nothing else. */
  lemma AlertsExactly(acts: seq<(Action, nat)>, e: Engine)
    requires Run(acts) == Some(e)
    ensures e.told == AlertsIn(e.handled)
  {
    RunLogs(acts);
  }

  // ---------- the commander that is left ----------

  /** The handler stopped at a broken connection. */
  predicate BrokeOff(e: Engine) {
    e.handler.mode.Stopped? && e.handled != [] && e.handled[|e.handled| - 1].Broken?
  }

  /** A running commander will be told to quit, or needs no more replies. */
  predicate WillEnd(e: Engine) {
    && |e.workers| <= 1
    && (e.workers != [] ==>
          || !Standing(e.workers[0]).Trying?
          || (e.feedback != [] && e.feedback[|e.feedback| - 1].reply.InternalError?))
  }

  lemma HandleBreaksOff(e: Engine)
    requires EngineInv(e) && Enabled(e, Handle, 0) && BrokeOff(Handled(e))
    ensures WillEnd(Handled(e))
  {
    BrokenShape(e);
    assert |e.workers| <= 1;
  }

  lemma BrokenShape(e: Engine)
    requires Enabled(e, Handle, 0) && BrokeOff(Handled(e))
    ensures e.handler.mode.Looping?
    ensures Handled(e).workers == e.workers && Handled(e).feedback == e.feedback + [Tagged(0, InternalError)]
  {
    assert Handled(e).handled == e.handled + [e.inbox[0]];
  }

  lemma TakesLast(w: Worker, r: Reply)
    requires Standing(w).Trying? && r.InternalError?
    ensures Standing(w.(waiting := false, replies := w.replies + [r])).Quit?
  {
    assert (w.replies + [r])[..|w.replies|] == w.replies;
  }

  lemma TakeEnds(e: Engine, i: nat)
    requires SentInv(e) && BrokeOff(e) && WillEnd(e) && Enabled(e, Take, i)
    ensures WillEnd(Act(e, Take, i))
  {
    var v :| CutOff(e, v);
    var w := e.workers[0];
    assert w == v && Standing(w).Trying?;
    if |e.feedback| == 1 {
      TakesLast(w, e.feedback[0].reply);
    } else {
      assert e.feedback[1..][|e.feedback| - 2] == e.feedback[|e.feedback| - 1];
    }
  }

  lemma CommanderEnds(e: Engine, a: Action, i: nat)
    requires SentInv(e) && BrokeOff(e) && WillEnd(e) && Enabled(e, a, i)
    ensures BrokeOff(Act(e, a, i)) && WillEnd(Act(e, a, i))
  {
    if a.Take? {
      TakeEnds(e, i);
    } else if a.Report? {
      assert Act(e, a, i).workers == [];
    } else if a.Send? {
      assert Standing(Act(e, a, i).workers[0]) == Standing(e.workers[0]);
    }
  }

  lemma {:induction false} RunWillEnd(acts: seq<(Action, nat)>)
    requires Run(acts).Some? && BrokeOff(Run(acts).value)
    ensures WillEnd(Run(acts).value)
  {
    if acts != [] {
      var front, last := acts[..|acts| - 1], acts[|acts| - 1];
      var e := Run(front).value;
      RunKeepsInv(front);
      RunKeepsSent(front);
      RunLogs(front);
      if BrokeOff(e) {
        RunWillEnd(front);
        CommanderEnds(e, last.0, last.1);
      } else {
        OnlyHandleBreaksOff(e, last.0, last.1);
        HandleBreaksOff(e);
      }
    }
  }

  lemma OnlyHandleBreaksOff(e: Engine, a: Action, i: nat)
    requires Enabled(e, a, i) && !BrokeOff(e) && BrokeOff(Act(e, a, i))
    ensures a.Handle?
  {
  }

  /** After a broken connection a commander that waits for a reply always has one to take: none is left behind. */
  lemma BrokenFreesCommander(acts: seq<(Action, nat)>, e: Engine, i: nat)
    requires Run(acts) == Some(e) && BrokeOff(e) && i < |e.workers| && e.workers[i].waiting
    ensures Enabled(e, Take, i)
  {
    RunWillEnd(acts);
    RunKeepsSent(acts);
    var v :| CutOff(e, v);
  }

  /** Otherwise a handler that has stopped gives no more replies: a commander that waits then waits for ever. */
  predicate LeftWaiting(e: Engine, i: nat) {
    e.handler.mode.Stopped? && i < |e.workers| && e.workers[i].waiting && e.feedback == []
  }

  lemma WaitsForEver(e: Engine, i: nat, a: Action, j: nat)
    requires LeftWaiting(e, i) && |e.workers| == 1 && Enabled(e, a, j)
    ensures LeftWaiting(Act(e, a, j), i)
  {
  }
}
