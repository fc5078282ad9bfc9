/**
 The QMP engine: one handler takes messages from a channel, keeps the queue of sessions, starts
 a commander for the first of them and passes QEMU's replies on to the running commander.
 The initialiser, the receiver, QEMU, the timer and callers act at any moment.
 */
module QmpHandler {
  import opened Bytes
  import opened QmpCommander

  datatype Session = Session(id: nat, commands: seq<Command>)

  /** A reply tagged with the position of the command it answers in the list of sent commands. */
  datatype Tagged = Tagged(token: nat, reply: Reply)

  /** The end of a session: the replies its commander consumed and its verdict. */
  datatype Ending = Ending(session: Session, replies: seq<Reply>, verdict: Verdict)

  datatype Msg =
    | Init
    | InitFailed
    | Timeout
    | Submit(session: Session)
    | Finish(ending: Ending)
    | FromQemu(item: Tagged)
    | Event(shutdown: bool)
    | Broken
    | QuitMsg

  datatype Mode = Initializing | Looping | Stopped

  /** `crashed`: the Go code would have sliced an empty queue or called a nil responder. */
  datatype Handler = Handler(mode: Mode, buf: seq<Session>, crashed: bool)

  /** What the sandbox is told: QEMU shut down, QMP is broken, or could not be initialised. */
  datatype Alert = VmExit | Interrupted | InitFailure

  /** What handling a message does besides: start a commander, feed the running one, respond, tell the sandbox. */
  datatype Output = Output(start: Option<Session>, feed: Option<Tagged>, respond: Option<Ending>, tell: Option<Alert>)

  const NOTHING := Output(None, None, None, None)

  function First(buf: seq<Session>): Option<Session> {
    if buf == [] then None else Some(buf[0])
  }

  function OnMessage(h: Handler, m: Msg): (Handler, Output) {
    match h.mode
    case Stopped => (h, NOTHING)
    case Initializing =>
      (match m
       case Init => (h.(mode := Looping), NOTHING.(start := First(h.buf)))
       case InitFailed => (h.(mode := Stopped), NOTHING.(tell := Some(InitFailure)))
       case Timeout => (h, NOTHING.(tell := Some(InitFailure)))
       case Submit(s) => (h.(buf := h.buf + [s]), NOTHING)
       case _ => (h, NOTHING))
    case Looping =>
      match m
      case Submit(s) =>
        (h.(buf := h.buf + [s]), if h.buf == [] then NOTHING.(start := Some(s)) else NOTHING)
      case Finish(e) =>
        if h.buf == [] then (h.(crashed := true), NOTHING.(respond := Some(e)))
        else (h.(buf := h.buf[1..]), NOTHING.(respond := Some(e), start := First(h.buf[1..])))
      case InitFailed => (h.(crashed := true), NOTHING)
      case FromQemu(item) => (h, NOTHING.(feed := Some(item)))
      case Broken => (h.(mode := Stopped), NOTHING.(feed := Some(Tagged(0, InternalError)), tell := Some(Interrupted)))
      case Event(shutdown) => if shutdown then (h.(mode := Stopped), NOTHING.(tell := Some(VmExit))) else (h, NOTHING)
      case QuitMsg => (h.(mode := Stopped), NOTHING)
      case _ => (h, NOTHING)
  }

  // ---------- the whole engine ----------

  /** A running commander; `waiting` after it has sent a command, whose token it remembers. */
  datatype Worker = Worker(session: Session, replies: seq<Reply>, waiting: bool, token: nat)

  datatype Engine = Engine(
    handler: Handler, inbox: seq<Msg>, workers: seq<Worker>, feedback: seq<Tagged>,
    pending: seq<nat>,                       // tokens of commands QEMU has not answered
    sent: seq<(Session, nat)>,               // every command written: its session and index
    initialising: bool, receiving: bool,
    submitted: seq<Session>, responded: seq<Ending>,
    handled: seq<Msg>,                       // every message the handler has taken
    told: seq<Alert>)                        // and everything it told the sandbox

  function Start(): Engine {
    Engine(Handler(Initializing, [], false), [], [], [], [], [], true, false, [], [], [], [])
  }

  datatype Action =
    | Call(session: Session)
    | InitDone(ok: bool)
    | TimerFires
    | AskQuit
    | Handle
    | Send
    | Take
    | Report
    | QemuAnswers(reply: Reply)
    | QemuEvent(shutdown: bool)
    | ReceiverFails

  function Standing(w: Worker): Progress {
    After(w.session.commands, w.replies)
  }

  /** Send, Take and Report act on the commander at position `i`. */
  predicate Enabled(e: Engine, a: Action, i: nat) {
    match a
    case Call(_) => true
    case InitDone(_) => e.initialising
    case TimerFires => true
    case AskQuit => true
    case Handle => e.inbox != [] && !e.handler.mode.Stopped?
    case Send => i < |e.workers| && !e.workers[i].waiting && Standing(e.workers[i]).Trying?
    case Take => i < |e.workers| && e.workers[i].waiting && e.feedback != []
    case Report => i < |e.workers| && !e.workers[i].waiting && !Standing(e.workers[i]).Trying?
    case QemuAnswers(r) => e.receiving && e.pending != [] && !r.InternalError?
    case QemuEvent(_) => e.receiving
    case ReceiverFails => e.receiving
  }

  function Emit(e: Engine, m: Msg): Engine {
    e.(inbox := e.inbox + [m])
  }

  function Handled(e: Engine): Engine
    requires e.inbox != []
  {
    var m := e.inbox[0];
    var (h, out) := OnMessage(e.handler, m);
    e.(handler := h, inbox := e.inbox[1..],
       workers := if out.start.Some? then e.workers + [Worker(out.start.value, [], false, 0)] else e.workers,
       feedback := if out.feed.Some? then e.feedback + [out.feed.value] else e.feedback,
       receiving := e.receiving || (m.Init? && e.handler.mode.Initializing?),
       submitted := if m.Submit? then e.submitted + [m.session] else e.submitted,
       responded := if out.respond.Some? then e.responded + [out.respond.value] else e.responded,
       handled := e.handled + [m],
       told := if out.tell.Some? then e.told + [out.tell.value] else e.told)
  }

  function Act(e: Engine, a: Action, i: nat): Engine
    requires Enabled(e, a, i)
  {
    match a
    case Call(s) => Emit(e, Submit(s))
    case InitDone(ok) => Emit(e.(initialising := false), if ok then Init else InitFailed)
    case TimerFires => Emit(e, Timeout)
    case AskQuit => Emit(e, QuitMsg)
    case Handle => Handled(e)
    case Send =>
      var w := e.workers[i];
      var token := |e.sent|;
      e.(workers := e.workers[i := w.(waiting := true, token := token)],
         sent := e.sent + [(w.session, Standing(w).next)], pending := e.pending + [token])
    case Take =>
      var w := e.workers[i];
      e.(workers := e.workers[i := w.(waiting := false, replies := w.replies + [e.feedback[0].reply])],
         feedback := e.feedback[1..])
    case Report =>
      var w := e.workers[i];
      var e1 := e.(workers := e.workers[..i] + e.workers[i + 1..]);
      if Standing(w).Finished? then Emit(e1, Finish(Ending(w.session, w.replies, Standing(w).verdict))) else e1
    case QemuAnswers(r) => Emit(e.(pending := e.pending[1..]), FromQemu(Tagged(e.pending[0], r)))
    case QemuEvent(shutdown) => Emit(e.(receiving := !shutdown), Event(shutdown))
    case ReceiverFails => Emit(e.(receiving := false), Broken)
  }

  function Run(acts: seq<(Action, nat)>): (e: Option<Engine>) {
    if acts == [] then Some(Start())
    else
      var (a, i) := acts[|acts| - 1];
      match Run(acts[..|acts| - 1])
      case None => None
      case Some(e) => if Enabled(e, a, i) then Some(Act(e, a, i)) else None
  }

  // ---------- what is on its way ----------

  /** The session endings on the handler's channel. */
  function Endings(inbox: seq<Msg>): seq<Ending> {
    if inbox == [] then []
    else (if inbox[0].Finish? then [inbox[0].ending] else []) + Endings(inbox[1..])
  }

  /** The replies of QEMU on the handler's channel. */
  function Answers(inbox: seq<Msg>): seq<Tagged> {
    if inbox == [] then []
    else (if inbox[0].FromQemu? then [inbox[0].item] else []) + Answers(inbox[1..])
  }

  /** The initialiser's messages on the handler's channel. */
  function Inits(inbox: seq<Msg>): nat {
    if inbox == [] then 0
    else (if inbox[0].Init? || inbox[0].InitFailed? then 1 else 0) + Inits(inbox[1..])
  }

  lemma {:induction false} ArriveEnding(inbox: seq<Msg>, m: Msg)
    ensures Endings(inbox + [m]) == Endings(inbox) + Endings([m])
  {
    if inbox == [] {
      assert inbox + [m] == [m];
    } else {
      var head := if inbox[0].Finish? then [inbox[0].ending] else [];
      assert (inbox + [m])[1..] == inbox[1..] + [m];
      ArriveEnding(inbox[1..], m);
      assert head + (Endings(inbox[1..]) + Endings([m])) == head + Endings(inbox[1..]) + Endings([m]);
    }
  }

  lemma {:induction false} ArriveAnswer(inbox: seq<Msg>, m: Msg)
    ensures Answers(inbox + [m]) == Answers(inbox) + Answers([m])
  {
    if inbox == [] {
      assert inbox + [m] == [m];
    } else {
      var head := if inbox[0].FromQemu? then [inbox[0].item] else [];
      assert (inbox + [m])[1..] == inbox[1..] + [m];
      ArriveAnswer(inbox[1..], m);
      assert head + (Answers(inbox[1..]) + Answers([m])) == head + Answers(inbox[1..]) + Answers([m]);
    }
  }

  lemma {:induction false} ArriveInit(inbox: seq<Msg>, m: Msg)
    ensures Inits(inbox + [m]) == Inits(inbox) + Inits([m])
  {
    if inbox == [] {
      assert inbox + [m] == [m];
    } else {
      assert (inbox + [m])[1..] == inbox[1..] + [m];
      ArriveInit(inbox[1..], m);
    }
  }

  lemma Arrive(inbox: seq<Msg>, m: Msg)
    ensures Endings(inbox + [m]) == Endings(inbox) + Endings([m])
    ensures Answers(inbox + [m]) == Answers(inbox) + Answers([m])
    ensures Inits(inbox + [m]) == Inits(inbox) + Inits([m])
  {
    ArriveEnding(inbox, m);
    ArriveAnswer(inbox, m);
    ArriveInit(inbox, m);
  }

  function Sessions(es: seq<Ending>): (ss: seq<Session>)
    ensures |ss| == |es|
  {
    seq(|es|, i requires 0 <= i < |es| => es[i].session)
  }

  /** An ending says what its commander's replies amount to. */
  predicate Just(e: Ending) {
    && Consumed(e.session.commands, e.replies)
    && After(e.session.commands, e.replies) == Finished(e.verdict)
  }

  predicate AllJust(es: seq<Ending>) {
    forall i :: 0 <= i < |es| ==> Just(es[i])
  }

  predicate WorkerInv(w: Worker) {
    && Consumed(w.session.commands, w.replies)
    && !Standing(w).Quit?
    && (w.waiting ==> Standing(w).Trying?)
  }

  // ---------- the invariant ----------

  /** Exactly one commander or one ending stands for a non-empty queue, and it is for its first session. */
  predicate Busy(e: Engine) {
    var ends := Endings(e.inbox);
    if e.handler.buf == [] then e.workers == [] && ends == []
    else
      || (|e.workers| == 1 && ends == [] && e.workers[0].session == e.handler.buf[0])
      || (e.workers == [] && |ends| == 1 && ends[0].session == e.handler.buf[0])
  }

  /** Every reply on its way, and every command QEMU still has, is for the attempt the commander waits on. */
  predicate OneReply(e: Engine) {
    var waiting := |e.workers| == 1 && e.workers[0].waiting;
    var replies := e.feedback + Answers(e.inbox);
    && |e.pending| + |replies| == (if waiting then 1 else 0)
    && (waiting ==>
          && var w := e.workers[0];
          && w.token < |e.sent| && Standing(w).Trying? && e.sent[w.token] == (w.session, Standing(w).next)
          && (forall k :: 0 <= k < |e.pending| ==> e.pending[k] == w.token)
          && (forall k :: 0 <= k < |replies| ==> replies[k].token == w.token && !replies[k].reply.InternalError?))
  }

  predicate EngineInv(e: Engine) {
    && !e.handler.crashed
    && e.submitted == Sessions(e.responded) + e.handler.buf
    && AllJust(e.responded)
    && match e.handler.mode
       case Initializing =>
         && e.workers == [] && Endings(e.inbox) == [] && Answers(e.inbox) == [] && e.feedback == [] && e.pending == []
         && !e.receiving && Inits(e.inbox) + (if e.initialising then 1 else 0) <= 1
       case Looping =>
         && Busy(e) && OneReply(e) && AllJust(Endings(e.inbox))
         && (forall i :: 0 <= i < |e.workers| ==> WorkerInv(e.workers[i]))
         && Inits(e.inbox) == 0 && !e.initialising
       case Stopped => true
  }

  lemma HandleInitialising(e: Engine)
    requires EngineInv(e) && Enabled(e, Handle, 0) && e.handler.mode.Initializing?
    ensures EngineInv(Handled(e))
  {
    var m := e.inbox[0];
    var t := Handled(e);
    assert e.inbox == [m] + t.inbox;
    if m.Submit? {
      assert t.submitted == Sessions(t.responded) + t.handler.buf;
    } else if m.Init? {
      assert Inits(t.inbox) == 0;
    }
  }

  lemma HandleSubmit(e: Engine)
    requires EngineInv(e) && Enabled(e, Handle, 0) && e.handler.mode.Looping? && e.inbox[0].Submit?
    ensures EngineInv(Handled(e))
  {
    SubmitShape(e);
    Queued(e, Handled(e), e.inbox[0].session);
  }

  /** A session joins the queue, and is started if it is alone in it. */
  lemma Queued(e: Engine, t: Engine, s: Session)
    requires EngineInv(e) && e.handler.mode.Looping? && t.handler == e.handler.(buf := e.handler.buf + [s])
    requires Endings(t.inbox) == Endings(e.inbox) && Answers(t.inbox) == Answers(e.inbox) && Inits(t.inbox) == Inits(e.inbox)
    requires t.sent == e.sent && t.pending == e.pending && t.feedback == e.feedback && t.initialising == e.initialising
    requires t.responded == e.responded && t.submitted == e.submitted + [s]
    requires t.workers == e.workers + if e.handler.buf == [] then [Worker(s, [], false, 0)] else []
    ensures EngineInv(t)
  {
    assert e.submitted + [s] == Sessions(e.responded) + (e.handler.buf + [s]);
    if e.handler.buf == [] {
      assert t.workers == [Worker(s, [], false, 0)];
    } else {
      assert t.workers == e.workers;
    }
  }

  /** An ending is that of the first session; no commander runs. */
  lemma EndingServed(e: Engine)
    requires EngineInv(e) && e.handler.mode.Looping? && e.inbox != [] && e.inbox[0].Finish?
    ensures var end := e.inbox[0].ending;
      && e.handler.buf != [] && e.workers == [] && Just(end) && end.session == e.handler.buf[0]
      && Endings(e.inbox[1..]) == [] && Answers(e.inbox[1..]) == Answers(e.inbox) && Inits(e.inbox[1..]) == 0
      && e.pending == [] && e.feedback + Answers(e.inbox) == []
  {
    var end := e.inbox[0].ending;
    assert Endings(e.inbox) == [end] + Endings(e.inbox[1..]);
    assert Answers(e.inbox) == [] + Answers(e.inbox[1..]) == Answers(e.inbox[1..]);
    assert Endings(e.inbox)[0] == end;
    assert Just(Endings(e.inbox)[0]);
  }

  lemma RespondedMore(e: Engine, end: Ending)
    requires e.submitted == Sessions(e.responded) + e.handler.buf && AllJust(e.responded)
    requires e.handler.buf != [] && end.session == e.handler.buf[0] && Just(end)
    ensures e.submitted == Sessions(e.responded + [end]) + e.handler.buf[1..] && AllJust(e.responded + [end])
  {
    assert Sessions(e.responded + [end]) == Sessions(e.responded) + [end.session];
    assert e.handler.buf == [end.session] + e.handler.buf[1..];
  }

  lemma HandleFinish(e: Engine)
    requires EngineInv(e) && Enabled(e, Handle, 0) && e.handler.mode.Looping? && e.inbox[0].Finish?
    ensures EngineInv(Handled(e))
  {
    EndingServed(e);
    RespondedMore(e, e.inbox[0].ending);
    FinishShape(e);
    NextServed(Handled(e));
  }

  /** What handling an ending does: the session leaves the queue and the next one gets a commander. */
  lemma FinishShape(e: Engine)
    requires e.handler.mode.Looping? && e.inbox != [] && e.inbox[0].Finish? && e.handler.buf != [] && e.workers == []
    ensures var t := Handled(e);
      && t.handler == Handler(Looping, e.handler.buf[1..], e.handler.crashed) && t.inbox == e.inbox[1..]
      && t.workers == FirstWorker(t.handler.buf)
      && t.responded == e.responded + [e.inbox[0].ending] && t.submitted == e.submitted && t.sent == e.sent
      && t.feedback == e.feedback && t.pending == e.pending && t.initialising == e.initialising
  {
  }

  function FirstWorker(buf: seq<Session>): seq<Worker> {
    if buf == [] then [] else [Worker(buf[0], [], false, 0)]
  }

  /** With nothing on its way and a new commander for the first session, if there is one, all is well. */
  lemma NextServed(t: Engine)
    requires !t.handler.crashed && t.handler.mode.Looping? && t.workers == FirstWorker(t.handler.buf)
    requires t.submitted == Sessions(t.responded) + t.handler.buf && AllJust(t.responded)
    requires Endings(t.inbox) == [] && Inits(t.inbox) == 0 && !t.initialising
    requires t.pending == [] && t.feedback + Answers(t.inbox) == []
    ensures EngineInv(t)
  {
    assert t.handler.buf != [] ==> WorkerInv(t.workers[0]);
  }

  lemma HandleReply(e: Engine)
    requires EngineInv(e) && Enabled(e, Handle, 0) && e.handler.mode.Looping? && e.inbox[0].FromQemu?
    ensures EngineInv(Handled(e))
  {
    var t := Handled(e);
    assert Endings(e.inbox) == Endings(t.inbox);
    assert Answers(e.inbox) == [e.inbox[0].item] + Answers(t.inbox);
    assert t.feedback + Answers(t.inbox) == e.feedback + Answers(e.inbox);
  }

  lemma HandleOther(e: Engine)
    requires EngineInv(e) && Enabled(e, Handle, 0) && e.handler.mode.Looping?
    requires !e.inbox[0].Submit? && !e.inbox[0].Finish? && !e.inbox[0].FromQemu?
    ensures EngineInv(Handled(e))
  {
    QuietShape(e);
    SameBusiness(e, Handled(e));
  }

  lemma QuietShape(e: Engine)
    requires Enabled(e, Handle, 0) && e.handler.mode.Looping? && Inits(e.inbox) == 0
    requires !e.inbox[0].Submit? && !e.inbox[0].Finish? && !e.inbox[0].FromQemu?
    ensures var t := Handled(e);
      && Endings(t.inbox) == Endings(e.inbox) && Answers(t.inbox) == Answers(e.inbox) && Inits(t.inbox) == 0
      && t.workers == e.workers && t.sent == e.sent && t.pending == e.pending && t.initialising == e.initialising
      && t.submitted == e.submitted && t.responded == e.responded
      && t.handler.buf == e.handler.buf && t.handler.crashed == e.handler.crashed && !t.handler.mode.Initializing?
      && (t.handler.mode.Looping? ==> t.feedback == e.feedback)
  {
    assert Endings(e.inbox) == [] + Endings(e.inbox[1..]);
    assert Answers(e.inbox) == [] + Answers(e.inbox[1..]);
  }

  lemma SameBusiness(e: Engine, t: Engine)
    requires EngineInv(e) && e.handler.mode.Looping? && !t.handler.mode.Initializing?
    requires Endings(t.inbox) == Endings(e.inbox) && Answers(t.inbox) == Answers(e.inbox) && Inits(t.inbox) == 0
    requires t.workers == e.workers && t.sent == e.sent && t.pending == e.pending && t.initialising == e.initialising
    requires t.submitted == e.submitted && t.responded == e.responded
    requires t.handler.buf == e.handler.buf && t.handler.crashed == e.handler.crashed
    requires t.handler.mode.Looping? ==> t.feedback == e.feedback
    ensures EngineInv(t)
  {
  }

  lemma HandleKeeps(e: Engine)
    requires EngineInv(e) && Enabled(e, Handle, 0)
    ensures EngineInv(Handled(e))
  {
    if e.handler.mode.Initializing? {
      HandleInitialising(e);
    } else if e.inbox[0].Submit? {
      HandleSubmit(e);
    } else if e.inbox[0].Finish? {
      HandleFinish(e);
    } else if e.inbox[0].FromQemu? {
      HandleReply(e);
    } else {
      HandleOther(e);
    }
  }

  /** A message that is neither an ending nor a reply nor the initialiser's changes nothing that matters. */
  lemma EmitKeeps(e: Engine, m: Msg)
    requires EngineInv(e) && (m.Timeout? || m.Submit? || m.Event? || m.Broken? || m.QuitMsg?)
    ensures EngineInv(Emit(e, m))
  {
    Arrive(e.inbox, m);
    assert Endings([m]) == [] && Answers([m]) == [] && Inits([m]) == 0;
    assert Endings(e.inbox + [m]) == Endings(e.inbox) && Answers(e.inbox + [m]) == Answers(e.inbox);
  }

  lemma InitDoneKeeps(e: Engine, ok: bool)
    requires EngineInv(e) && e.initialising
    ensures EngineInv(Act(e, InitDone(ok), 0))
  {
    var m := if ok then Init else InitFailed;
    Arrive(e.inbox, m);
    assert Endings([m]) == [] && Answers([m]) == [] && Inits([m]) == 1;
  }

  lemma ReceiverStops(e: Engine, m: Msg, receiving: bool)
    requires EngineInv(e) && e.receiving && (m.Event? || m.Broken?)
    ensures EngineInv(Emit(e.(receiving := receiving), m))
  {
    EmitKeeps(e.(receiving := receiving), m);
  }

  lemma QemuAnswerKeeps(e: Engine, r: Reply)
    requires EngineInv(e) && Enabled(e, QemuAnswers(r), 0)
    ensures EngineInv(Act(e, QemuAnswers(r), 0))
  {
    var item := Tagged(e.pending[0], r);
    var t := Act(e, QemuAnswers(r), 0);
    ReplyArrives(e.inbox, item);
    if e.handler.mode.Looping? {
      ReplyMoves(e, t, item);
    }
  }

  lemma ReplyArrives(inbox: seq<Msg>, item: Tagged)
    ensures var more := inbox + [FromQemu(item)];
      Endings(more) == Endings(inbox) && Answers(more) == Answers(inbox) + [item] && Inits(more) == Inits(inbox)
  {
    var m := FromQemu(item);
    Arrive(inbox, m);
    assert Endings([m]) == [] && Answers([m]) == [item] && Inits([m]) == 0;
    assert Endings(inbox) + [] == Endings(inbox);
  }

  /** What QEMU had to do is now on its way. */
  lemma ReplyMoves(e: Engine, t: Engine, item: Tagged)
    requires OneReply(e) && e.pending != [] && item.token == e.pending[0] && !item.reply.InternalError?
    requires t.workers == e.workers && t.sent == e.sent && t.feedback == e.feedback && t.pending == e.pending[1..]
    requires Answers(t.inbox) == Answers(e.inbox) + [item]
    ensures OneReply(t)
  {
    assert t.feedback + Answers(t.inbox) == (e.feedback + Answers(e.inbox)) + [item];
  }

  lemma SendKeeps(e: Engine, i: nat)
    requires EngineInv(e) && Enabled(e, Send, i)
    ensures EngineInv(Act(e, Send, i))
  {
    var t := Act(e, Send, i);
    if e.handler.mode.Looping? {
      assert i == 0 && t.workers[0].token == |e.sent|;
      assert e.pending == [] && t.pending == [|e.sent|];
    }
  }

  lemma WorkerTakes(w: Worker, r: Reply)
    requires WorkerInv(w) && w.waiting && !r.InternalError?
    ensures WorkerInv(w.(waiting := false, replies := w.replies + [r]))
  {
    var all := w.replies + [r];
    assert all[..|w.replies|] == w.replies;
    ConsumedSnoc(w.session.commands, all, |w.replies|);
    assert all[..|all|] == all;
  }

  lemma TakeKeeps(e: Engine, i: nat)
    requires EngineInv(e) && Enabled(e, Take, i)
    ensures EngineInv(Act(e, Take, i))
  {
    var t := Act(e, Take, i);
    if e.handler.mode.Looping? {
      assert i == 0;
      var w := e.workers[0];
      assert (e.feedback + Answers(e.inbox))[0] == e.feedback[0];
      WorkerTakes(w, e.feedback[0].reply);
      assert t.feedback == [] && Answers(t.inbox) == [];
    }
  }

  lemma ReportKeeps(e: Engine, i: nat)
    requires EngineInv(e) && Enabled(e, Report, i)
    ensures EngineInv(Act(e, Report, i))
  {
    var t := Act(e, Report, i);
    var w := e.workers[i];
    if e.handler.mode.Looping? {
      assert i == 0 && t.workers == [];
      var end := Ending(w.session, w.replies, Standing(w).verdict);
      Arrive(e.inbox, Finish(end));
      assert Endings([Finish(end)]) == [end] && Answers([Finish(end)]) == [] && Inits([Finish(end)]) == 0;
      assert Endings(t.inbox) == [end];
      assert Answers(t.inbox) == Answers(e.inbox);
    }
  }

  lemma ActKeepsInv(e: Engine, a: Action, i: nat)
    requires EngineInv(e) && Enabled(e, a, i)
    ensures EngineInv(Act(e, a, i))
  {
    match a
    case Call(s) => EmitKeeps(e, Submit(s));
    case InitDone(ok) => InitDoneKeeps(e, ok);
    case TimerFires => EmitKeeps(e, Timeout);
    case AskQuit => EmitKeeps(e, QuitMsg);
    case Handle => HandleKeeps(e);
    case Send => SendKeeps(e, i);
    case Take => TakeKeeps(e, i);
    case Report => ReportKeeps(e, i);
    case QemuAnswers(r) => QemuAnswerKeeps(e, r);
    case QemuEvent(shutdown) => ReceiverStops(e, Event(shutdown), !shutdown);
    case ReceiverFails => ReceiverStops(e, Broken, false);
  }

  lemma {:induction false} RunKeepsInv(acts: seq<(Action, nat)>)
    requires Run(acts).Some?
    ensures EngineInv(Run(acts).value)
  {
    if acts != [] {
      var front := acts[..|acts| - 1];
      RunKeepsInv(front);
      ActKeepsInv(Run(front).value, acts[|acts| - 1].0, acts[|acts| - 1].1);
    }
  }

  // ---------- whole runs ----------

  /** The handler never slices an empty queue or calls a missing responder, in any interleaving. */
  lemma NeverCrashes(acts: seq<(Action, nat)>, e: Engine)
    requires Run(acts) == Some(e)
    ensures !e.handler.crashed
  {
    RunKeepsInv(acts);
  }

  lemma BusyMeans(e: Engine)
    requires Busy(e)
    ensures |e.workers| + |Endings(e.inbox)| == if e.handler.buf == [] then 0 else 1
    ensures forall i :: 0 <= i < |e.workers| ==> e.handler.buf != [] && e.workers[i].session == e.handler.buf[0]
    ensures forall i :: 0 <= i < |Endings(e.inbox)| ==>
      e.handler.buf != [] && Endings(e.inbox)[i].session == e.handler.buf[0]
  {
  }

  /** In the main loop commanders never coexist, and a queue is non-empty exactly when its first session is being served. */
  lemma OneCommander(acts: seq<(Action, nat)>, e: Engine)
    requires Run(acts) == Some(e) && e.handler.mode.Looping?
    ensures |e.workers| + |Endings(e.inbox)| == if e.handler.buf == [] then 0 else 1
    ensures forall i :: 0 <= i < |e.workers| ==> e.handler.buf != [] && e.workers[i].session == e.handler.buf[0]
    ensures forall i :: 0 <= i < |Endings(e.inbox)| ==>
      e.handler.buf != [] && Endings(e.inbox)[i].session == e.handler.buf[0]
  {
    RunKeepsInv(acts);
    BusyMeans(e);
  }

  /** Sessions are responded to in submission order, those queued during initialisation included, each at most once. */
  lemma InOrder(acts: seq<(Action, nat)>, e: Engine)
    requires Run(acts) == Some(e)
    ensures Sessions(e.responded) <= e.submitted
    ensures e.submitted == Sessions(e.responded) + e.handler.buf
  {
    RunKeepsInv(acts);
  }

  lemma TakenReply(e: Engine, i: nat)
    requires Busy(e) && OneReply(e) && i < |e.workers| && e.workers[i].waiting && e.feedback != []
    ensures var w := e.workers[i];
      && e.feedback[0].token == w.token < |e.sent|
      && Standing(w).Trying? && e.sent[w.token] == (w.session, Standing(w).next)
      && |e.feedback| == 1 && e.pending == [] && Answers(e.inbox) == []
  {
    assert (e.feedback + Answers(e.inbox))[0] == e.feedback[0];
  }

  /** The reply a commander takes answers the attempt it has just made, whatever happened in between. */
  lemma ReplyIsForLastAttempt(acts: seq<(Action, nat)>, e: Engine, i: nat)
    requires Run(acts) == Some(e) && e.handler.mode.Looping? && Enabled(e, Take, i)
    ensures var w := e.workers[i];
      && e.feedback[0].token == w.token < |e.sent|
      && Standing(w).Trying? && e.sent[w.token] == (w.session, Standing(w).next)
      && |e.feedback| == 1 && e.pending == [] && Answers(e.inbox) == []
  {
    RunKeepsInv(acts);
    TakenReply(e, i);
  }

  // ---------- what was written to QEMU ----------

  /** The writes of one session. */
  function Writes(s: Session, replies: seq<Reply>): (log: seq<(Session, nat)>)
    ensures |log| == |Written(s.commands, replies)|
  {
    Tag(s, Written(s.commands, replies))
  }

  function Tag(s: Session, sent: seq<nat>): (log: seq<(Session, nat)>)
    ensures |log| == |sent|
  {
    seq(|sent|, i requires 0 <= i < |sent| => (s, sent[i]))
  }

  /** The writes of the sessions that were answered, one session after the other. */
  function AllWrites(es: seq<Ending>): seq<(Session, nat)> {
    if es == [] then []
    else AllWrites(es[..|es| - 1]) + Writes(es[|es| - 1].session, es[|es| - 1].replies)
  }

  /** What a commander has written, the attempt it waits on included. */
  function WorkerWrites(w: Worker): seq<(Session, nat)> {
    Writes(w.session, w.replies) + Tag(w.session, if w.waiting then Outstanding(Standing(w)) else [])
  }

  /** The writes of the session that is being served. */
  function Current(e: Engine): seq<(Session, nat)> {
    if |e.workers| == 1 then WorkerWrites(e.workers[0])
    else if |Endings(e.inbox)| == 1 then Writes(Endings(e.inbox)[0].session, Endings(e.inbox)[0].replies)
    else []
  }

  /** QEMU was sent the writes of the answered sessions and of the one being served, and nothing else. */
  ghost predicate SentInv(e: Engine) {
    match e.handler.mode
    case Initializing => e.sent == AllWrites(e.responded)
    case Looping => e.sent == AllWrites(e.responded) + Current(e)
    case Stopped => exists w :: CutOff(e, w)
  }

  /** A commander, also one that was told to quit: it consumed no reply it did not wait for. */
  predicate Honest(w: Worker) {
    Consumed(w.session.commands, w.replies) && (w.waiting ==> Standing(w).Trying?)
  }

  /** The handler has stopped: after the answered sessions' writes come those of `w`, the commander it cut off, for the first session in the queue. */
  predicate CutOff(e: Engine, w: Worker) {
    && Honest(w) && e.sent == AllWrites(e.responded) + WorkerWrites(w)
    && (e.workers == [] || e.workers == [w])
    && (e.workers != [] || WorkerWrites(w) != [] ==> e.handler.buf != [] && w.session == e.handler.buf[0])
  }

  lemma WritesSnoc(s: Session, replies: seq<Reply>, r: Reply)
    ensures Writes(s, replies + [r]) == Writes(s, replies) + Tag(s, Outstanding(After(s.commands, replies)))
  {
    WrittenSnoc(s.commands, replies, r);
  }

  /** Steps that leave the running commander, the endings and what was written alone. */
  lemma SameSent(e: Engine, t: Engine)
    requires SentInv(e) && t.sent == e.sent && t.responded == e.responded && t.handler.mode == e.handler.mode
    requires t.workers == e.workers && Endings(t.inbox) == Endings(e.inbox)
    requires e.handler.mode.Stopped? ==> t.handler.buf == e.handler.buf
    ensures SentInv(t)
  {
    if e.handler.mode.Stopped? {
      var w :| CutOff(e, w);
      assert CutOff(t, w);
    }
  }

  /** A commander that is cut off is the running one, or the one whose ending is not handled any more, or none has started. */
  lemma StopCuts(e: Engine, t: Engine)
    requires EngineInv(e) && SentInv(e) && !e.handler.mode.Stopped? && t.handler == e.handler.(mode := Stopped)
    requires t.sent == e.sent && t.responded == e.responded && t.workers == e.workers
    ensures SentInv(t)
  {
    if e.handler.mode.Looping? && |e.workers| == 1 {
      assert CutOff(t, e.workers[0]);
    } else if e.handler.mode.Looping? && |Endings(e.inbox)| == 1 {
      var end := Endings(e.inbox)[0];
      var w := Worker(end.session, end.replies, false, 0);
      assert WorkerWrites(w) == Writes(end.session, end.replies) + [] == Writes(end.session, end.replies);
      assert CutOff(t, w);
    } else {
      var w := Worker(Session(0, []), [], false, 0);
      assert WorkerWrites(w) == [];
      assert e.sent + [] == e.sent;
      assert CutOff(t, w);
    }
  }

  /** Once the handler has stopped, its commander may still write, take a buffered reply and end. */
  lemma CutOffSends(e: Engine, w: Worker, i: nat)
    requires e.handler.mode.Stopped? && CutOff(e, w) && Enabled(e, Send, i)
    ensures SentInv(Act(e, Send, i))
  {
    var next := w.(waiting := true, token := |e.sent|);
    WorkerSends(w, |e.sent|);
    Assoc(AllWrites(e.responded), WorkerWrites(w), [(w.session, Standing(w).next)]);
    assert Act(e, Send, i).workers == [next];
    assert CutOff(Act(e, Send, i), next);
  }

  lemma Assoc<T>(a: seq<T>, b: seq<T>, c: seq<T>)
    ensures (a + b) + c == a + (b + c)
  {
  }

  lemma CutOffTakes(e: Engine, w: Worker, i: nat)
    requires e.handler.mode.Stopped? && CutOff(e, w) && Enabled(e, Take, i)
    ensures SentInv(Act(e, Take, i))
  {
    var r := e.feedback[0].reply;
    var next := w.(waiting := false, replies := w.replies + [r]);
    HonestTakes(w, r);
    assert Act(e, Take, i).workers == [next];
    assert CutOff(Act(e, Take, i), next);
  }

  lemma HonestTakes(w: Worker, r: Reply)
    requires Honest(w) && w.waiting
    ensures var next := w.(waiting := false, replies := w.replies + [r]); Honest(next) && WorkerWrites(next) == WorkerWrites(w)
  {
    WritesSnoc(w.session, w.replies, r);
    assert (w.replies + [r])[..|w.replies|] == w.replies;
    assert Writes(w.session, w.replies + [r]) + [] == Writes(w.session, w.replies + [r]);
  }

  lemma CutOffReports(e: Engine, w: Worker, i: nat)
    requires e.handler.mode.Stopped? && CutOff(e, w) && Enabled(e, Report, i)
    ensures SentInv(Act(e, Report, i))
  {
    assert Act(e, Report, i).workers == [];
    assert CutOff(Act(e, Report, i), w);
  }

  lemma WorkerSends(w: Worker, token: nat)
    requires !w.waiting && Standing(w).Trying?
    ensures WorkerWrites(w.(waiting := true, token := token)) == WorkerWrites(w) + [(w.session, Standing(w).next)]
  {
  }

  lemma SendSent(e: Engine, i: nat)
    requires EngineInv(e) && SentInv(e) && Enabled(e, Send, i)
    ensures SentInv(Act(e, Send, i))
  {
    var t := Act(e, Send, i);
    var w := e.workers[i];
    if e.handler.mode.Looping? {
      assert i == 0 && t.workers == [w.(waiting := true, token := |e.sent|)];
      WorkerSends(w, |e.sent|);
      Assoc(AllWrites(e.responded), Current(e), [(w.session, Standing(w).next)]);
    } else if e.handler.mode.Stopped? {
      var v :| CutOff(e, v);
      CutOffSends(e, v, i);
    }
  }

  lemma TakeSent(e: Engine, i: nat)
    requires EngineInv(e) && SentInv(e) && Enabled(e, Take, i)
    ensures SentInv(Act(e, Take, i))
  {
    var t := Act(e, Take, i);
    var w := e.workers[i];
    if e.handler.mode.Looping? {
      assert i == 0;
      WritesSnoc(w.session, w.replies, e.feedback[0].reply);
      assert Current(t) == Writes(w.session, w.replies + [e.feedback[0].reply]) + Tag(w.session, []);
      assert Current(t) == Current(e);
    } else if e.handler.mode.Stopped? {
      var v :| CutOff(e, v);
      CutOffTakes(e, v, i);
    }
  }

  lemma ReportSent(e: Engine, i: nat)
    requires EngineInv(e) && SentInv(e) && Enabled(e, Report, i)
    ensures SentInv(Act(e, Report, i))
  {
    var t := Act(e, Report, i);
    var w := e.workers[i];
    if e.handler.mode.Looping? {
      assert i == 0 && t.workers == [] && Endings(e.inbox) == [];
      var end := Ending(w.session, w.replies, Standing(w).verdict);
      ArriveEnding(e.inbox, Finish(end));
      assert Endings([Finish(end)]) == [end];
      assert Endings(t.inbox) == [end];
      assert Current(e) == Writes(w.session, w.replies) + Tag(w.session, []) == Current(t);
    } else if e.handler.mode.Stopped? {
      var v :| CutOff(e, v);
      CutOffReports(e, v, i);
    }
  }

  lemma FinishSent(e: Engine)
    requires EngineInv(e) && SentInv(e) && e.handler.mode.Looping? && e.inbox != [] && e.inbox[0].Finish?
    ensures SentInv(Handled(e))
  {
    EndingServed(e);
    FinishShape(e);
    AnswerSent(e, Handled(e), e.inbox[0].ending);
  }

  lemma AnswerSent(e: Engine, t: Engine, end: Ending)
    requires SentInv(e) && e.handler.mode.Looping? && t.handler.mode.Looping? && t.sent == e.sent
    requires e.workers == [] && e.inbox != [] && e.inbox[0] == Finish(end) && Endings(e.inbox[1..]) == []
    requires t.inbox == e.inbox[1..] && t.responded == e.responded + [end] && |t.workers| <= 1
    requires forall i :: 0 <= i < |t.workers| ==> t.workers[i].replies == [] && !t.workers[i].waiting
    ensures SentInv(t)
  {
    EndingCurrent(e, end);
    AnsweredMore(e.responded, end);
    FreshCurrent(t);
    assert e.sent + [] == e.sent;
  }

  lemma EndingCurrent(e: Engine, end: Ending)
    requires e.workers == [] && e.inbox != [] && e.inbox[0] == Finish(end) && Endings(e.inbox[1..]) == []
    ensures Current(e) == Writes(end.session, end.replies)
  {
    assert Endings(e.inbox) == [end] + [] == [end];
  }

  lemma AnsweredMore(es: seq<Ending>, end: Ending)
    ensures AllWrites(es + [end]) == AllWrites(es) + Writes(end.session, end.replies)
  {
    assert (es + [end])[..|es|] == es;
  }

  /** A commander that has just been started has written nothing. */
  lemma FreshCurrent(t: Engine)
    requires |t.workers| <= 1 && (forall i :: 0 <= i < |t.workers| ==> t.workers[i].replies == [] && !t.workers[i].waiting)
    requires Endings(t.inbox) == []
    ensures Current(t) == []
  {
  }

  lemma HandleSent(e: Engine)
    requires EngineInv(e) && SentInv(e) && Enabled(e, Handle, 0)
    ensures SentInv(Handled(e))
  {
    if e.inbox[0].Finish? && e.handler.mode.Looping? {
      FinishSent(e);
    } else {
      if e.handler.mode.Initializing? {
        InitSent(e);
      } else if e.inbox[0].Submit? {
        SubmitSent(e);
      } else {
        OtherSent(e);
      }
    }
  }

  lemma OtherSent(e: Engine)
    requires EngineInv(e) && SentInv(e) && Enabled(e, Handle, 0)
    requires e.handler.mode.Looping? && !e.inbox[0].Submit? && !e.inbox[0].Finish?
    ensures SentInv(Handled(e))
  {
    OtherShape(e);
    if Handled(e).handler.mode.Looping? {
      SameSent(e, Handled(e));
    } else {
      StopCuts(e, Handled(e));
    }
  }

  lemma OtherShape(e: Engine)
    requires Enabled(e, Handle, 0) && e.handler.mode.Looping? && !e.inbox[0].Submit? && !e.inbox[0].Finish?
    ensures var t := Handled(e);
      && t.workers == e.workers && t.sent == e.sent && t.responded == e.responded && Endings(t.inbox) == Endings(e.inbox)
      && t.handler.buf == e.handler.buf && (!e.inbox[0].InitFailed? ==> t.handler.crashed == e.handler.crashed)
      && (t.handler.mode.Looping? || t.handler.mode.Stopped?)
  {
    assert Endings(e.inbox) == [] + Endings(e.inbox[1..]);
  }

  lemma InitSent(e: Engine)
    requires EngineInv(e) && SentInv(e) && Enabled(e, Handle, 0) && e.handler.mode.Initializing?
    ensures SentInv(Handled(e))
  {
    var t := Handled(e);
    assert Endings(e.inbox) == [] && Endings(t.inbox) == [];
    if t.handler.mode.Looping? {
      FreshCurrent(t);
      assert e.sent + [] == e.sent;
    } else if t.handler.mode.Stopped? {
      StopCuts(e, t);
    }
  }

  lemma SubmitShape(e: Engine)
    requires Enabled(e, Handle, 0) && e.handler.mode.Looping? && e.inbox[0].Submit?
    ensures var t := Handled(e);
      && t.handler == e.handler.(buf := e.handler.buf + [e.inbox[0].session])
      && t.sent == e.sent && t.pending == e.pending && t.feedback == e.feedback && t.initialising == e.initialising
      && t.responded == e.responded && t.submitted == e.submitted + [e.inbox[0].session]
      && Endings(t.inbox) == Endings(e.inbox) && Answers(t.inbox) == Answers(e.inbox) && Inits(t.inbox) == Inits(e.inbox)
      && t.workers == e.workers + if e.handler.buf == [] then [Worker(e.inbox[0].session, [], false, 0)] else []
  {
    assert Endings(e.inbox) == [] + Endings(e.inbox[1..]);
    assert Answers(e.inbox) == [] + Answers(e.inbox[1..]);
  }

  lemma SubmitSent(e: Engine)
    requires Busy(e) && SentInv(e) && Enabled(e, Handle, 0) && e.handler.mode.Looping? && e.inbox[0].Submit?
    ensures SentInv(Handled(e))
  {
    SubmitShape(e);
    if e.handler.buf == [] {
      FreshCurrent(e);
      FreshCurrent(Handled(e));
    } else {
      SameSent(e, Handled(e));
    }
  }

  lemma EmitSent(e: Engine, m: Msg)
    requires SentInv(e) && !m.Finish?
    ensures SentInv(Emit(e, m))
  {
    ArriveEnding(e.inbox, m);
    assert Endings([m]) == [];
    assert Endings(e.inbox) + [] == Endings(e.inbox);
    SameSent(e, Emit(e, m));
  }

  lemma ActKeepsSent(e: Engine, a: Action, i: nat)
    requires EngineInv(e) && SentInv(e) && Enabled(e, a, i)
    ensures SentInv(Act(e, a, i))
  {
    match a
    case Call(s) => EmitSent(e, Submit(s));
    case InitDone(ok) =>
      SameSent(e, e.(initialising := false));
      EmitSent(e.(initialising := false), if ok then Init else InitFailed);
    case TimerFires => EmitSent(e, Timeout);
    case AskQuit => EmitSent(e, QuitMsg);
    case Handle => HandleSent(e);
    case Send => SendSent(e, i);
    case Take => TakeSent(e, i);
    case Report => ReportSent(e, i);
    case QemuAnswers(r) =>
      SameSent(e, e.(pending := e.pending[1..]));
      EmitSent(e.(pending := e.pending[1..]), FromQemu(Tagged(e.pending[0], r)));
    case QemuEvent(shutdown) =>
      SameSent(e, e.(receiving := !shutdown));
      EmitSent(e.(receiving := !shutdown), Event(shutdown));
    case ReceiverFails =>
      SameSent(e, e.(receiving := false));
      EmitSent(e.(receiving := false), Broken);
  }

  lemma {:induction false} RunKeepsSent(acts: seq<(Action, nat)>)
    requires Run(acts).Some?
    ensures SentInv(Run(acts).value)
  {
    if acts != [] {
      var front := acts[..|acts| - 1];
      RunKeepsSent(front);
      RunKeepsInv(front);
      ActKeepsSent(Run(front).value, acts[|acts| - 1].0, acts[|acts| - 1].1);
    }
  }

  /** What QEMU was sent beyond the answered sessions is what one commander has written. */
  predicate Beyond(e: Engine, w: Worker) {
    Honest(w) && e.sent == AllWrites(e.responded) + WorkerWrites(w)
  }

  lemma OneBeyond(e: Engine) returns (w: Worker)
    requires EngineInv(e) && SentInv(e)
    ensures Beyond(e, w)
  {
    w := Worker(Session(0, []), [], false, 0);
    assert WorkerWrites(w) == [] && e.sent + [] == e.sent;
    if e.handler.mode.Stopped? {
      w :| CutOff(e, w);
    } else if e.handler.mode.Looping? && |e.workers| == 1 {
      w := e.workers[0];
    } else if e.handler.mode.Looping? && |Endings(e.inbox)| == 1 {
      var end := Endings(e.inbox)[0];
      w := Worker(end.session, end.replies, false, 0);
      assert WorkerWrites(w) == Writes(end.session, end.replies) + [] == Writes(end.session, end.replies);
    }
  }

  lemma HonestBounded(w: Worker, s: Session, j: nat)
    requires Honest(w)
    ensures multiset(WorkerWrites(w))[(s, j)] <= 3
  {
    var written := Written(w.session.commands, w.replies);
    var next := Outstanding(Standing(w));
    AttemptsBounded(w.session.commands, w.replies, j);
    assert multiset(written + next) == multiset(written) + multiset(next);
    var more := if w.waiting then next else [];
    TagCounts(w.session, written, j);
    TagCounts(w.session, more, j);
    if s != w.session {
      TagOthers(w.session, written, s, j);
      TagOthers(w.session, more, s, j);
    }
  }

  lemma TagOthers(s: Session, sent: seq<nat>, other: Session, j: nat)
    requires other != s
    ensures multiset(Tag(s, sent))[(other, j)] == 0
  {
    assert (other, j) !in Tag(s, sent);
  }

  lemma BeyondBounded(e: Engine, w: Worker)
    requires Beyond(e, w)
    ensures AllWrites(e.responded) <= e.sent
    ensures forall s: Session, j: nat :: multiset(e.sent[|AllWrites(e.responded)|..])[(s, j)] <= 3
  {
    assert e.sent[|AllWrites(e.responded)|..] == WorkerWrites(w);
    forall s: Session, j: nat
      ensures multiset(WorkerWrites(w))[(s, j)] <= 3
    {
      HonestBounded(w, s, j);
    }
  }

  /**
   In every run QEMU was sent the writes of the answered sessions, in order, then those of the one being served,
   or of the one the handler cut off when it stopped; of that one too no command was written more than three times.
   */
  lemma SentInOrder(acts: seq<(Action, nat)>, e: Engine)
    requires Run(acts) == Some(e)
    ensures AllWrites(e.responded) <= e.sent
    ensures e.handler.mode.Initializing? ==> e.sent == AllWrites(e.responded)
    ensures e.handler.mode.Looping? ==> e.sent == AllWrites(e.responded) + Current(e)
    ensures e.handler.mode.Stopped? ==> exists w :: CutOff(e, w)
    ensures forall s: Session, j: nat :: multiset(e.sent[|AllWrites(e.responded)|..])[(s, j)] <= 3
  {
    RunKeepsSent(acts);
    RunKeepsInv(acts);
    var w := OneBeyond(e);
    BeyondBounded(e, w);
  }

  /** The part of what QEMU was sent that is due to answered session `k`. */
  function PartOf(e: Engine, k: nat): seq<(Session, nat)>
    requires k < |e.responded| && AllWrites(e.responded[..k + 1]) <= e.sent && AllWrites(e.responded[..k]) <= e.sent
      && |AllWrites(e.responded[..k])| <= |AllWrites(e.responded[..k + 1])|
  {
    e.sent[|AllWrites(e.responded[..k])|..|AllWrites(e.responded[..k + 1])|]
  }

  lemma {:induction false} AllWritesPrefix(es: seq<Ending>, k: nat)
    requires k <= |es|
    ensures AllWrites(es[..k]) <= AllWrites(es)
    decreases |es|
  {
    if k < |es| {
      AllWritesPrefix(es[..|es| - 1], k);
      assert es[..|es| - 1][..k] == es[..k];
    } else {
      assert es[..k] == es;
    }
  }

  lemma PartIs(e: Engine, k: nat)
    requires k < |e.responded| && AllWrites(e.responded) <= e.sent
    ensures AllWrites(e.responded[..k]) <= e.sent && AllWrites(e.responded[..k + 1]) <= e.sent
    ensures |AllWrites(e.responded[..k])| <= |AllWrites(e.responded[..k + 1])|
    ensures PartOf(e, k) == Writes(e.responded[k].session, e.responded[k].replies)
  {
    AllWritesPrefix(e.responded, k + 1);
    AnsweredUpTo(e.responded, k);
    SliceOf(AllWrites(e.responded[..k]), Writes(e.responded[k].session, e.responded[k].replies), e.sent);
  }

  lemma AnsweredUpTo(es: seq<Ending>, k: nat)
    requires k < |es|
    ensures AllWrites(es[..k + 1]) == AllWrites(es[..k]) + Writes(es[k].session, es[k].replies)
  {
    assert es[..k + 1] == es[..k] + [es[k]];
    AnsweredMore(es[..k], es[k]);
  }

  lemma SliceOf<T>(a: seq<T>, b: seq<T>, all: seq<T>)
    requires a + b <= all
    ensures a <= all && all[|a|..|a| + |b|] == b
  {
    assert all[..|a| + |b|] == a + b;
  }

  lemma {:induction false} TagCounts(s: Session, sent: seq<nat>, j: nat)
    ensures multiset(Tag(s, sent))[(s, j)] == multiset(sent)[j]
  {
    if sent != [] {
      var n := |sent| - 1;
      TagCounts(s, sent[..n], j);
      assert sent == sent[..n] + [sent[n]];
      assert Tag(s, sent) == Tag(s, sent[..n]) + [(s, sent[n])];
    }
  }

  /**
   Every response is earned: success exactly when each command succeeded; and of what QEMU was
   sent, the session's part holds no command more than three times and none after one that failed.
   */
  lemma ResponsesEarned(acts: seq<(Action, nat)>, e: Engine, k: nat)
    requires Run(acts) == Some(e) && k < |e.responded|
    ensures var r := e.responded[k];
      var cmds := r.session.commands;
      && AllWrites(e.responded[..k]) <= e.sent && AllWrites(e.responded[..k + 1]) <= e.sent
      && |AllWrites(e.responded[..k])| <= |AllWrites(e.responded[..k + 1])|
      && (r.verdict.Success? <==> forall j :: 0 <= j < |cmds| ==> Succeeded(cmds, r.replies, j))
      && (forall j: nat :: multiset(PartOf(e, k))[(r.session, j)] <= 3)
      && (forall i: nat, j: nat :: i < j < |cmds| && !Succeeded(cmds, r.replies, i) ==> multiset(PartOf(e, k))[(r.session, j)] == 0)
  {
    RunKeepsInv(acts);
    SentInOrder(acts, e);
    EarnedPart(e, k);
  }

  lemma EarnedPart(e: Engine, k: nat)
    requires k < |e.responded| && AllJust(e.responded) && AllWrites(e.responded) <= e.sent
    ensures var r := e.responded[k];
      var cmds := r.session.commands;
      && AllWrites(e.responded[..k]) <= e.sent && AllWrites(e.responded[..k + 1]) <= e.sent
      && |AllWrites(e.responded[..k])| <= |AllWrites(e.responded[..k + 1])|
      && (r.verdict.Success? <==> forall j :: 0 <= j < |cmds| ==> Succeeded(cmds, r.replies, j))
      && (forall j: nat :: multiset(PartOf(e, k))[(r.session, j)] <= 3)
      && (forall i: nat, j: nat :: i < j < |cmds| && !Succeeded(cmds, r.replies, i) ==> multiset(PartOf(e, k))[(r.session, j)] == 0)
  {
    var r := e.responded[k];
    var cmds := r.session.commands;
    assert Just(r);
    PartIs(e, k);
    VerdictMeaning(cmds, r.replies);
    forall j: nat
      ensures multiset(PartOf(e, k))[(r.session, j)] == Sends(cmds, r.replies, j)
    {
      TagCounts(r.session, Written(cmds, r.replies), j);
    }
  }

  // ---------- the handler as an object ----------

  class QmpLoop {
    var mode: Mode
    var buf: seq<Session>

    ghost function View(): Handler
      reads this
    {
      Handler(mode, buf, false)
    }

    constructor ()
      ensures View() == Start().handler
    {
      mode, buf := Initializing, [];
    }

    /** The main-loop handler; its callers never hand it an ending without a session, nor a second initialisation failure. */
    method Loop(m: Msg) returns (out: Output)
      requires mode.Looping? && !m.InitFailed? && (m.Finish? ==> buf != [])
      modifies this
      ensures (View(), out) == OnMessage(old(View()), m)
    {
      out := NOTHING;
      match m
      case Submit(s) =>
        buf := buf + [s];
        if |buf| == 1 {
          out := out.(start := Some(s));
        }
      case Finish(e) =>
        out := out.(respond := Some(e));
        buf := buf[1..];
        if |buf| > 0 {
          out := out.(start := Some(buf[0]));
        }
      case FromQemu(item) => out := out.(feed := Some(item));
      case Event(shutdown) =>
        if shutdown {
          mode := Stopped;
          out := out.(tell := Some(VmExit));
        }
      case Broken =>
        out := out.(feed := Some(Tagged(0, InternalError)), tell := Some(Interrupted));
        mode := Stopped;
      case QuitMsg => mode := Stopped;
      case _ =>
    }

    /** The handler used until QMP is initialised. */
    method WhileInitializing(m: Msg) returns (out: Output)
      requires mode.Initializing?
      modifies this
      ensures (View(), out) == OnMessage(old(View()), m)
    {
      out := NOTHING;
      match m
      case Init =>
        mode := Looping;
        if |buf| > 0 {
          out := out.(start := Some(buf[0]));
        }
      case InitFailed =>
        out := out.(tell := Some(InitFailure));
        mode := Stopped;
      case Timeout => out := out.(tell := Some(InitFailure));
      case Submit(s) => buf := buf + [s];
      case _ =>
    }
  }
}
