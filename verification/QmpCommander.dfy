/**
 One QMP session: its commands are sent one after the other, each at most three times, until
 one is refused three times, one cannot be marshalled, or all have succeeded.
 */
module QmpCommander {
  import opened Bytes

  const MAX_TRIES := 3

  datatype Command = Command(execute: string, marshals: bool)
  type Cause = string

  /** What the handler puts on the commander's feedback channel. */
  datatype Reply = Result | Error(cause: Cause) | InternalError

  datatype Verdict = Success | CannotMarshal | Refused(cause: Cause)

  /** Where a commander stands: trying a command, finished with a verdict, or gone without one. */
  datatype Progress =
    | Trying(next: nat, tries: nat)
    | Finished(verdict: Verdict)
    | Quit

  function Enter(cmds: seq<Command>, i: nat): Progress
    requires i <= |cmds|
  {
    if i == |cmds| then Finished(Success)
    else if !cmds[i].marshals then Finished(CannotMarshal)
    else Trying(i, 0)
  }

  function Feed(cmds: seq<Command>, p: Progress, r: Reply): Progress {
    if !p.Trying? || p.next >= |cmds| then p
    else match r
      case Result => Enter(cmds, p.next + 1)
      case Error(cause) => if p.tries + 1 == MAX_TRIES then Finished(Refused(cause)) else Trying(p.next, p.tries + 1)
      case InternalError => Quit
  }

  /** The progress after the replies consumed so far. */
  function After(cmds: seq<Command>, replies: seq<Reply>): (p: Progress)
    ensures p.Trying? ==> p.next < |cmds| && p.tries < MAX_TRIES && cmds[p.next].marshals
  {
    if replies == [] then Enter(cmds, 0)
    else Feed(cmds, After(cmds, replies[..|replies| - 1]), replies[|replies| - 1])
  }

  /** `replies` is what a commander consumes, no more: before each one it was still trying. */
  predicate Consumed(cmds: seq<Command>, replies: seq<Reply>) {
    replies == []
    || (Consumed(cmds, replies[..|replies| - 1]) && After(cmds, replies[..|replies| - 1]).Trying?)
  }

  /** The commands written to QEMU, in order, each before the reply to it was consumed. */
  function Written(cmds: seq<Command>, replies: seq<Reply>): (sent: seq<nat>) {
    if replies == [] then []
    else
      var front := replies[..|replies| - 1];
      var p := After(cmds, front);
      Written(cmds, front) + if p.Trying? then [p.next] else []
  }

  /** The command that is written and whose reply is still to come. */
  function Outstanding(p: Progress): seq<nat> {
    if p.Trying? then [p.next] else []
  }

  /** The number of times command `j` was written. */
  function Sends(cmds: seq<Command>, replies: seq<Reply>, j: nat): nat {
    multiset(Written(cmds, replies))[j]
  }

  /** Command `j` was answered with a result. */
  predicate Succeeded(cmds: seq<Command>, replies: seq<Reply>, j: nat) {
    exists k :: 0 <= k < |replies| && After(cmds, replies[..k]).Trying? && After(cmds, replies[..k]).next == j && replies[k].Result?
  }

  /** How often the commands before, at and after the current one have been sent. */
  ghost predicate Account(cmds: seq<Command>, replies: seq<Reply>, at: nat, tries: nat) {
    && (forall j :: 0 <= j < at ==> 1 <= Sends(cmds, replies, j) <= 3 && Succeeded(cmds, replies, j))
    && Sends(cmds, replies, at) == tries
    && !Succeeded(cmds, replies, at)
    && (forall j :: at < j ==> Sends(cmds, replies, j) == 0 && !Succeeded(cmds, replies, j))
  }

  /** The command a finished session stopped at. */
  ghost predicate StoppedAt(cmds: seq<Command>, replies: seq<Reply>, verdict: Verdict, at: nat) {
    match verdict
    case Success => at == |cmds| && Account(cmds, replies, at, 0)
    case CannotMarshal => at < |cmds| && !cmds[at].marshals && Account(cmds, replies, at, 0)
    case Refused(cause) =>
      && at < |cmds| && Account(cmds, replies, at, 3)
      && |replies| >= 3 && replies[|replies| - 1] == Error(cause)
  }

  lemma SucceededSnoc(cmds: seq<Command>, replies: seq<Reply>, r: Reply, j: nat)
    ensures Succeeded(cmds, replies + [r], j) <==>
      Succeeded(cmds, replies, j) || (r.Result? && After(cmds, replies).Trying? && After(cmds, replies).next == j)
  {
    var all := replies + [r];
    assert all[..|replies|] == replies;
    assert forall k :: 0 <= k < |replies| ==> all[..k] == replies[..k];
    if Succeeded(cmds, replies, j) {
      var k :| 0 <= k < |replies| && After(cmds, replies[..k]).Trying? && After(cmds, replies[..k]).next == j && replies[k].Result?;
      assert all[..k] == replies[..k] && all[k] == replies[k];
    }
    if r.Result? && After(cmds, replies).Trying? && After(cmds, replies).next == j {
      assert all[|replies|] == r;
    }
    if Succeeded(cmds, all, j) {
      var k :| 0 <= k < |all| && After(cmds, all[..k]).Trying? && After(cmds, all[..k]).next == j && all[k].Result?;
      if k < |replies| {
        assert all[..k] == replies[..k] && all[k] == replies[k];
      }
    }
  }

  lemma SendsSnoc(cmds: seq<Command>, replies: seq<Reply>, r: Reply, j: nat)
    ensures Sends(cmds, replies + [r], j) ==
      Sends(cmds, replies, j) + if After(cmds, replies).Trying? && After(cmds, replies).next == j then 1 else 0
  {
    WrittenSnoc(cmds, replies, r);
  }

  lemma WrittenSnoc(cmds: seq<Command>, replies: seq<Reply>, r: Reply)
    ensures Written(cmds, replies + [r]) == Written(cmds, replies) + Outstanding(After(cmds, replies))
  {
    assert (replies + [r])[..|replies|] == replies;
  }

  lemma AccountSnoc(cmds: seq<Command>, replies: seq<Reply>, r: Reply)
    requires After(cmds, replies).Trying?
    requires Account(cmds, replies, After(cmds, replies).next, After(cmds, replies).tries)
    ensures var p := After(cmds, replies);
      if r.Result? then Account(cmds, replies + [r], p.next + 1, 0)
      else Account(cmds, replies + [r], p.next, p.tries + 1)
  {
    forall j: nat
      ensures Sends(cmds, replies + [r], j) ==
        Sends(cmds, replies, j) + if After(cmds, replies).next == j then 1 else 0
      ensures Succeeded(cmds, replies + [r], j) <==>
        Succeeded(cmds, replies, j) || (r.Result? && After(cmds, replies).next == j)
    {
      SendsSnoc(cmds, replies, r, j);
      SucceededSnoc(cmds, replies, r, j);
    }
  }

  lemma TriedOn(cmds: seq<Command>, p: Progress, r: Reply)
    requires p.Trying? && p.next < |cmds| && Feed(cmds, p, r).Trying?
    ensures Feed(cmds, p, r) == if r.Result? then Trying(p.next + 1, 0) else Trying(p.next, p.tries + 1)
  {
  }

  /** While trying, the account is kept for the current command. */
  lemma {:induction false} TryingAccount(cmds: seq<Command>, replies: seq<Reply>)
    requires Consumed(cmds, replies) && After(cmds, replies).Trying?
    ensures Account(cmds, replies, After(cmds, replies).next, After(cmds, replies).tries)
  {
    if replies != [] {
      var front, r := replies[..|replies| - 1], replies[|replies| - 1];
      assert replies == front + [r];
      TryingAccount(cmds, front);
      AccountSnoc(cmds, front, r);
      TriedOn(cmds, After(cmds, front), r);
    }
  }

  /** The command at which the session is. */
  lemma VerdictCommand(cmds: seq<Command>, replies: seq<Reply>) returns (at: nat)
    requires Consumed(cmds, replies) && After(cmds, replies).Finished?
    ensures StoppedAt(cmds, replies, After(cmds, replies).verdict, at)
    ensures After(cmds, replies).verdict.Refused? ==> After(cmds, replies[..|replies| - 1]) == Trying(at, 2)
  {
    if replies == [] {
      at := 0;
    } else {
      var front, r := replies[..|replies| - 1], replies[|replies| - 1];
      assert replies == front + [r];
      var p := After(cmds, front);
      TryingAccount(cmds, front);
      AccountSnoc(cmds, front, r);
      at := if r.Result? then p.next + 1 else p.next;
      if r.Error? {
        TriesBound(cmds, front);
      }
    }
  }

  lemma {:induction false} TriesBound(cmds: seq<Command>, replies: seq<Reply>)
    requires Consumed(cmds, replies) && After(cmds, replies).Trying?
    ensures After(cmds, replies).tries <= |replies|
  {
    if replies != [] {
      TriesBound(cmds, replies[..|replies| - 1]);
    }
  }

  /**
   A finished session: no command was sent more than three times; it succeeded exactly when
   every command succeeded; and after a command that did not succeed nothing was sent.
   */
  lemma VerdictMeaning(cmds: seq<Command>, replies: seq<Reply>)
    requires Consumed(cmds, replies) && After(cmds, replies).Finished?
    ensures forall j: nat :: Sends(cmds, replies, j) <= 3
    ensures After(cmds, replies).verdict.Success? <==> forall j :: 0 <= j < |cmds| ==> Succeeded(cmds, replies, j)
    ensures forall i: nat, j: nat :: i < j < |cmds| && !Succeeded(cmds, replies, i) ==> Sends(cmds, replies, j) == 0
  {
    var at := VerdictCommand(cmds, replies);
    assert !Succeeded(cmds, replies, at);
  }

  /** A command that is refused twice and then succeeds is a success; refused a third time it is the failure, with the last cause. */
  lemma ThirdTimeCounts(c: Command, first: Cause, second: Cause, third: Cause)
    requires c.marshals
    ensures After([c], [Error(first), Error(second), Result]) == Finished(Success)
    ensures After([c], [Error(first), Error(second), Error(third)]) == Finished(Refused(third))
  {
    assert [Error(first)][..0] == [];
    assert [Error(first), Error(second)][..1] == [Error(first)];
    assert [Error(first), Error(second), Result][..2] == [Error(first), Error(second)];
    assert [Error(first), Error(second), Error(third)][..2] == [Error(first), Error(second)];
    assert After([c], []) == Trying(0, 0);
    assert After([c], [Error(first)]) == Trying(0, 1);
    assert After([c], [Error(first), Error(second)]) == Trying(0, 2);
  }

  lemma AttemptBounded(cmds: seq<Command>, replies: seq<Reply>, j: nat)
    requires Consumed(cmds, replies) && After(cmds, replies).Trying?
    ensures multiset(Written(cmds, replies) + [After(cmds, replies).next])[j] <= 3
  {
    TryingAccount(cmds, replies);
    var p := After(cmds, replies);
    assert multiset(Written(cmds, replies) + [p.next])[j] == Sends(cmds, replies, j) + if j == p.next then 1 else 0;
  }

  /** At no moment, the attempt under way included, has a command been written more than three times. */
  lemma AttemptsBounded(cmds: seq<Command>, replies: seq<Reply>, j: nat)
    requires Consumed(cmds, replies)
    ensures multiset(Written(cmds, replies) + Outstanding(After(cmds, replies)))[j] <= 3
  {
    if After(cmds, replies).Trying? {
      AttemptBounded(cmds, replies, j);
    } else {
      assert Written(cmds, replies) + [] == Written(cmds, replies);
      if replies != [] {
        AttemptBounded(cmds, replies[..|replies| - 1], j);
      }
    }
  }

  /**
   qmpCommander, given the replies its feedback channel will deliver; None when it quits or still
   waits. `sent` is what it wrote.
   */
  method RunSession(cmds: seq<Command>, feedback: seq<Reply>) returns (verdict: Option<Verdict>, used: nat, sent: seq<nat>)
    ensures used <= |feedback| && Consumed(cmds, feedback[..used])
    ensures sent == Written(cmds, feedback[..used]) + Outstanding(After(cmds, feedback[..used]))
    ensures forall j :: multiset(sent)[j] <= 3
    ensures verdict.Some? ==> After(cmds, feedback[..used]) == Finished(verdict.value)
    ensures verdict.None? ==> After(cmds, feedback[..used]).Quit? || (used == |feedback| && After(cmds, feedback).Trying?)
  {
    verdict, used, sent := Commands(cmds, feedback);
    forall j: nat
      ensures multiset(sent)[j] <= 3
    {
      AttemptsBounded(cmds, feedback[..used], j);
    }
  }

  /** The loops of qmpCommander. */
  method Commands(cmds: seq<Command>, feedback: seq<Reply>) returns (verdict: Option<Verdict>, used: nat, sent: seq<nat>)
    ensures used <= |feedback| && Consumed(cmds, feedback[..used])
    ensures sent == Written(cmds, feedback[..used]) + Outstanding(After(cmds, feedback[..used]))
    ensures verdict.Some? ==> After(cmds, feedback[..used]) == Finished(verdict.value)
    ensures verdict.None? ==> After(cmds, feedback[..used]).Quit? || (used == |feedback| && After(cmds, feedback).Trying?)
  {
    used, sent := 0, [];
    var i := 0;
    while i < |cmds|
      invariant 0 <= i <= |cmds| && used <= |feedback|
      invariant After(cmds, feedback[..used]) == Enter(cmds, i)
      invariant Consumed(cmds, feedback[..used]) && sent == Written(cmds, feedback[..used])
    {
      if !cmds[i].marshals {
        return Some(CannotMarshal), used, sent;
      }
      var gone, success, qe;
      gone, success, qe, used, sent := Attempts(cmds, feedback, i, used, sent);
      if gone {
        return None, used, sent;
      }
      if !success {
        return Some(Refused(qe.value)), used, sent;
      }
      i := i + 1;
    }
    return Some(Success), used, sent;
  }

  /** The attempts at command `i`; `gone` when the replies end or the commander is told to quit. */
  method Attempts(cmds: seq<Command>, feedback: seq<Reply>, i: nat, from: nat, before: seq<nat>)
    returns (gone: bool, success: bool, qe: Option<Cause>, used: nat, sent: seq<nat>)
    requires i < |cmds| && from <= |feedback| && After(cmds, feedback[..from]) == Trying(i, 0)
    requires Consumed(cmds, feedback[..from]) && before == Written(cmds, feedback[..from])
    ensures used <= |feedback| && Consumed(cmds, feedback[..used])
    ensures sent == Written(cmds, feedback[..used]) + if gone then Outstanding(After(cmds, feedback[..used])) else []
    ensures gone ==> After(cmds, feedback[..used]).Quit? || (used == |feedback| && After(cmds, feedback).Trying?)
    ensures !gone && success ==> After(cmds, feedback[..used]) == Enter(cmds, i + 1)
    ensures !gone && !success ==> qe.Some? && After(cmds, feedback[..used]) == Finished(Refused(qe.value))
  {
    gone, success, qe, used, sent := false, false, None, from, before;
    var repeat := 0;
    while !success && repeat < MAX_TRIES
      invariant 0 <= repeat <= MAX_TRIES && used <= |feedback| && !gone
      invariant success ==> After(cmds, feedback[..used]) == Enter(cmds, i + 1)
      invariant !success && repeat < MAX_TRIES ==> After(cmds, feedback[..used]) == Trying(i, repeat)
      invariant !success && repeat == MAX_TRIES ==> qe.Some? && After(cmds, feedback[..used]) == Finished(Refused(qe.value))
      invariant Consumed(cmds, feedback[..used]) && sent == Written(cmds, feedback[..used])
    {
      sent := sent + [i];
      if used == |feedback| {
        assert feedback[..used] == feedback;
        gone := true;
        return;
      }
      ConsumedSnoc(cmds, feedback, used);
      var res := feedback[used];
      used := used + 1;
      match res {
        case Result => success := true;
        case Error(cause) => qe := Some(cause);
        case InternalError =>
          gone := true;
          return;
      }
      repeat := repeat + 1;
    }
  }

  lemma ConsumedSnoc(cmds: seq<Command>, feedback: seq<Reply>, n: nat)
    requires n < |feedback| && Consumed(cmds, feedback[..n]) && After(cmds, feedback[..n]).Trying?
    ensures Consumed(cmds, feedback[..n + 1])
    ensures After(cmds, feedback[..n + 1]) == Feed(cmds, After(cmds, feedback[..n]), feedback[n])
    ensures Written(cmds, feedback[..n + 1]) == Written(cmds, feedback[..n]) + [After(cmds, feedback[..n]).next]
  {
    assert feedback[..n + 1][..n] == feedback[..n];
  }
}
