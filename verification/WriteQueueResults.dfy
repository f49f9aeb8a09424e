/** What the senders of the websocket write queue are told, over whole runs. */
module WriteQueueResults {
  import opened Wrappers
  import opened WriteQueue

  // ----- what has been written -----

  /** A request is written only by the write that was begun for it, and the writer knows how that ended. */
  ghost predicate Matches(s: State) {
    && (s.runner.Wrote? ==> (s.runner.ok <==> s.runner.r in s.written))
    && (s.runner.Got? || s.runner.Activated? || s.runner.Refusing? || s.runner.Writing? ==> s.runner.r !in s.written)
    && (s.runner.Writing? || s.runner.Wrote? ==> s.runner.r in s.started)
    && (forall r | r in s.written :: r < Front(s) && r in s.started)
  }

  /** As long as nobody has stopped the queue, results are those of the writes, and a failed write is about to stop it. */
  ghost predicate Unstopped(s: State) {
    !s.stopped ==>
      && (forall r | r in s.outcome :: (s.outcome[r] <==> r in s.written) && r in s.started)
      && (HeldBy(s.runner).Some? ==> HeldBy(s.runner).value !in s.outcome)
      && (s.runner.Reported? ==> s.runner.r in s.outcome && (s.outcome[s.runner.r] <==> s.runner.ok))
      && (forall r | r in s.outcome :: s.outcome[r] || s.runner == Reported(r, false) || s.runner.Failed?)
  }

  lemma RunMatches(s: State, writeOk: bool)
    requires Inv(s) && Matches(s) && Guard(s, Run(writeOk))
    ensures Matches(RunStep(s, writeOk))
  {
    if Reports(s.runner) {
      ReportMatches(s, writeOk);
    }
  }

  lemma ReportMatches(s: State, writeOk: bool)
    requires Matches(s) && Reports(s.runner)
    ensures Matches(RunStep(s, writeOk))
  {
  }

  lemma ReceiveMatches(s: State)
    requires Inv(s) && Matches(s) && Guard(s, Receive) && s.buffer != []
    ensures Matches(Next(s, Receive))
  {
    PopOrder(s);
  }

  lemma OtherMatches(s: State, a: Action)
    requires Inv(s) && Matches(s) && Guard(s, a) && !a.Run? && !(a.Receive? && s.buffer != [])
    ensures Matches(Next(s, a))
  {
    if a.StopStep? {
      StepTaken(s);
      assert Next(s, a).runner == s.runner && Next(s, a).written == s.written && Next(s, a).started == s.started;
    }
  }

  lemma NextMatches(s: State, a: Action)
    requires Inv(s) && Matches(s) && Guard(s, a)
    ensures Matches(Next(s, a))
  {
    if a.Run? {
      RunMatches(s, a.writeOk);
    } else if a.Receive? && s.buffer != [] {
      ReceiveMatches(s);
    } else {
      OtherMatches(s, a);
    }
  }

  lemma ReportUnstopped(s: State, writeOk: bool)
    requires Inv(s) && Matches(s) && Unstopped(s) && Reports(s.runner)
    ensures Unstopped(RunStep(s, writeOk))
  {
  }

  lemma WriterUnstopped(s: State, writeOk: bool)
    requires Inv(s) && Matches(s) && Unstopped(s) && Guard(s, Run(writeOk)) && !Reports(s.runner)
    ensures Unstopped(RunStep(s, writeOk))
  {
    QuietRun(s, writeOk);
  }

  lemma ReceiveUnstopped(s: State)
    requires Inv(s) && Unstopped(s) && Guard(s, Receive)
    ensures Unstopped(Next(s, Receive))
  {
    if s.buffer != [] {
      PopOrder(s);
    }
  }

  lemma OtherUnstopped(s: State, a: Action)
    requires Inv(s) && Unstopped(s) && Guard(s, a) && !a.Run? && !a.Receive?
    ensures Unstopped(Next(s, a))
  {
  }

  lemma NextUnstopped(s: State, a: Action)
    requires Inv(s) && Matches(s) && Unstopped(s) && Guard(s, a)
    ensures Unstopped(Next(s, a))
  {
    if a.Run? {
      if Reports(s.runner) {
        ReportUnstopped(s, a.writeOk);
      } else {
        WriterUnstopped(s, a.writeOk);
      }
    } else if a.Receive? {
      ReceiveUnstopped(s);
    } else {
      OtherUnstopped(s, a);
    }
  }

  lemma {:induction false} ResultsHold(capacity: nat, states: seq<State>, actions: seq<Action>, n: nat)
    requires IsRun(capacity, states, actions) && n < |states|
    ensures Matches(states[n]) && Unstopped(states[n])
  {
    if n > 0 {
      ResultsHold(capacity, states, actions, n - 1);
      RunHolds(capacity, states, actions, n - 1);
      NextMatches(states[n - 1], actions[n - 1]);
      NextUnstopped(states[n - 1], actions[n - 1]);
    }
  }

  /**
   As long as nobody stops the queue, a sender is told success exactly if its message was written. A failure is then
   that of its own write, and the writer is about to stop the queue for it.
   */
  lemma ResultsAreTrue(capacity: nat, states: seq<State>, actions: seq<Action>, n: nat, r: nat)
    requires IsRun(capacity, states, actions) && n < |states| && r in states[n].outcome
    requires !states[n].stopped || states[n].stopper.Nobody?
    ensures var s := states[n];
            && r in s.started && (s.outcome[r] <==> r in s.written)
            && (!s.outcome[r] ==> s.runner == Reported(r, false) || s.runner.Failed?)
  {
    ResultsHold(capacity, states, actions, n);
    RunHolds(capacity, states, actions, n);
  }

  // ----- who finished a request -----

  /** The writer reports how its write ended, or refuses on a stopped queue; a stop reports failures. */
  predicate FinishedBy(s: State, a: Action, r: nat, ok: bool) {
    || (a.Run? && (s.runner == Wrote(r, ok) || (s.runner == Refusing(r) && s.stopped && !ok)))
    || (a.StopStep? && !ok && (s.stopper == Shut(Some(r)) || s.stopper == Holding(r)))
  }

  lemma StopperFinishes(s: State, r: nat)
    requires Guard(s, StopStep) && r !in s.outcome && r in StopperStep(s).outcome
    ensures FinishedBy(s, StopStep, r, StopperStep(s).outcome[r])
  {
    if !s.stopper.Shut? && !s.stopper.Holding? {
      QuietStep(s);
    }
  }

  lemma WriterFinishes(s: State, writeOk: bool, r: nat)
    requires StopOk(s) && Guard(s, Run(writeOk)) && r !in s.outcome && r in RunStep(s, writeOk).outcome
    ensures FinishedBy(s, Run(writeOk), r, RunStep(s, writeOk).outcome[r])
  {
    if !Reports(s.runner) {
      QuietRun(s, writeOk);
    }
  }

  lemma NextFinishes(s: State, a: Action, r: nat)
    requires StopOk(s) && Guard(s, a) && r !in s.outcome && r in Next(s, a).outcome
    ensures FinishedBy(s, a, r, Next(s, a).outcome[r])
  {
    if a.Run? {
      WriterFinishes(s, a.writeOk, r);
    } else if a.StopStep? {
      StopperFinishes(s, r);
    }
  }

  lemma ResultStays(s: State, a: Action, r: nat)
    requires Guard(s, a) && r in s.outcome
    ensures r in Next(s, a).outcome && Next(s, a).outcome[r] == s.outcome[r]
  {
    if a.Run? && !Reports(s.runner) {
      QuietRun(s, a.writeOk);
    }
  }

  /** Step number `k` leaves the request's result alone, or gives it for a reason. */
  predicate Came(states: seq<State>, actions: seq<Action>, k: nat, r: nat)
    requires k < |actions| < |states|
  {
    r in states[k + 1].outcome ==>
      if r in states[k].outcome then states[k + 1].outcome[r] == states[k].outcome[r]
      else FinishedBy(states[k], actions[k], r, states[k + 1].outcome[r])
  }

  lemma RunCame(capacity: nat, states: seq<State>, actions: seq<Action>, k: nat, r: nat)
    requires IsRun(capacity, states, actions) && k < |actions|
    ensures Came(states, actions, k, r)
  {
    RunHolds(capacity, states, actions, k);
    if r in states[k].outcome {
      ResultStays(states[k], actions[k], r);
    } else if r in states[k + 1].outcome {
      NextFinishes(states[k], actions[k], r);
    }
  }

  lemma {:induction false} FirstCame(states: seq<State>, actions: seq<Action>, n: nat, r: nat) returns (k: nat)
    requires |states| == |actions| + 1 && n < |states| && r !in states[0].outcome && r in states[n].outcome
    requires forall i: nat | i < n :: Came(states, actions, i, r)
    ensures k < n && r !in states[k].outcome && FinishedBy(states[k], actions[k], r, states[n].outcome[r])
  {
    assert Came(states, actions, n - 1, r);
    if r in states[n - 1].outcome {
      k := FirstCame(states, actions, n - 1, r);
    } else {
      k := n - 1;
    }
  }

  /** Every result was given once, by a step that had a reason for it, and stays. */
  lemma EveryResultHasItsCause(capacity: nat, states: seq<State>, actions: seq<Action>, n: nat, r: nat)
    returns (k: nat)
    requires IsRun(capacity, states, actions) && n < |states| && r in states[n].outcome
    ensures k < n && r !in states[k].outcome && FinishedBy(states[k], actions[k], r, states[n].outcome[r])
  {
    forall i: nat | i < n ensures Came(states, actions, i, r) {
      RunCame(capacity, states, actions, i, r);
    }
    k := FirstCame(states, actions, n, r);
  }

  /** The writer is past the request without having written it. */
  predicate Unwritten(s: State, r: nat) {
    r < Front(s) && HeldBy(s.runner) != Some(r) && r !in s.written
  }

  lemma UnwrittenStays(s: State, a: Action, r: nat)
    requires Inv(s) && Guard(s, a) && Unwritten(s, r)
    ensures Unwritten(Next(s, a), r)
  {
    if a.Run? {
      RunKeepsChannel(s, a.writeOk);
      WriterStaysPast(s, a.writeOk, r);
    } else if a.StopStep? {
      StepTaken(s);
      assert StopperStep(s).runner == s.runner && StopperStep(s).written == s.written;
    } else if s.buffer != [] {
      PopOrder(s);
    }
  }

  lemma WriterStaysPast(s: State, writeOk: bool, r: nat)
    requires Guard(s, Run(writeOk)) && HeldBy(s.runner) != Some(r) && r !in s.written
    ensures HeldBy(RunStep(s, writeOk).runner) != Some(r) && r !in RunStep(s, writeOk).written
  {
    if Reports(s.runner) {
      ReportStaysPast(s, writeOk, r);
    }
  }

  lemma ReportStaysPast(s: State, writeOk: bool, r: nat)
    requires Reports(s.runner)
    ensures RunStep(s, writeOk).runner.Reported? && RunStep(s, writeOk).written == s.written
  {
  }

  lemma {:induction false} UnwrittenLasts(states: seq<State>, m: nat, n: nat, r: nat)
    requires m <= n < |states| && Unwritten(states[m], r)
    requires forall k: nat | m <= k < n :: Unwritten(states[k], r) ==> Unwritten(states[k + 1], r)
    ensures Unwritten(states[n], r)
  {
    if m < n {
      UnwrittenLasts(states, m, n - 1, r);
      assert Unwritten(states[n - 1 + 1], r);
    }
  }

  lemma NeverWritten(capacity: nat, states: seq<State>, actions: seq<Action>, m: nat, n: nat, r: nat)
    requires IsRun(capacity, states, actions) && m <= n < |states| && Unwritten(states[m], r)
    ensures r !in states[n].written
  {
    forall k: nat | m <= k < n && Unwritten(states[k], r) ensures Unwritten(states[k + 1], r) {
      RunHolds(capacity, states, actions, k);
      UnwrittenStays(states[k], actions[k], r);
    }
    UnwrittenLasts(states, m, n, r);
  }

  /** The writer gave the failure, so it is past a request that it has not written. */
  lemma FailurePasses(s: State, writeOk: bool, r: nat)
    requires Inv(s) && Matches(s) && Guard(s, Run(writeOk)) && FinishedBy(s, Run(writeOk), r, false)
    ensures Unwritten(RunStep(s, writeOk), r)
  {
    RunKeepsChannel(s, writeOk);
    ReportStaysPast(s, writeOk, r);
  }

  /** A message that was written is reported as failed only if a stop finished its request first. */
  lemma WrittenFailsOnlyByStop(capacity: nat, states: seq<State>, actions: seq<Action>, n: nat, r: nat) returns (k: nat)
    requires IsRun(capacity, states, actions) && n < |states|
    requires r in states[n].written && r in states[n].outcome && !states[n].outcome[r]
    ensures k < n && actions[k].StopStep? && r !in states[k].outcome
            && (states[k].stopper == Shut(Some(r)) || states[k].stopper == Holding(r))
  {
    k := EveryResultHasItsCause(capacity, states, actions, n, r);
    if actions[k].Run? {
      RunHolds(capacity, states, actions, k);
      ResultsHold(capacity, states, actions, k);
      FailurePasses(states[k], actions[k].writeOk, r);
      NeverWritten(capacity, states, actions, k + 1, n, r);
    }
  }

  // ----- sends, writes and stops come to an end -----

  function Count(actions: seq<Action>, n: nat, a: Action): nat
    requires n <= |actions|
  {
    if n == 0 then 0 else Count(actions, n - 1, a) + if actions[n - 1] == a then 1 else 0
  }

  lemma NextSends(s: State, a: Action)
    requires Guard(s, a)
    ensures var s' := Next(s, a);
            s'.accepted + s'.waiting + (if a.GiveUp? then 1 else 0) == s.accepted + s.waiting + (if a.Send? then 1 else 0)
  {
    if a.Run? && Reports(s.runner) {
      assert RunStep(s, a.writeOk).accepted == s.accepted && RunStep(s, a.writeOk).waiting == s.waiting;
    }
  }

  /** Every send has been accepted, waits for room, or gave up on a closed channel. */
  lemma {:induction false} SendsAreAccountedFor(capacity: nat, states: seq<State>, actions: seq<Action>, n: nat)
    requires IsRun(capacity, states, actions) && n < |states|
    ensures Count(actions, n, Send) == states[n].accepted + states[n].waiting + Count(actions, n, GiveUp)
  {
    if n > 0 {
      SendsAreAccountedFor(capacity, states, actions, n - 1);
      NextSends(states[n - 1], actions[n - 1]);
    }
  }

  lemma WriteIsMade(s: State, r: nat)
    requires s.runner == Got(r) && !s.stopped
    ensures RunSteps(s, [true, true, true])
            == s.(active := Some(r), runner := Wrote(r, true), started := s.started + [r], written := s.written + {r})
  {
    var s1 := RunStep(s, true);
    var s2 := RunStep(s1, true);
    assert RunSteps(s2, [true]) == RunStep(s2, true);
    assert RunSteps(s1, [true, true]) == RunSteps(s2, [true]);
    assert RunSteps(s, [true, true, true]) == RunSteps(s1, [true, true]);
  }

  lemma WriteIsReported(s: State, r: nat)
    requires s.runner == Wrote(r, true) && s.active == Some(r) && r !in s.outcome
    ensures RunSteps(s, [true, true])
            == s.(active := None, runner := Receiving, outcome := s.outcome[r := true], delivered := s.delivered + [r])
  {
    var s1 := RunStep(s, true);
    assert RunSteps(s1, [true]) == RunStep(s1, true);
    assert RunSteps(s, [true, true]) == RunSteps(s1, [true]);
  }

  /** Undisturbed, the writer takes the oldest request, writes it, reports success and is ready for the next one. */
  lemma WriteGoesThrough(s: State)
    requires Inv(s) && !s.stopped && s.runner.Receiving? && s.buffer != []
    ensures var r, written := s.buffer[0], RunSteps(Next(s, Receive), [true, true, true]);
            var s' := RunSteps(written, [true, true]);
            && s'.runner == Receiving && s'.active == None && !s'.stopped
            && s'.started == s.started + [r] && r in s'.written
            && r in s'.outcome && s'.outcome[r] && s'.delivered == s.delivered + [r]
  {
    PopOrder(s);
    WriteIsMade(Next(s, Receive), s.buffer[0]);
    WriteIsReported(RunSteps(Next(s, Receive), [true, true, true]), s.buffer[0]);
  }

  /** After a failed write the writer stops the queue and is gone. */
  lemma FailedWriteStops(s: State, r: nat)
    requires Inv(s) && !s.stopped && s.runner == Wrote(r, false)
    ensures var s' := RunSteps(s, [true, true, true]);
            s'.runner == Exited && s'.stopped && s'.stopper == Won && r in s'.outcome
  {
    var s1 := RunStep(s, true);
    var s2 := RunStep(s1, true);
    var s3 := RunStep(s2, true);
    assert RunSteps(s2, [true]) == s3;
    assert RunSteps(s1, [true, true]) == RunSteps(s2, [true]);
    assert RunSteps(s, [true, true, true]) == RunSteps(s1, [true, true]);
  }

  /** The first stop sets the flag and begins to act; later ones change nothing. */
  lemma OnlyTheFirstStopActs(s: State)
    ensures Next(s, Stop) == if s.stopped then s else s.(stopped := true, stopper := Won)
  {
  }

  /** How many steps a stop may still take, if no send comes in before the channel is closed. */
  function StopLeft(s: State): nat {
    var queued := 2 * (|s.buffer| + s.waiting);
    match s.stopper
    case Won => queued + 4
    case Captured(_) => queued + 3
    case Shut(_) => queued + 2
    case Draining => queued + 1
    case Holding(_) => queued + 2
    case _ => 0
  }

  /** Every step of a stop brings it nearer to its end, and at the end it is done. */
  lemma StopsComeToAnEnd(s: State)
    requires Guard(s, StopStep)
    ensures StopLeft(StopperStep(s)) < StopLeft(s)
    ensures StopLeft(StopperStep(s)) == 0 ==> StopperStep(s).stopper.Done?
  {
  }
}
