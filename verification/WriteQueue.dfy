/**
 The websocket write queue as a state machine: senders, the one running writer and a stop interleave, one atomic
 operation at a time. Requests are numbered in the order in which the channel accepts them. Of a channel that is closed
 only this is used: it accepts no new send, hands out what it has buffered, and may or may not still take in the sends
 that were waiting for room.
 */
module WriteQueue {
  import opened Wrappers

  /** Where `run` stands. */
  datatype Runner =
    | Receiving
    | Got(r: nat)
    | Activated(r: nat)
    | Refusing(r: nat)               // found the queue stopped
    | Writing(r: nat)
    | Wrote(r: nat, ok: bool)        // the write returned or threw
    | Reported(r: nat, ok: bool)     // the request is finished
    | Failed                         // a failed write is about to stop the queue
    | Exited

  /** Where the one effective call of `stop` stands; it captured `active` under the state mutex. */
  datatype Stopper =
    | Nobody
    | Won
    | Captured(active: Option<nat>)
    | Shut(active: Option<nat>)      // the channel is closed
    | Draining
    | Holding(r: nat)                // took a queued request
    | Done

  /** `outcome` holds the finished requests (true: success); `delivered` lists the completions in order. */
  datatype State = State(capacity: nat, buffer: seq<nat>, waiting: nat, accepted: nat, closed: bool, stopped: bool,
                         active: Option<nat>, runner: Runner, stopper: Stopper,
                         outcome: map<nat, bool>, delivered: seq<nat>, started: seq<nat>, written: set<nat>)

  function Init(capacity: nat): State {
    State(capacity, [], 0, 0, false, false, None, Receiving, Nobody, map[], [], [], {})
  }

  datatype Action = Send | GiveUp | Receive | Run(writeOk: bool) | Stop | StopStep

  /** `WriteRequest::finish`: only the first call has an effect. */
  function Finish(s: State, r: nat, ok: bool): State {
    if r in s.outcome then s else s.(outcome := s.outcome[r := ok], delivered := s.delivered + [r])
  }

  /** Takes the oldest request out; a waiting send takes the free place. */
  function Pop(s: State): State
    requires s.buffer != []
  {
    if s.waiting > 0 then
      s.(buffer := s.buffer[1..] + [s.accepted], waiting := s.waiting - 1, accepted := s.accepted + 1)
    else s.(buffer := s.buffer[1..])
  }

  function RunStep(s: State, writeOk: bool): State {
    match s.runner
    case Got(r) => s.(active := Some(r), runner := Activated(r))
    case Activated(r) => if s.stopped then s.(runner := Refusing(r)) else s.(runner := Writing(r), started := s.started + [r])
    case Refusing(r) => Finish(s, r, false).(runner := Reported(r, false))
    case Writing(r) => s.(runner := Wrote(r, writeOk), written := if writeOk then s.written + {r} else s.written)
    case Wrote(r, ok) => Finish(s, r, ok).(runner := Reported(r, ok))
    case Reported(r, ok) =>
      s.(active := if s.active == Some(r) then None else s.active, runner := if ok then Receiving else Failed)
    case Failed =>
      if s.stopped then s.(runner := Exited) else s.(runner := Exited, stopped := true, stopper := Won)
    case _ => s
  }

  function StopperStep(s: State): State {
    match s.stopper
    case Won => s.(stopper := Captured(s.active))
    case Captured(a) => s.(closed := true, stopper := Shut(a))
    case Shut(a) => (if a.Some? then Finish(s, a.value, false) else s).(stopper := Draining)
    case Draining => if s.buffer == [] then s.(stopper := Done) else Pop(s).(stopper := Holding(s.buffer[0]))
    case Holding(r) => Finish(s, r, false).(stopper := Draining)
    case _ => s
  }

  predicate Guard(s: State, a: Action) {
    match a
    case Send => !s.closed
    case GiveUp => s.closed && s.waiting > 0
    case Receive => s.runner.Receiving? && (s.buffer != [] || s.closed)
    case Run(_) => !s.runner.Receiving? && !s.runner.Exited?
    case Stop => true
    case StopStep => !s.stopper.Nobody? && !s.stopper.Done?
  }

  function Next(s: State, a: Action): State
    requires Guard(s, a)
  {
    match a
    case Send =>
      if |s.buffer| < s.capacity then s.(buffer := s.buffer + [s.accepted], accepted := s.accepted + 1)
      else s.(waiting := s.waiting + 1)
    case GiveUp => s.(waiting := s.waiting - 1)
    case Receive => if s.buffer == [] then s.(runner := Exited) else Pop(s).(runner := Got(s.buffer[0]))
    case Run(writeOk) => RunStep(s, writeOk)
    case Stop => if s.stopped then s else s.(stopped := true, stopper := Won)
    case StopStep => StopperStep(s)
  }

  ghost predicate IsRun(capacity: nat, states: seq<State>, actions: seq<Action>) {
    && capacity > 0 && |states| == |actions| + 1 && states[0] == Init(capacity)
    && forall k | 0 <= k < |actions| :: Guard(states[k], actions[k]) && states[k + 1] == Next(states[k], actions[k])
  }

  // ----- invariant -----

  /** The first request that has not been taken out. */
  function Front(s: State): int {
    s.accepted - |s.buffer|
  }

  predicate InOrder(s: State) {
    && s.capacity > 0 && |s.buffer| <= s.capacity && (s.waiting > 0 ==> |s.buffer| == s.capacity)
    && Front(s) >= 0
    && forall i | 0 <= i < |s.buffer| :: s.buffer[i] == Front(s) + i
  }

  /** The request that the writer has taken and not finished. */
  function HeldBy(p: Runner): Option<nat> {
    match p
    case Got(r) => Some(r)
    case Activated(r) => Some(r)
    case Refusing(r) => Some(r)
    case Writing(r) => Some(r)
    case Wrote(r, _) => Some(r)
    case _ => None
  }

  /** Whether somebody has taken the request and has still to finish it. */
  predicate InHand(s: State, r: nat) {
    HeldBy(s.runner) == Some(r) || s.stopper == Holding(r)
  }

  predicate Taken(s: State) {
    && (forall r: nat | r < Front(s) :: r in s.outcome || InHand(s, r))
    && (forall r | r in s.outcome :: r < Front(s))
    && (HeldBy(s.runner).Some? ==> HeldBy(s.runner).value < Front(s))
    && (s.stopper.Holding? ==> s.stopper.r < Front(s))
  }

  predicate NoRepeats(q: seq<nat>) {
    forall i, j | 0 <= i < j < |q| :: q[i] != q[j]
  }

  ghost predicate DeliveredOnce(outcome: map<nat, bool>, delivered: seq<nat>) {
    NoRepeats(delivered) && forall r :: r in delivered <==> r in outcome
  }

  predicate Truthful(s: State) {
    && (forall r | r in s.outcome && s.outcome[r] :: r in s.written)
    && (s.runner.Wrote? && s.runner.ok ==> s.runner.r in s.written)
  }

  /** Writes start in the order of acceptance. */
  predicate StartedInOrder(s: State) {
    && (forall i, j | 0 <= i < j < |s.started| :: s.started[i] < s.started[j])
    && (forall i | 0 <= i < |s.started| :: s.started[i] < Front(s))
    && (s.runner.Got? || s.runner.Activated? ==> forall i | 0 <= i < |s.started| :: s.started[i] < s.runner.r)
  }

  predicate StopOk(s: State) {
    && (s.stopper.Nobody? <==> !s.stopped)
    && (s.closed <==> s.stopper.Shut? || s.stopper.Draining? || s.stopper.Holding? || s.stopper.Done?)
    && (s.stopper.Done? ==> s.buffer == [])
    && (s.runner.Exited? ==> s.stopped)
    && (s.runner.Refusing? ==> s.stopped)
    && (s.runner.Activated? || s.runner.Writing? ==> s.active == Some(s.runner.r))
    && (s.runner.Writing? && (s.stopper.Captured? || s.stopper.Shut?) ==> s.stopper.active == Some(s.runner.r))
    && (s.runner.Writing? && (s.stopper.Draining? || s.stopper.Holding? || s.stopper.Done?) ==> s.runner.r in s.outcome)
    && (s.stopper.Captured? || s.stopper.Shut? ==> s.stopper.active.Some? ==> s.stopper.active.value < Front(s))
    && (s.active.Some? ==> s.active.value < Front(s))
  }

  ghost predicate Inv(s: State) {
    InOrder(s) && Taken(s) && DeliveredOnce(s.outcome, s.delivered) && Truthful(s) && StartedInOrder(s) && StopOk(s)
  }

  lemma FinishDelivers(s: State, r: nat, ok: bool)
    requires DeliveredOnce(s.outcome, s.delivered)
    ensures DeliveredOnce(Finish(s, r, ok).outcome, Finish(s, r, ok).delivered)
  {
  }

  lemma PopOrder(s: State)
    requires InOrder(s) && s.buffer != []
    ensures InOrder(Pop(s)) && Front(Pop(s)) == Front(s) + 1 && s.buffer[0] == Front(s)
  {
  }

  lemma SendKeeps(s: State)
    requires Inv(s) && Guard(s, Send)
    ensures Inv(Next(s, Send))
  {
    var s' := Next(s, Send);
    assert Front(s') == Front(s) && s'.runner == s.runner && s'.stopper == s.stopper;
    assert Taken(s') by {
      forall r: nat | r < Front(s') ensures r in s'.outcome || InHand(s', r) {
        assert r in s.outcome || InHand(s, r);
      }
    }
  }

  lemma PlainKeeps(s: State, a: Action)
    requires Inv(s) && Guard(s, a) && (a.GiveUp? || a.Stop? || (a.Receive? && s.buffer == []))
    ensures Inv(Next(s, a))
  {
    var s' := Next(s, a);
    assert Taken(s') by {
      forall r: nat | r < Front(s') ensures r in s'.outcome || InHand(s', r) {
        assert r in s.outcome || InHand(s, r);
      }
    }
  }

  /** The writer takes the oldest request in hand. */
  lemma ReceiveKeeps(s: State)
    requires Inv(s) && Guard(s, Receive) && s.buffer != []
    ensures Inv(Next(s, Receive))
  {
    PopOrder(s);
    var s' := Next(s, Receive);
    assert Taken(s') by {
      forall r: nat | r < Front(s') ensures r in s'.outcome || InHand(s', r) {
        assert r < Front(s) ==> r in s.outcome || InHand(s, r);
      }
    }
    assert StartedInOrder(s');
    assert StopOk(s');
  }

  lemma ChannelKeeps(s: State, a: Action)
    requires Inv(s) && Guard(s, a) && (a.Send? || a.GiveUp? || a.Receive? || a.Stop?)
    ensures Inv(Next(s, a))
  {
    if a.Send? {
      SendKeeps(s);
    } else if a.Receive? && s.buffer != [] {
      ReceiveKeeps(s);
    } else {
      PlainKeeps(s, a);
    }
  }

  lemma RunTaken(s: State, writeOk: bool)
    requires InOrder(s) && Taken(s) && StopOk(s) && Guard(s, Run(writeOk))
    ensures InOrder(RunStep(s, writeOk)) && Taken(RunStep(s, writeOk))
  {
    RunKeepsChannel(s, writeOk);
    var s' := RunStep(s, writeOk);
    forall r: nat | r < Front(s') ensures r in s'.outcome || InHand(s', r) {
      assert r in s.outcome || InHand(s, r);
      RunKeepsHold(s, writeOk, r);
    }
  }

  predicate Reports(p: Runner) {
    p.Refusing? || p.Wrote?
  }

  lemma RunKeepsChannel(s: State, writeOk: bool)
    requires InOrder(s) && Taken(s) && Guard(s, Run(writeOk))
    ensures var s' := RunStep(s, writeOk);
            && InOrder(s') && Front(s') == Front(s)
            && (forall r | r in s'.outcome :: r < Front(s'))
            && (HeldBy(s'.runner).Some? ==> HeldBy(s'.runner).value < Front(s'))
            && (s'.stopper.Holding? ==> s'.stopper == s.stopper)
  {
    if Reports(s.runner) {
      ReportKeepsChannel(s, writeOk);
    }
  }

  lemma ReportKeepsChannel(s: State, writeOk: bool)
    requires InOrder(s) && Taken(s) && Reports(s.runner)
    ensures var s' := RunStep(s, writeOk);
            && s'.buffer == s.buffer && s'.accepted == s.accepted && s'.waiting == s.waiting && s'.capacity == s.capacity
            && s'.runner.Reported? && s'.stopper == s.stopper
            && (forall r | r in s'.outcome :: r < Front(s))
  {
  }

  lemma RunKeepsHold(s: State, writeOk: bool, r: nat)
    requires Guard(s, Run(writeOk)) && (r in s.outcome || InHand(s, r))
    requires s.runner.Failed? && !s.stopped ==> s.stopper.Nobody?
    ensures r in RunStep(s, writeOk).outcome || InHand(RunStep(s, writeOk), r)
  {
    if Reports(s.runner) {
      ReportKeepsHold(s, writeOk, r);
    } else {
      assert RunStep(s, writeOk).outcome == s.outcome;
      assert HeldBy(RunStep(s, writeOk).runner) == HeldBy(s.runner);
    }
  }

  lemma ReportKeepsHold(s: State, writeOk: bool, r: nat)
    requires Reports(s.runner) && (r in s.outcome || InHand(s, r))
    ensures r in RunStep(s, writeOk).outcome || InHand(RunStep(s, writeOk), r)
  {
  }

  /** A failure is delivered once, and changes no success. */
  lemma FailureDelivers(s: State, r: nat)
    requires DeliveredOnce(s.outcome, s.delivered) && Truthful(s)
    ensures DeliveredOnce(Finish(s, r, false).outcome, Finish(s, r, false).delivered) && Truthful(Finish(s, r, false))
  {
    FinishDelivers(s, r, false);
  }

  lemma RunDelivers(s: State, writeOk: bool)
    requires DeliveredOnce(s.outcome, s.delivered) && Truthful(s) && Guard(s, Run(writeOk))
    ensures DeliveredOnce(RunStep(s, writeOk).outcome, RunStep(s, writeOk).delivered) && Truthful(RunStep(s, writeOk))
  {
    if s.runner.Refusing? {
      FailureDelivers(s, s.runner.r);
    } else if s.runner.Wrote? {
      FinishDelivers(s, s.runner.r, s.runner.ok);
    } else {
      QuietRun(s, writeOk);
    }
  }

  lemma QuietRun(s: State, writeOk: bool)
    requires Guard(s, Run(writeOk)) && !Reports(s.runner)
    ensures var s' := RunStep(s, writeOk);
            && s'.outcome == s.outcome && s'.delivered == s.delivered && s.written <= s'.written
            && (s'.runner.Wrote? && s'.runner.ok ==> s'.runner.r in s'.written)
  {
  }

  lemma RunStarts(s: State, writeOk: bool)
    requires InOrder(s) && Taken(s) && StartedInOrder(s) && Guard(s, Run(writeOk))
    ensures StartedInOrder(RunStep(s, writeOk))
  {
    RunKeepsChannel(s, writeOk);
    if !s.runner.Activated? {
      NothingStarts(s, writeOk);
    }
  }

  /** Only a step from `Activated` starts a write. */
  lemma NothingStarts(s: State, writeOk: bool)
    requires Guard(s, Run(writeOk)) && !s.runner.Activated?
    ensures var s' := RunStep(s, writeOk);
            && s'.started == s.started
            && (s'.runner.Got? || s'.runner.Activated? ==> s.runner.Got? && s'.runner.r == s.runner.r)
  {
    if Reports(s.runner) {
      ReportStartsNothing(s, writeOk);
    }
  }

  lemma ReportStartsNothing(s: State, writeOk: bool)
    requires Reports(s.runner)
    ensures RunStep(s, writeOk).started == s.started && RunStep(s, writeOk).runner.Reported?
  {
  }

  lemma RunStops(s: State, writeOk: bool)
    requires Taken(s) && StopOk(s) && Guard(s, Run(writeOk))
    ensures StopOk(RunStep(s, writeOk))
  {
    if Reports(s.runner) {
      ReportStops(s, writeOk);
    }
  }

  lemma ReportStops(s: State, writeOk: bool)
    requires Taken(s) && StopOk(s) && Reports(s.runner)
    ensures StopOk(RunStep(s, writeOk))
  {
  }

  lemma StepTaken(s: State)
    requires InOrder(s) && Taken(s) && StopOk(s) && Guard(s, StopStep)
    ensures InOrder(StopperStep(s)) && Taken(StopperStep(s)) && Front(StopperStep(s)) >= Front(s)
  {
    if s.stopper.Draining? && s.buffer != [] {
      DrainTaken(s);
    } else {
      FinishTaken(s);
    }
  }

  lemma DrainTaken(s: State)
    requires InOrder(s) && Taken(s) && s.stopper.Draining? && s.buffer != []
    ensures InOrder(StopperStep(s)) && Taken(StopperStep(s)) && Front(StopperStep(s)) == Front(s) + 1
  {
    var s' := StopperStep(s);
    PopOrder(s);
    forall r: nat | r < Front(s') ensures r in s'.outcome || InHand(s', r) {
      assert r < Front(s) ==> r in s.outcome || InHand(s, r);
    }
  }

  lemma FinishTaken(s: State)
    requires InOrder(s) && Taken(s) && StopOk(s) && Guard(s, StopStep) && (s.stopper.Draining? ==> s.buffer == [])
    ensures InOrder(StopperStep(s)) && Taken(StopperStep(s)) && Front(StopperStep(s)) == Front(s)
  {
    var s' := StopperStep(s);
    forall r: nat | r < Front(s') ensures r in s'.outcome || InHand(s', r) {
      assert r in s.outcome || InHand(s, r);
    }
  }

  lemma StepDelivers(s: State)
    requires DeliveredOnce(s.outcome, s.delivered) && Truthful(s) && Guard(s, StopStep)
    ensures DeliveredOnce(StopperStep(s).outcome, StopperStep(s).delivered) && Truthful(StopperStep(s))
  {
    if s.stopper.Shut? && s.stopper.active.Some? {
      FailureDelivers(s, s.stopper.active.value);
    } else if s.stopper.Holding? {
      FailureDelivers(s, s.stopper.r);
    } else {
      QuietStep(s);
    }
  }

  lemma QuietStep(s: State)
    requires Guard(s, StopStep) && !s.stopper.Holding? && (s.stopper.Shut? ==> s.stopper.active.None?)
    ensures var s' := StopperStep(s);
            && s'.outcome == s.outcome && s'.delivered == s.delivered
            && s'.written == s.written && s'.runner == s.runner
  {
  }

  lemma StepStops(s: State)
    requires InOrder(s) && Taken(s) && StopOk(s) && Guard(s, StopStep)
    requires Front(StopperStep(s)) >= Front(s)
    ensures StopOk(StopperStep(s))
  {
  }

  lemma StepStarts(s: State)
    requires StartedInOrder(s) && Guard(s, StopStep) && Front(StopperStep(s)) >= Front(s)
    ensures StartedInOrder(StopperStep(s))
  {
    assert StopperStep(s).started == s.started && StopperStep(s).runner == s.runner;
  }

  lemma NextKeeps(s: State, a: Action)
    requires Inv(s) && Guard(s, a)
    ensures Inv(Next(s, a))
  {
    match a
    case Run(writeOk) =>
      RunTaken(s, writeOk);
      RunDelivers(s, writeOk);
      RunStarts(s, writeOk);
      RunStops(s, writeOk);
    case StopStep =>
      StepTaken(s);
      StepDelivers(s);
      StepStops(s);
      StepStarts(s);
    case _ => ChannelKeeps(s, a);
  }

  lemma {:induction false} RunHolds(capacity: nat, states: seq<State>, actions: seq<Action>, n: nat)
    requires IsRun(capacity, states, actions) && n < |states|
    ensures Inv(states[n])
  {
    if n > 0 {
      RunHolds(capacity, states, actions, n - 1);
      NextKeeps(states[n - 1], actions[n - 1]);
    }
  }

  // ----- what follows -----

  /** A request's completion is delivered exactly once if the request is finished, and not at all before. */
  lemma FinishedExactlyOnce(capacity: nat, states: seq<State>, actions: seq<Action>, n: nat, r: nat)
    requires IsRun(capacity, states, actions) && n < |states|
    ensures multiset(states[n].delivered)[r] == if r in states[n].outcome then 1 else 0
    ensures r in states[n].outcome ==> r < states[n].accepted
  {
    RunHolds(capacity, states, actions, n);
    OnceCounts(states[n].delivered, r);
  }

  lemma {:induction false} OnceCounts(q: seq<nat>, r: nat)
    requires NoRepeats(q)
    ensures multiset(q)[r] == if r in q then 1 else 0
  {
    if q != [] {
      OnceCounts(q[1..], r);
      assert q == [q[0]] + q[1..];
    }
  }

  /** An accepted request is queued, in somebody's hands, or finished. */
  lemma NothingForgotten(capacity: nat, states: seq<State>, actions: seq<Action>, n: nat, r: nat)
    requires IsRun(capacity, states, actions) && n < |states| && r < states[n].accepted
    ensures var s := states[n]; r in s.buffer || InHand(s, r) || r in s.outcome
  {
    RunHolds(capacity, states, actions, n);
    var s := states[n];
    if r >= Front(s) {
      assert s.buffer[r - Front(s)] == r;
    }
  }

  /**
   Once `stop` has returned, every accepted request is finished, except that the writer may still have one in hand
   which it has taken out but not begun to write, or whose write has just returned.
   */
  lemma StopFinishesEverything(capacity: nat, states: seq<State>, actions: seq<Action>, n: nat, r: nat)
    requires IsRun(capacity, states, actions) && n < |states| && r < states[n].accepted
    requires states[n].stopper.Done?
    ensures var s := states[n];
            || r in s.outcome
            || (HeldBy(s.runner) == Some(r)
                && (s.runner.Got? || s.runner.Activated? || s.runner.Refusing? || s.runner.Wrote?))
  {
    RunHolds(capacity, states, actions, n);
    assert r in states[n].outcome || InHand(states[n], r);
  }

  /** The number of its own steps that the writer needs to finish the request in its hand once the queue is stopped. */
  function StepsLeft(p: Runner): nat {
    match p
    case Got(_) => 3
    case Activated(_) => 2
    case Refusing(_) => 1
    case Wrote(_, _) => 1
    case _ => 0
  }

  /** The writer finishes that request within three steps of its own, without starting a write. */
  lemma {:induction false} WriterFinishesIt(s: State, r: nat, writeOks: seq<bool>)
    requires s.stopped && HeldBy(s.runner) == Some(r) && !s.runner.Writing?
    requires |writeOks| >= StepsLeft(s.runner)
    ensures r in RunSteps(s, writeOks[..StepsLeft(s.runner)]).outcome
    ensures RunSteps(s, writeOks[..StepsLeft(s.runner)]).started == s.started
    decreases StepsLeft(s.runner)
  {
    var oks, s' := writeOks[..StepsLeft(s.runner)], RunStep(s, writeOks[0]);
    assert Guard(s, Run(oks[0]));
    if StepsLeft(s.runner) > 1 {
      WriterFinishesIt(s', r, writeOks[1..]);
      assert oks[1..] == writeOks[1..][..StepsLeft(s'.runner)];
    } else {
      assert oks[1..] == [];
    }
  }

  /** Steps of the writer alone. */
  function RunSteps(s: State, writeOks: seq<bool>): State
    decreases |writeOks|
  {
    if writeOks == [] then s else RunSteps(RunStep(s, writeOks[0]), writeOks[1..])
  }

  /** Nothing but the writer's own steps moves the writer once the queue is stopped, and finished requests stay so. */
  lemma OthersLeaveTheWriter(s: State, a: Action)
    requires Guard(s, a) && s.stopped && !a.Run? && HeldBy(s.runner).Some?
    ensures Next(s, a).runner == s.runner && Next(s, a).stopped
    ensures forall r | r in s.outcome :: r in Next(s, a).outcome && Next(s, a).outcome[r] == s.outcome[r]
  {
  }

  /** The writer gives up only on a stopped queue. */
  lemma WriterExitsOnlyWhenStopped(capacity: nat, states: seq<State>, actions: seq<Action>, n: nat)
    requires IsRun(capacity, states, actions) && n < |states| && states[n].runner.Exited?
    ensures states[n].stopped
  {
    RunHolds(capacity, states, actions, n);
  }

  lemma SuccessMeansWritten(capacity: nat, states: seq<State>, actions: seq<Action>, n: nat, r: nat)
    requires IsRun(capacity, states, actions) && n < |states| && r in states[n].outcome && states[n].outcome[r]
    ensures r in states[n].written
  {
    RunHolds(capacity, states, actions, n);
  }

  /** Writes start in the order in which the channel accepted the requests, each at most once. */
  lemma WritesInOrder(capacity: nat, states: seq<State>, actions: seq<Action>, n: nat, i: nat, j: nat)
    requires IsRun(capacity, states, actions) && n < |states| && i < j < |states[n].started|
    ensures states[n].started[i] < states[n].started[j] < states[n].accepted
  {
    RunHolds(capacity, states, actions, n);
  }
}
