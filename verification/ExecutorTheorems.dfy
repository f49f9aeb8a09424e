/** What every run of the executor satisfies. */
module ExecutorTheorems {
  import opened Wrappers
  import opened Sums
  import opened Executor
  import opened ExecutorInvariant
  import opened ExecutorProofs
  import opened ExecutorShutdown

  lemma NextKeeps(s: State, a: Action)
    requires Inv(s) && Guard(s, a)
    ensures Inv(Next(s, a))
  {
    CountersNatural(s);
    NextTallied(s, a);
    NextEpochs(s, a);
    NextLossless(s, a);
    NextStuck(s, a);
    NextOwed(s, a);
    NextOwedOk(s, a);
    NextCalls(s, a);
    NextFlags(s, a);
    NextShaped(s, a);
  }

  lemma NextShaped(s: State, a: Action)
    requires Shaped(s) && Guard(s, a)
    ensures SameShape(s, Next(s, a))
  {
    if Mover(a).Some? {
      MovedShaped(s, a);
    } else if Caller(a).Some? {
      CalledShaped(s, a);
    } else if a.Close? {
      assert SameShape(s, CloseStep(s));
    }
  }

  predicate SameShape(s: State, s': State) {
    Shaped(s') && |s'.workers| == |s.workers|
  }

  lemma MovedShaped(s: State, a: Action)
    requires Shaped(s) && Guard(s, a) && Mover(a).Some?
    ensures SameShape(s, WorkerStep(s, a))
  {
  }

  lemma CalledShaped(s: State, a: Action)
    requires Shaped(s) && Guard(s, a) && Caller(a).Some?
    ensures SameShape(s, CallStep(s, a))
  {
  }

  lemma {:induction false} RunHolds(workers: nat, states: seq<State>, actions: seq<Action>, n: nat)
    requires IsRun(workers, states, actions) && n < |states|
    ensures Inv(states[n]) && |states[n].workers| == workers
  {
    if n == 0 {
      InitHolds(workers);
    } else {
      RunHolds(workers, states, actions, n - 1);
      NextKeeps(states[n - 1], actions[n - 1]);
      NextShaped(states[n - 1], actions[n - 1]);
    }
  }

  // ----- counters and conservation -----

  /** The counters are exact: neither ever underflows, and the runnable counter counts nothing twice. */
  lemma CountersAreExact(workers: nat, states: seq<State>, actions: seq<Action>, n: nat)
    requires IsRun(workers, states, actions) && n < |states|
    ensures var s := states[n];
            && s.active == Sum(s.workers, Held, None) && s.active >= 0
            && s.runnable == Sum(s.queues, Contents, None) + Sum(s.workers, Window, None) + Unsubtracted(s.closer)
            && s.runnable >= 0
            && ((exists w | 0 <= w < |s.workers| :: s.workers[w].Popped?) ==> s.runnable > 0)
            && ((exists w | 0 <= w < |s.workers| :: s.workers[w].Executing?) ==> s.active > 0)
            && (s.closer.Clearing? ==> s.runnable >= s.closer.removed)
  {
    RunHolds(workers, states, actions, n);
    var s := states[n];
    forall w | 0 <= w < |s.workers| ensures Window(s.workers[w], None) <= s.runnable && Held(s.workers[w], None) <= s.active {
      SumAtLeast(s.workers, w, Window, None);
      SumAtLeast(s.workers, w, Held, None);
    }
  }

  /** An item that entered a queue is queued, held by a worker, executed or cancelled: one of them, and once. */
  lemma ItemsNeitherLostNorDuplicated(workers: nat, states: seq<State>, actions: seq<Action>, n: nat, x: nat)
    requires IsRun(workers, states, actions) && n < |states|
    ensures var s := states[n];
            Sum(s.queues, Contents, Some(x)) + Sum(s.workers, Held, Some(x))
            + multiset(s.executed)[x] + multiset(s.cancelled)[x]
            == if x < s.next then 1 else 0
  {
    RunHolds(workers, states, actions, n);
    assert Places(states[n], x) == if x < states[n].next then 1 else 0;
  }

  /** Without a cancelling shutdown nothing is cancelled. */
  lemma DrainCancelsNothing(workers: nat, states: seq<State>, actions: seq<Action>, n: nat)
    requires IsRun(workers, states, actions) && n < |states| && !states[n].cancelling
    ensures states[n].cancelled == []
  {
    RunHolds(workers, states, actions, n);
  }

  // ----- no lost wakeup -----

  /**
   Coalescing notifications is lossless: while an item is queued, the workers cannot all be asleep or about to
   sleep, unless a producer has yet to decide on, issue or deliver a notification that will wake one of them.
   */
  lemma CoalescingIsLossless(workers: nat, states: seq<State>, actions: seq<Action>, n: nat, q: nat)
    requires IsRun(workers, states, actions) && n < |states|
    requires q < |states[n].queues| && states[n].queues[q] != []
    requires SomeDrowsy(states[n].workers, states[n].epoch)
    ensures var s := states[n];
            SomeAlert(s.workers) || SomeOwes(s.producers, |s.workers|)
            || (SomeNotified(s.producers) && SomeWakeable(s.workers, s.epoch))
  {
    RunHolds(workers, states, actions, n);
    SumAtLeast(states[n].queues, q, Contents, None);
  }

  /** Whether an idle producer side leaves nothing to wait for. */
  ghost predicate ProducersSettled(ps: seq<Producer>) {
    forall i | 0 <= i < |ps| :: ps[i].call.Returned?
  }

  /** Once every call of `enqueue` has returned, the remaining workers never all sleep beside a queued item. */
  lemma NeverAllAsleep(workers: nat, states: seq<State>, actions: seq<Action>, n: nat, q: nat, w: nat)
    requires IsRun(workers, states, actions) && n < |states|
    requires ProducersSettled(states[n].producers)
    requires q < |states[n].queues| && states[n].queues[q] != []
    requires w < |states[n].workers| && !states[n].workers[w].Gone?
    ensures exists i | 0 <= i < |states[n].workers| :: !states[n].workers[i].Gone? && !states[n].workers[i].Blocked?
  {
    RunHolds(workers, states, actions, n);
    var s := states[n];
    SumAtLeast(s.queues, q, Contents, None);
    if s.workers[w].Blocked? {
      assert Drowsy(s.workers[w], s.epoch);
      var i :| 0 <= i < |s.workers| && Alert(s.workers[i]);
    }
  }

  /**
   A shutdown never hangs: while some worker has not exited, a worker is awake, the shutdown has not finished its
   notification, or a producer still owes one.
   */
  lemma ShutdownNeverHangs(workers: nat, states: seq<State>, actions: seq<Action>, n: nat, w: nat)
    requires IsRun(workers, states, actions) && n < |states| && states[n].requested
    requires w < |states[n].workers| && !states[n].workers[w].Gone?
    ensures var s := states[n];
            || !s.closer.Free?
            || SomeOwes(s.producers, |s.workers|) || (SomeNotified(s.producers) && SomeWakeable(s.workers, s.epoch))
            || exists i | 0 <= i < |s.workers| :: !s.workers[i].Gone? && !s.workers[i].Blocked?
  {
    RunHolds(workers, states, actions, n);
    var s := states[n];
    if s.workers[w].Blocked? {
      assert Stuck(s.workers[w], s.epoch) && Rescued(s.workers[w], s.workers, s.closer, s.runnable, s.active, s.epoch);
      if s.active > 0 {
        ActiveIsAlert(s.workers);
      } else if s.runnable > 0 {
        assert Drowsy(s.workers[w], s.epoch);
      }
    }
  }

  // ----- drain -----

  lemma OwedGrows(workers: nat, states: seq<State>, actions: seq<Action>, m: nat, n: nat)
    requires IsRun(workers, states, actions) && m <= n < |states|
    ensures states[m].owed <= states[n].owed
  {
    var owed := seq(|states|, k requires 0 <= k < |states| => states[k].owed);
    forall k | 0 <= k < |owed| - 1 ensures owed[k] <= owed[k + 1] {
      StepOwes(workers, states, actions, k);
    }
    Ascending(owed, m, n);
  }

  lemma {:induction false} Ascending(sets: seq<set<nat>>, m: nat, n: nat)
    requires forall k | 0 <= k < |sets| - 1 :: sets[k] <= sets[k + 1]
    requires m <= n < |sets|
    ensures sets[m] <= sets[n]
  {
    if m < n {
      Ascending(sets, m, n - 1);
      assert sets[n - 1] <= sets[n - 1 + 1];
    }
  }

  lemma StepOwes(workers: nat, states: seq<State>, actions: seq<Action>, k: nat)
    requires IsRun(workers, states, actions) && k + 1 < |states|
    ensures states[k].owed <= states[k + 1].owed
  {
    NextOwes(states[k], actions[k]);
  }

  lemma NextOwes(s: State, a: Action)
    requires Shaped(s) && Guard(s, a)
    ensures s.owed <= Next(s, a).owed
  {
    if Mover(a).Some? {
      assert WorkerStep(s, a).owed == s.owed;
    } else if Caller(a).Some? {
      assert s.owed <= CallStep(s, a).owed;
    } else if a.Close? {
      assert CloseStep(s).owed == s.owed;
    }
  }

  lemma ExitedHoldNothing(s: State, x: nat)
    requires Inv(s) && s.joined
    ensures !exists y :: Outstanding(s, y) && !s.cancelling
    ensures x in s.owed && !s.cancelling ==> multiset(s.executed)[x] == 1
  {
    assert !exists w | 0 <= w < |s.workers| :: Unarmed(s.workers[w]);
    assert Places(s, x) == if x < s.next then 1 else 0;
    if x in s.owed && !s.cancelling {
      assert !Outstanding(s, x);
    }
  }

  /**
   When a draining shutdown has joined its workers, every item queued before it was requested has been executed
   exactly once, and so has every item that a running item rescheduled, at any time.
   */
  lemma DrainExecutesEverythingOwed(workers: nat, states: seq<State>, actions: seq<Action>, k: nat, n: nat, p: nat)
    requires IsRun(workers, states, actions) && k < n < |states|
    requires actions[k] == Push(p)
    requires !states[k].requested || (states[k].producers[p].internal && states[k].producers[p].thread.Some?)
    requires states[n].joined && !states[n].cancelling
    ensures multiset(states[n].executed)[states[k].next] == 1
  {
    assert states[k + 1] == Next(states[k], Push(p));
    OwedGrows(workers, states, actions, k + 1, n);
    RunHolds(workers, states, actions, n);
    ExitedHoldNothing(states[n], states[k].next);
  }

  /** A refused call leaves no item behind, and only a closing executor refuses. */
  lemma RefusalsHaveAReason(workers: nat, states: seq<State>, actions: seq<Action>, k: nat, p: nat)
    requires IsRun(workers, states, actions) && k + 1 < |states| && actions[k] == Check(p)
    requires states[k + 1].producers[p].call == Returned(false)
    ensures !states[k].accepting
    ensures states[k + 1].next == states[k].next && states[k + 1].queues == states[k].queues
  {
    RunHolds(workers, states, actions, k);
    assert states[k + 1] == Next(states[k], Check(p));
  }

  /** An external submission that has passed the flags, with everything else at rest and every worker gone. */
  function Late(call: Call, queued: seq<nat>, epoch: nat): State {
    State([Gone], [[], queued], |queued|, 0, epoch, false, true, false, false,
          [Producer(None, false, None, call)], Free, |queued|, {}, [], [])
  }

  lemma Extended(states: seq<State>, actions: seq<Action>, s: State, a: Action, s': State)
    requires IsRun(1, states, actions) && s == states[|actions|] && Shaped(s) && Guard(s, a) && s' == Next(s, a)
    ensures IsRun(1, states + [s'], actions + [a])
    ensures (states + [s'])[|actions + [a]|] == s'
  {
  }

  /** One worker that has nothing to do, while a draining shutdown and a submission that has passed the flags are under way. */
  function Draining(worker: Worker, closer: Closer, requested: bool, epoch: nat): State {
    Late(Admitted, [], epoch).(workers := [worker], closer := closer, requested := requested)
  }

  lemma SubmissionAdmitted() returns (states: seq<State>, actions: seq<Action>)
    ensures IsRun(1, states, actions) && |actions| == 3
    ensures states[|actions|] == Draining(Scanning, Stopping(false), false, 0)
  {
    var s0 := Init(1);
    assert s0.workers == [Scanning] && s0.queues == [[], []];
    var s1 := s0.(producers := [Producer(None, false, None, Entered)]);
    var s2 := s0.(producers := [Producer(None, false, None, Admitted)]);
    states, actions := [s0], [];
    Extended(states, actions, s0, Enter(None, false, None), s1);
    states, actions := states + [s1], actions + [Enter(None, false, None)];
    assert Next(s1, Check(0)) == s2;
    Extended(states, actions, s1, Check(0), s2);
    states, actions := states + [s2], actions + [Check(0)];
    var s3 := Draining(Scanning, Stopping(false), false, 0);
    assert Next(s2, Shutdown(false)) == s3;
    Extended(states, actions, s2, Shutdown(false), s3);
    states, actions := states + [s3], actions + [Shutdown(false)];
  }

  lemma ShutdownRequested() returns (states: seq<State>, actions: seq<Action>)
    ensures IsRun(1, states, actions) && |actions| == 7
    ensures states[|actions|] == Draining(Scanning, Free, true, 1)
  {
    states, actions := SubmissionAdmitted();
    var s3, s4 := states[3], Draining(Scanning, Requested(false), true, 0);
    Extended(states, actions, s3, Close, s4);
    states, actions := states + [s4], actions + [Close];
    var s5 := s4.(closer := CloserWillNotify);
    Extended(states, actions, s4, Close, s5);
    states, actions := states + [s5], actions + [Close];
    var s6 := s4.(closer := CloserNotified, epoch := 1);
    Extended(states, actions, s5, Close, s6);
    states, actions := states + [s6], actions + [Close];
    var s7 := s6.(closer := Free);
    assert WokenAll([Scanning], 1) == [Scanning];
    Extended(states, actions, s6, Close, s7);
    states, actions := states + [s7], actions + [Close];
  }

  /** One worker: a submission passes the flags, then a draining shutdown runs and the worker exits. */
  lemma WorkerExits() returns (states: seq<State>, actions: seq<Action>)
    ensures IsRun(1, states, actions) && |actions| == 12
    ensures states[|actions|] == Late(Admitted, [], 1)
  {
    states, actions := ShutdownRequested();
    var s := states[7];
    var s' := Draining(Captured(1), Free, true, 1);
    assert Next(s, Miss(0)) == s';
    Extended(states, actions, s, Miss(0), s');
    states, actions, s := states + [s'], actions + [Miss(0)], s';
    var path := [Quiet(Some(1)), AskedDrain(Some(1)), Armed(Some(1)), Gone];
    var i := 0;
    while i < 4
      invariant i <= 4 && IsRun(1, states, actions) && |actions| == 8 + i && states[|actions|] == s
      invariant s == Draining(if i == 0 then Captured(1) else path[i - 1], Free, true, 1)
    {
      s' := Draining(path[i], Free, true, 1);
      assert s.workers[0 := path[i]] == s'.workers;
      Extended(states, actions, s, Look(0), s');
      states, actions, s, i := states + [s'], actions + [Look(0)], s', i + 1;
    }
  }

  /**
   The drain guarantee does not extend to an external submission that races the request: `enqueue` accepts an item
   which no worker will ever execute.
   */
  lemma RacingSubmissionIsLost() returns (states: seq<State>, actions: seq<Action>)
    ensures IsRun(1, states, actions)
    ensures var s := states[|actions|];
            s.joined && !s.cancelling && s.next == 1 && s.executed == [] && |s.producers| == 1
            && s.producers[0].call == Returned(true)
  {
    states, actions := WorkerExits();
    var s := Late(Admitted, [], 1);
    var calls := [Pushed(0), WillNotify, Notified, Returned(true)];
    var steps := [Push(0), Decide(0), Raise(0), NotifyOne(0, None)];
    var i := 0;
    while i < 4
      invariant i <= 4 && IsRun(1, states, actions) && |actions| == 12 + i && states[|actions|] == s
      invariant s == if i == 0 then Late(Admitted, [], 1) else Late(calls[i - 1], [0], if i <= 2 then 1 else 2)
    {
      var s' := Late(calls[i], [0], if i <= 1 then 1 else 2);
      LateStep(s, steps[i], s');
      Extended(states, actions, s, steps[i], s');
      states, actions, s, i := states + [s'], actions + [steps[i]], s', i + 1;
    }
    Extended(states, actions, s, Join, s.(joined := true));
    states, actions := states + [s.(joined := true)], actions + [Join];
  }

  lemma LateStep(s: State, a: Action, s': State)
    requires || (a == Push(0) && s == Late(Admitted, [], 1) && s' == Late(Pushed(0), [0], 1))
             || (a == Decide(0) && s == Late(Pushed(0), [0], 1) && s' == Late(WillNotify, [0], 1))
             || (a == Raise(0) && s == Late(WillNotify, [0], 1) && s' == Late(Notified, [0], 2))
             || (a == NotifyOne(0, None) && s == Late(Notified, [0], 2) && s' == Late(Returned(true), [0], 2))
    ensures Shaped(s) && Guard(s, a) && s' == Next(s, a)
  {
    assert s.producers[0 := s'.producers[0]] == s'.producers;
    if a == Push(0) {
      var queue := s.queues[1] + [0];
      assert queue == [0] == s'.queues[1];
      assert s.queues[1 := queue] == s'.queues;
    }
  }
}
