/** In which order the executor takes items, whom it refuses, and that its workers come to an end. */
module ExecutorOrder {
  import opened Wrappers
  import opened Executor
  import opened ExecutorInvariant
  import opened ExecutorTheorems

  // ----- the order of items -----

  /** Items stand in a queue in the order in which they entered it. */
  predicate Ascending(queue: seq<nat>, next: nat) {
    && (forall i, j | 0 <= i < j < |queue| :: queue[i] < queue[j])
    && (forall i | 0 <= i < |queue| :: queue[i] < next)
  }

  predicate QueuesAscend(s: State) {
    AllAscend(s.queues, s.next)
  }

  lemma TakenAscends(queue: seq<nat>, own: bool, next: nat)
    requires queue != [] && Ascending(queue, next)
    ensures Ascending(Rest(queue, own), next)
  {
  }

  predicate AllAscend(queues: seq<seq<nat>>, next: nat) {
    forall q {:trigger Ascending(queues[q], next)} | 0 <= q < |queues| :: Ascending(queues[q], next)
  }

  /** One queue is replaced; the numbers given out only grow. */
  lemma ReplacedAscends(s: State, q: nat, queue: seq<nat>, next: nat)
    requires AllAscend(s.queues, s.next) && q < |s.queues| && Ascending(queue, next) && s.next <= next
    ensures AllAscend(s.queues[q := queue], next)
  {
    var queues := s.queues[q := queue];
    forall k | 0 <= k < |queues| ensures Ascending(queues[k], next) {
      assert Ascending(s.queues[k], s.next);
    }
  }

  lemma MovedAscends(s: State, a: Action)
    requires Shaped(s) && Guard(s, a) && Mover(a).Some? && QueuesAscend(s)
    ensures QueuesAscend(WorkerStep(s, a))
  {
    if a.Take? {
      assert Ascending(s.queues[a.q], s.next);
      TakenAscends(s.queues[a.q], a.q == a.w, s.next);
      ReplacedAscends(s, a.q, Rest(s.queues[a.q], a.q == a.w), s.next);
    } else {
      assert WorkerStep(s, a).queues == s.queues && WorkerStep(s, a).next == s.next;
    }
  }

  lemma CalledAscends(s: State, a: Action)
    requires Shaped(s) && Guard(s, a) && Caller(a).Some? && QueuesAscend(s)
    ensures QueuesAscend(CallStep(s, a))
  {
    if a.Push? {
      var q := QueueOf(s.producers[a.p].target, |s.workers|);
      assert Ascending(s.queues[q], s.next);
      ReplacedAscends(s, q, s.queues[q] + [s.next], s.next + 1);
    } else {
      assert CallStep(s, a).queues == s.queues && CallStep(s, a).next == s.next;
    }
  }

  lemma ClosedAscends(s: State)
    requires Shaped(s) && !s.closer.Free? && QueuesAscend(s)
    ensures QueuesAscend(CloseStep(s))
  {
    if s.closer.Clearing? && s.closer.next <= |s.workers| {
      ReplacedAscends(s, ClearedQueue(s.closer.next, |s.workers|), [], s.next);
    }
  }

  lemma NextAscends(s: State, a: Action)
    requires Shaped(s) && Guard(s, a) && QueuesAscend(s)
    ensures QueuesAscend(Next(s, a))
  {
    if Mover(a).Some? {
      MovedAscends(s, a);
    } else if Caller(a).Some? {
      CalledAscends(s, a);
    } else if a.Close? {
      ClosedAscends(s);
    } else {
      assert Next(s, a).queues == s.queues && Next(s, a).next == s.next;
    }
  }

  lemma {:induction false} RunAscends(workers: nat, states: seq<State>, actions: seq<Action>, n: nat)
    requires IsRun(workers, states, actions) && n < |states|
    ensures QueuesAscend(states[n])
  {
    if n == 0 {
      assert forall q | 0 <= q < |states[0].queues| :: states[0].queues[q] == [];
    } else {
      RunAscends(workers, states, actions, n - 1);
      NextAscends(states[n - 1], actions[n - 1]);
    }
  }

  /**
   A worker takes the newest item of its own deque and the oldest item of the injector or of another worker's deque:
   so the injector and the thieves serve items in the order in which they came.
   */
  lemma TakesInOrder(workers: nat, states: seq<State>, actions: seq<Action>, k: nat, w: nat, q: nat)
    requires IsRun(workers, states, actions) && k < |actions| && actions[k] == Take(w, q)
    ensures w < |states[k + 1].workers| && states[k + 1].workers[w].Popped? && q < |states[k].queues| == |states[k + 1].queues|
    ensures var item, queue, queue' := states[k + 1].workers[w].item, states[k].queues[q], states[k + 1].queues[q];
            && item in queue && item !in queue'
            && (forall x | x in queue' :: if q == w then x < item else item < x)
            && (forall x | x in queue :: x == item || x in queue')
  {
    RunAscends(workers, states, actions, k);
    var s, queue := states[k], states[k].queues[q];
    assert Ascending(queue, s.next);
    assert states[k + 1] == Next(s, Take(w, q));
    if q == w {
      assert queue == queue[..|queue| - 1] + [queue[|queue| - 1]];
    } else {
      assert queue == [queue[0]] + queue[1..];
    }
  }

  /** An item goes to the end of the injector, or of the deque of the worker that its target number falls on. */
  lemma PushesAtTheEnd(workers: nat, states: seq<State>, actions: seq<Action>, k: nat, p: nat)
    requires IsRun(workers, states, actions) && k < |actions| && actions[k] == Push(p)
    ensures p < |states[k].producers| && |states[k].queues| == |states[k].workers| + 1 && |states[k].workers| > 0
    ensures var s, target := states[k], states[k].producers[p].target;
            var q := if target.None? then |s.workers| else target.value % |s.workers|;
            && states[k + 1].queues == s.queues[q := s.queues[q] + [s.next]] && states[k + 1].next == s.next + 1
            && states[k + 1].runnable == s.runnable + 1
  {
    assert states[k + 1] == Next(states[k], Push(p));
  }

  // ----- the steps of a shutdown -----

  /** Steps of the shutting thread alone. */
  function CloseSteps(s: State, n: nat): State {
    if n == 0 then s
    else
      var t := CloseSteps(s, n - 1);
      if Shaped(t) && !t.closer.Free? then CloseStep(t) else t
  }

  /** The injector and the first `k - 1` deques have been emptied, and their items cancelled. */
  ghost predicate Emptied(s: State, s': State, k: nat) {
    && Shaped(s) && Shaped(s') && s'.closer.Clearing? && s'.closer.next == k
    && s' == s.(queues := s'.queues, cancelled := s'.cancelled, closer := s'.closer)
    && |s.cancelled| + s'.closer.removed == |s'.cancelled|
    && (forall q | 0 <= q < |s.queues| ::
          s'.queues[q] == if k > 0 && (q == |s.workers| || q < k - 1) then [] else s.queues[q])
    && forall q, x | 0 <= q < |s.queues| && x in s.queues[q] :: x in s'.queues[q] || x in s'.cancelled
  }

  lemma ClearOne(s: State, t: State, k: nat)
    requires Emptied(s, t, k) && k <= |s.workers|
    ensures Emptied(s, CloseStep(t), k + 1)
  {
    var c, q := CloseStep(t), ClearedQueue(k, |s.workers|);
    assert c.queues == t.queues[q := []] && c.cancelled == t.cancelled + t.queues[q];
    forall p, x | 0 <= p < |s.queues| && x in s.queues[p] ensures x in c.queues[p] || x in c.cancelled {
      assert x in t.queues[p] || x in t.cancelled;
    }
  }

  lemma {:induction false} ClearingEmpties(s: State, k: nat)
    requires Shaped(s) && s.closer == Clearing(0, 0) && k <= |s.workers| + 1
    ensures Emptied(s, CloseSteps(s, k), k)
  {
    if k > 0 {
      ClearingEmpties(s, k - 1);
      assert CloseSteps(s, k) == CloseStep(CloseSteps(s, k - 1));
      ClearOne(s, CloseSteps(s, k - 1), k - 1);
    }
  }

  lemma {:induction false} CloseStepsAdd(s: State, m: nat, n: nat)
    ensures CloseSteps(CloseSteps(s, m), n) == CloseSteps(s, m + n)
  {
    if n > 0 {
      CloseStepsAdd(s, m, n - 1);
    }
  }

  /** What a cancelling shutdown has done when it is about to wake everybody. */
  ghost predicate AllCancelled(s: State, s': State) {
    && s'.closer == CloserWillNotify && s'.cancelling && |s'.queues| == |s.queues|
    && (forall q | 0 <= q < |s'.queues| :: s'.queues[q] == [])
    && (forall q, x | 0 <= q < |s.queues| && x in s.queues[q] :: x in s'.cancelled)
    && s'.runnable == s.runnable - (|s'.cancelled| - |s.cancelled|)
  }

  lemma LastClears(s: State, begun: State, t: State)
    requires Shaped(s) && s.closer == Requested(true) && begun == CloseStep(s) && Emptied(begun, t, |s.workers| + 1)
    ensures AllCancelled(s, CloseStep(t))
  {
    assert CloseStep(t) == t.(runnable := t.runnable - t.closer.removed, closer := CloserWillNotify);
  }

  /** A cancelling shutdown that nobody disturbs leaves no item queued: all of them are cancelled. */
  lemma CancelClearsEverything(s: State)
    requires Shaped(s) && s.closer == Requested(true)
    ensures AllCancelled(s, CloseSteps(s, |s.workers| + 3))
  {
    var begun, n := CloseStep(s), |s.workers| + 1;
    assert CloseSteps(s, 1) == CloseStep(CloseSteps(s, 0));
    ClearingEmpties(begun, n);
    LastClears(s, begun, CloseSteps(begun, n));
    CloseStepsAdd(s, 1, n);
    CloseStepsAdd(s, n + 1, 1);
    assert CloseSteps(s, n + 2) == CloseStep(CloseSteps(s, n + 1));
  }

  // ----- who is refused -----

  /**
   Submissions from outside are refused exactly once the executor no longer accepts. What a running item reschedules
   is refused only while everything is being cancelled, other continuations from the request of a shutdown on.
   */
  lemma RefusalsAreExact(workers: nat, states: seq<State>, actions: seq<Action>, k: nat, p: nat)
    requires IsRun(workers, states, actions) && k < |actions| && actions[k] == Check(p)
    ensures p < |states[k].producers| && p < |states[k + 1].producers|
    ensures var s, me := states[k], states[k].producers[p];
            var refused := if !me.internal then !s.accepting else if me.thread.Some? then s.cancelling else s.requested;
            states[k + 1].producers[p].call == if refused then Returned(false) else Admitted
  {
    RunHolds(workers, states, actions, k);
    var s, me := states[k], states[k].producers[p];
    assert states[k + 1] == Next(s, Check(p));
    assert CallOk(me, s.workers);
  }

  // ----- the end of a worker -----

  /** On the way from an empty look at the queues to the exit. */
  predicate Leaves(p: Worker) {
    p.Captured? || p.Quiet? || p.AskedCancel? || p.AskedDrain? || p.Armed? || p.Leaving?
  }

  function LooksLeft(p: Worker): nat {
    match p
    case Captured(_) => 5
    case Quiet(_) => 4
    case AskedCancel(_) => 2
    case AskedDrain(_) => 3
    case Armed(_) => 2
    case Leaving => 1
    case _ => 0
  }

  /**
   Once a shutdown was requested and nothing is queued or running, every look of an idle worker brings it nearer to its
   exit, which it reaches within five of them.
   */
  lemma IdleWorkersExit(s: State, w: nat)
    requires Shaped(s) && w < |s.workers| && s.requested && s.runnable == 0 && s.active == 0 && Leaves(s.workers[w])
    ensures Guard(s, Look(w)) && Next(s, Look(w)) == s.(workers := s.workers[w := Next(s, Look(w)).workers[w]])
    ensures var p := Next(s, Look(w)).workers[w];
            LooksLeft(p) < LooksLeft(s.workers[w]) && (p.Gone? || Leaves(p))
  {
  }

  /** A worker exits only after a shutdown was requested, and when it sees that nothing is queued or nothing runs. */
  lemma ExitsForAReason(workers: nat, states: seq<State>, actions: seq<Action>, k: nat, w: nat)
    requires IsRun(workers, states, actions) && k < |actions| && w < |states[k].workers| && w < |states[k + 1].workers|
    requires !states[k].workers[w].Gone? && states[k + 1].workers[w].Gone?
    ensures states[k].requested && (states[k].runnable == 0 || states[k].active == 0)
    ensures actions[k] == Look(w)
  {
    RunHolds(workers, states, actions, k);
    assert states[k + 1] == Next(states[k], actions[k]);
    ExitStep(states[k], actions[k], w);
  }

  lemma ExitStep(s: State, a: Action, w: nat)
    requires Shaped(s) && FlagsOk(s) && Guard(s, a) && w < |s.workers| && w < |Next(s, a).workers|
    requires !s.workers[w].Gone? && Next(s, a).workers[w].Gone?
    ensures s.requested && (s.runnable == 0 || s.active == 0) && a == Look(w)
  {
  }
}
