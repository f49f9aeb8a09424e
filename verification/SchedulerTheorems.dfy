/** What the scheduler guarantees in every state of every run. */
module SchedulerTheorems {
  import opened Wrappers
  import opened Mailboxes
  import opened Boxes
  import opened BoxProofs
  import opened Accounting
  import opened Scheduler
  import opened SchedulerProofs
  import opened SchedulerInvariant

  // ----- exactly one completion -----

  ghost predicate HasEvent(log: seq<Event>, id: nat) {
    exists p :: 0 <= p < |log| && log[p].inv.id == id
  }

  predicate Holds(m: Mailbox, id: nat) {
    || (exists x | x in m.pending :: x.id == id)
    || (m.active.Some? && m.active.value.inv.id == id)
  }

  ghost predicate InSomeMailbox(boxes: seq<Box>, id: nat) {
    exists j :: 0 <= j < |boxes| && Holds(boxes[j].mb, id)
  }

  lemma {:induction false} EventWeightOf(log: seq<Event>, id: nat)
    ensures EventWeight(log, IsId(id)) > 0 <==> HasEvent(log, id)
    ensures forall p, q | 0 <= p < q < |log| && log[p].inv.id == id && log[q].inv.id == id ::
              EventWeight(log, IsId(id)) >= 2
  {
    if log != [] {
      EventWeightOf(log[1..], id);
      if HasEvent(log[1..], id) {
        var p :| 0 <= p < |log[1..]| && log[1..][p].inv.id == id;
        assert log[p + 1].inv.id == id;
      }
      forall p, q | 0 <= p < q < |log| && log[p].inv.id == id && log[q].inv.id == id
        ensures EventWeight(log, IsId(id)) >= 2
      {
        assert log[1..][q - 1].inv.id == id;
        if p > 0 {
          assert log[1..][p - 1].inv.id == id;
        }
      }
      if HasEvent(log, id) && log[0].inv.id != id {
        var p :| 0 <= p < |log| && log[p].inv.id == id;
        assert log[1..][p - 1].inv.id == id;
      }
    }
  }

  lemma {:induction false} QueueWeightOf(p: seq<Invocation>, id: nat)
    ensures QueueWeight(p, IsId(id)) > 0 <==> exists x | x in p :: x.id == id
  {
    if p != [] {
      QueueWeightOf(p[1..], id);
      if exists x | x in p[1..] :: x.id == id {
        var x :| x in p[1..] && x.id == id;
        assert x in p;
      }
    }
  }

  lemma {:induction false} SumWeightOf(boxes: seq<Box>, id: nat)
    ensures SumWeight(boxes, IsId(id)) > 0 <==> InSomeMailbox(boxes, id)
  {
    if boxes != [] {
      SumWeightOf(boxes[1..], id);
      QueueWeightOf(boxes[0].mb.pending, id);
      assert Weight(boxes[0].mb, IsId(id)) > 0 <==> Holds(boxes[0].mb, id);
      if InSomeMailbox(boxes[1..], id) {
        var j :| 0 <= j < |boxes[1..]| && Holds(boxes[1..][j].mb, id);
        assert Holds(boxes[j + 1].mb, id);
      }
      if InSomeMailbox(boxes, id) && !Holds(boxes[0].mb, id) {
        var j :| 0 <= j < |boxes| && Holds(boxes[j].mb, id);
        assert Holds(boxes[1..][j - 1].mb, id);
      }
    }
  }

  /**
   Of every admitted invocation exactly one of two things is true: it still waits or runs in a mailbox, or its
   completion event has been produced. No completion event is ever produced twice, and none for anything else.
   */
  lemma ExactlyOneCompletion(o: Options, states: seq<State>, actions: seq<Action>, n: nat)
    requires IsRun(o, states, actions) && n < |states|
    ensures var s := states[n];
            && (forall id: nat | id < s.accepted :: HasEvent(s.log, id) != InSomeMailbox(s.boxes, id))
            && (forall p, q | 0 <= p < q < |s.log| :: s.log[p].inv.id != s.log[q].inv.id)
            && (forall p | 0 <= p < |s.log| :: s.log[p].inv.id < s.accepted)
  {
    RunHolds(o, states, actions, n);
    var s := states[n];
    forall id: nat
      ensures id < s.accepted ==> HasEvent(s.log, id) != InSomeMailbox(s.boxes, id)
      ensures HasEvent(s.log, id) ==> id < s.accepted
    {
      EventWeightOf(s.log, id);
      SumWeightOf(s.boxes, id);
      assert EventWeight(s.log, IsId(id)) + SumWeight(s.boxes, IsId(id)) == if id < s.accepted then 1 else 0;
    }
    forall p | 0 <= p < |s.log| ensures s.log[p].inv.id < s.accepted {
      assert HasEvent(s.log, s.log[p].inv.id);
    }
    forall p, q | 0 <= p < q < |s.log| ensures s.log[p].inv.id != s.log[q].inv.id {
      var id := s.log[p].inv.id;
      EventWeightOf(s.log, id);
      assert EventWeight(s.log, IsId(id)) + SumWeight(s.boxes, IsId(id)) <= 1;
    }
  }

  /** The number of invocations in a mailbox. */
  function Load(m: Mailbox): nat {
    |m.pending| + if m.active.Some? then 1 else 0
  }

  function SumLoads(boxes: seq<Box>): nat {
    if boxes == [] then 0 else Load(boxes[0].mb) + SumLoads(boxes[1..])
  }

  lemma {:induction false} LoadsAreWeights(boxes: seq<Box>)
    ensures SumLoads(boxes) == SumWeight(boxes, One())
  {
    if boxes != [] {
      LoadsAreWeights(boxes[1..]);
      QueueCount(boxes[0].mb.pending);
    }
  }

  /** accepted = completed + failed + cancelled + pending, and `pending_tasks` is the sum of all mailbox loads. */
  lemma Conservation(o: Options, states: seq<State>, actions: seq<Action>, n: nat)
    requires IsRun(o, states, actions) && n < |states|
    ensures var s, t := states[n], Reported(states[n]);
            && s.accepted == t.completed + t.failed + t.cancelled + s.counters.total
            && s.counters.total == SumLoads(s.boxes)
  {
    RunHolds(o, states, actions, n);
    LoadsAreWeights(states[n].boxes);
  }

  // ----- serial execution -----

  /**
   At most one worker is inside a mailbox, and it finds its invocation still active when it comes back: the early
   returns of `run_mailbox` after a resume are never taken.
   */
  lemma SerialExecution(o: Options, states: seq<State>, actions: seq<Action>, n: nat, j: nat)
    requires IsRun(o, states, actions) && n < |states| && j < |states[n].boxes|
    ensures var b := states[n].boxes[j];
            && |b.runners| <= 1
            && (forall r | r in b.runners :: Owns(b.mb, r.gen) && b.mb.status == Running)
  {
    RunHolds(o, states, actions, n);
    SoleRunner(states[n].boxes[j], states[n].flags);
  }

  lemma SoleRunner(b: Box, f: Flags)
    requires BoxInv(b, f)
    ensures |b.runners| <= 1 && forall r | r in b.runners :: Owns(b.mb, r.gen) && b.mb.status == Running
  {
  }

  /** Exactly one ticket in flight carries the generation of a Runnable mailbox; an active one has none otherwise. */
  lemma OneTicket(o: Options, states: seq<State>, actions: seq<Action>, n: nat, j: nat)
    requires IsRun(o, states, actions) && n < |states| && j < |states[n].boxes|
    ensures var b := states[n].boxes[j];
            b.mb.active.Some? ==> b.tickets[b.mb.active.value.gen] == if b.mb.status == Runnable then 1 else 0
  {
    RunHolds(o, states, actions, n);
    assert BoxInv(states[n].boxes[j], states[n].flags);
  }

  /**
   Invocations of one mailbox key become active in admission order, across reclamation and re-creation of the
   mailbox; once a later one was active, an earlier one no longer waits.
   */
  lemma AdmissionOrder(o: Options, states: seq<State>, actions: seq<Action>, n: nat)
    requires IsRun(o, states, actions) && n < |states|
    ensures var s := states[n];
            && (forall p, q | 0 <= p < q < |s.activations| && s.activations[p].key == s.activations[q].key ::
                  s.activations[p].id < s.activations[q].id)
            && (forall p, j, x | 0 <= p < |s.activations| && 0 <= j < |s.boxes| && x in s.boxes[j].mb.pending
                                 && s.activations[p].key == x.key :: s.activations[p].id < x.id)
  {
    RunHolds(o, states, actions, n);
    var s := states[n];
    forall p, j, x | 0 <= p < |s.activations| && 0 <= j < |s.boxes| && x in s.boxes[j].mb.pending
                     && s.activations[p].key == x.key
      ensures s.activations[p].id < x.id
    {
      KeyOfQueued(s.boxes[j].mb.pending, s.boxes[j].key, x);
      assert Behind(s.boxes[j].mb, s.activations[p].id);
    }
  }

  // ----- no lost wakeup -----

  lemma QuietBox(b: Box, f: Flags)
    requires BoxInv(b, f) && !f.cancelling && b.tickets == multiset{} && b.runners == multiset{} && b.owners == multiset{}
    ensures b.mb.status != Suspended ==> b.mb.pending == [] && b.mb.active.None?
  {
  }

  lemma SuspendedBox(b: Box, f: Flags)
    requires BoxInv(b, f) && !f.cancelling && b.mb.status == Suspended
    ensures b.mb.active.Some? && b.begun >= 1 && b.mb.active.value.taskEpoch == b.begun
    ensures !Delivered(b.mb.generation, b.done, b.notices, b.begun)
  {
  }

  /**
   Without a cancelling shutdown, a mailbox for which nothing is in flight is empty, unless it is Suspended on an
   epoch whose completion has not been delivered.
   */
  lemma NothingStranded(o: Options, states: seq<State>, actions: seq<Action>, n: nat, j: nat)
    requires IsRun(o, states, actions) && n < |states| && j < |states[n].boxes| && !states[n].flags.cancelling
    requires var b := states[n].boxes[j];
             b.tickets == multiset{} && b.runners == multiset{} && b.owners == multiset{}
    ensures var b := states[n].boxes[j];
            if b.mb.status == Suspended then
              b.begun >= 1 && b.mb.active.Some? && b.mb.active.value.taskEpoch == b.begun
              && !Delivered(b.mb.generation, b.done, b.notices, b.begun)
            else b.mb.pending == [] && b.mb.active.None?
  {
    RunHolds(o, states, actions, n);
    QuietBox(states[n].boxes[j], states[n].flags);
    if states[n].boxes[j].mb.status == Suspended {
      SuspendedBox(states[n].boxes[j], states[n].flags);
    }
  }

  /** A mailbox is never Suspended on an epoch whose completion has already been delivered. */
  lemma NoLostWakeup(o: Options, states: seq<State>, actions: seq<Action>, n: nat, j: nat)
    requires IsRun(o, states, actions) && n < |states| && j < |states[n].boxes| && !states[n].flags.cancelling
    requires states[n].boxes[j].mb.status == Suspended
    ensures var b := states[n].boxes[j];
            && b.mb.active.Some?
            && !Delivered(b.mb.generation, b.done, b.notices, b.mb.active.value.taskEpoch)
  {
    RunHolds(o, states, actions, n);
    SuspendedBox(states[n].boxes[j], states[n].flags);
  }

  /**
   A task is resumed only when the operations of all epochs it has begun are completed, so no awaiter is resumed
   before completion.
   */
  lemma NeverResumedEarly(o: Options, states: seq<State>, actions: seq<Action>, n: nat, j: nat, gen: nat, epoch: nat)
    requires IsRun(o, states, actions) && n < |states| && j < |states[n].boxes|
    requires TicketCurrent(states[n].boxes[j].mb, gen) && 1 <= epoch <= states[n].boxes[j].begun
    ensures (gen, epoch) in states[n].boxes[j].done
  {
    RunHolds(o, states, actions, n);
    var b := states[n].boxes[j];
    assert BoxInv(b, states[n].flags);
    assert Delivered(b.mb.generation, b.done, b.notices, epoch);
  }

  // ----- the idle handoff -----

  /** A mailbox at rest without a claim is empty, and a claim has exactly one holder with attempts left. */
  lemma IdleIsEmptyOrClaimed(o: Options, states: seq<State>, actions: seq<Action>, n: nat, j: nat)
    requires IsRun(o, states, actions) && n < |states| && j < |states[n].boxes|
    requires states[n].boxes[j].mb.status == Idle
    ensures var b := states[n].boxes[j];
            && b.mb.active.None?
            && (if b.mb.claimed then |b.owners| == 1 && (forall a | a in b.owners :: a < MAX_IDLE_HANDOFF_YIELDS)
                else b.mb.pending == [])
  {
    RunHolds(o, states, actions, n);
    assert BoxInv(states[n].boxes[j], states[n].flags);
  }

  /** Every attempt either gives the claim up for good or was one of the first three on an empty queue. */
  lemma ClaimIsReleased(m: Mailbox, attempt: nat, v: View, now: nat)
    requires attempt < MAX_IDLE_HANDOFF_YIELDS && m.claimed && m.status == Idle && m.active.None?
    ensures var m' := Handoff(m, attempt, v, now).mb;
            m'.claimed ==> m' == m && m.pending == [] && attempt + 1 < MAX_IDLE_HANDOFF_YIELDS
  {
    var k := PrepareNextTurn(m.(claimed := false), v, now);
  }

  // ----- shutdown -----

  lemma SweptIsEmpty(b: Box, f: Flags)
    requires BoxInv(b, f) && b.runners == multiset{} && (b.swept || Reclaimable(b.mb))
    ensures b.mb.pending == [] && b.mb.active.None?
  {
  }

  lemma DrainedIsEmpty(boxes: seq<Box>, j: nat)
    requires SumWeight(boxes, One()) == 0 && j < |boxes|
    ensures boxes[j].mb.pending == [] && boxes[j].mb.active.None?
  {
    SumAtLeast(boxes, j, One());
    QueueCount(boxes[j].mb.pending);
  }

  /** After a cancelling shutdown, a mailbox has been swept or was reclaimed before. */
  lemma SweptOrReclaimed(s: State, j: nat)
    requires TableOk(s.boxes, s.table) && PhaseOk(s.boxes, s.flags, s.phase, s.counters) && s.phase.Stopped?
    requires j < |s.boxes| && s.flags.cancelling
    ensures s.boxes[j].runners == multiset{} && (s.boxes[j].swept || Reclaimable(s.boxes[j].mb))
  {
  }

  lemma StoppedIsEmpty(s: State, j: nat)
    requires Inv(s) && s.phase.Stopped? && j < |s.boxes|
    ensures s.boxes[j].mb.pending == [] && s.boxes[j].mb.active.None?
  {
    if s.flags.cancelling {
      SweptOrReclaimed(s, j);
      SweptIsEmpty(s.boxes[j], s.flags);
    } else {
      DrainedIsEmpty(s.boxes, j);
    }
  }

  /** When `shutdown` returns, every mailbox is empty and every admitted invocation has its completion event. */
  lemma ShutdownLeavesNothing(o: Options, states: seq<State>, actions: seq<Action>, n: nat)
    requires IsRun(o, states, actions) && n < |states| && states[n].phase.Stopped?
    ensures var s := states[n];
            && (forall j | 0 <= j < |s.boxes| :: s.boxes[j].mb.pending == [] && s.boxes[j].mb.active.None?)
            && (forall id: nat | id < s.accepted :: HasEvent(s.log, id))
  {
    RunHolds(o, states, actions, n);
    var s := states[n];
    forall j | 0 <= j < |s.boxes| ensures s.boxes[j].mb.pending == [] && s.boxes[j].mb.active.None? {
      StoppedIsEmpty(s, j);
    }
    ExactlyOneCompletion(o, states, actions, n);
    forall id: nat | id < s.accepted ensures HasEvent(s.log, id) {
      assert !InSomeMailbox(s.boxes, id);
    }
  }

  /** A refused ticket changes no mailbox and completes nothing; the discarded request list is empty. */
  lemma RefusalIsHarmless(o: Options, states: seq<State>, actions: seq<Action>, n: nat, i: nat, gen: nat, v: View, now: nat)
    requires IsRun(o, states, actions) && n < |states| && i < |states[n].boxes| && MayRefuse(states[n].phase)
    ensures FailSchedule(states[n].boxes[i].mb, gen, v, now) == Turn(states[n].boxes[i].mb, None, [])
  {
    RunHolds(o, states, actions, n);
    RefusedTicketIsStale(states[n], i, gen);
  }

  /** The number of cancellations that a mailbox has counted, and whether one is due after the current resume. */
  predicate CancelFree(m: Mailbox, m': Mailbox) {
    && m'.totals.cancelled == m.totals.cancelled
    && (m'.active.Some? ==> !m'.active.value.cancelAfterResume)
  }

  lemma {:induction false} PrepareNextCancelFree(m: Mailbox, v: View, now: nat)
    requires m.active.None?
    ensures CancelFree(m, PrepareNext(m, v, now).mb)
    decreases |m.pending|
  {
    if m.pending != [] && v.cancelAfter != Some(0) && !m.pending[0].registered {
      var rest := m.(pending := m.pending[1..], totals := Count(m.totals, m.pending[0], NOT_REGISTERED, false, now));
      PrepareNextCancelFree(rest, Later(v), now);
    }
  }

  lemma CompleteCancelFree(m: Mailbox, result: ActorResult, v: View, now: nat)
    ensures m.active.Some? ==> CancelFree(m, CompleteActive(m, result, false, v, now).mb)
  {
    if m.active.Some? {
      var m' := m.(active := None, totals := Count(m.totals, m.active.value.inv, result, false, now));
      PrepareNextCancelFree(m', v, now);
    }
  }

  lemma SettleCancelFree(m: Mailbox, gen: nat, outcome: Resumption, v: View, now: nat)
    requires m.active.Some? ==> !m.active.value.cancelAfterResume
    ensures CancelFree(m, Settle(m, gen, outcome, false, v, now).mb)
  {
    if Owns(m, gen) && outcome.Done? {
      CompleteCancelFree(m, outcome.result, v, now);
    } else if Owns(m, gen) && outcome.Unsupported? {
      CompleteCancelFree(m, INVALID_SUSPENSION, v, now);
    }
  }

  lemma SectionCancelFree(m: Mailbox, st: Step, now: nat)
    requires IsInternal(st) && (m.active.Some? ==> HasActive(m.status) && !m.active.value.cancelAfterResume)
    requires st.Refuse? ==> !TicketCurrent(m, st.gen)
    requires st.Resumed? ==> !st.sawCancel
    ensures CancelFree(m, Section(m, st, now).mb)
  {
    match st
    case StartFailed(gen, result, v) => CompleteCancelFree(m, result, v, now);
    case Resumed(gen, _, outcome, _, v, _, queueDelay, resumed) =>
      SettleCancelFree(Timed(m, queueDelay, resumed), gen, outcome, v, now);
    case HandoffAttempt(attempt, v) =>
      if HandoffFinal(m, attempt) {
        PrepareNextCancelFree(m.(claimed := false), v, now);
      }
    case _ =>
  }

  /** A step of a worker or an I/O completion counts no cancellation while none is requested. */
  lemma StepCancelsNothing(s: State, i: nat, st: Step, now: nat)
    requires Inv(s) && Guard(s, Internal(i, st, now)) && !s.flags.cancelling
    requires s.boxes[i].mb.active.Some? ==> !s.boxes[i].mb.active.value.cancelAfterResume
    ensures CancelFree(s.boxes[i].mb, Section(s.boxes[i].mb, st, now).mb)
  {
    assert BoxInv(s.boxes[i], s.flags);
    if st.Refuse? {
      RefusedTicketIsStale(s, i, st.gen);
    }
    SectionCancelFree(s.boxes[i].mb, st, now);
  }

  // ----- backpressure -----

  lemma {:induction false} KeyWeight(p: seq<Invocation>, key: string)
    requires QueueWeight(p, NotOfKey(key)) == 0
    ensures QueueWeight(p, OfKey(key)) == |p|
  {
    if p != [] {
      KeyWeight(p[1..], key);
    }
  }

  lemma {:induction false} KeySum(boxes: seq<Box>, key: string)
    requires Keyed(boxes)
    requires forall j | 0 <= j < |boxes| && boxes[j].key == key :: Load(boxes[j].mb) == 0
    ensures SumWeight(boxes, OfKey(key)) == 0
  {
    if boxes != [] {
      KeySum(boxes[1..], key);
      var b := boxes[0];
      assert Weight(b.mb, NotOfKey(b.key)) == 0;
      if b.key != key {
        OtherKeyWeight(b.mb.pending, b.key, key);
      }
    }
  }

  lemma {:induction false} OtherKeyWeight(p: seq<Invocation>, key: string, other: string)
    requires QueueWeight(p, NotOfKey(key)) == 0 && key != other
    ensures QueueWeight(p, OfKey(other)) == 0
  {
    if p != [] {
      OtherKeyWeight(p[1..], key, other);
    }
  }

  /** The mailboxes of a key other than its live one are empty. */
  lemma OthersOfKey(boxes: seq<Box>, table: map<string, nat>, key: string, empty: Box)
    requires TableOk(boxes, table) && Keyed(boxes) && key in table && empty.mb == Fresh && empty.key == key
    ensures table[key] < |boxes|
    ensures Keyed(boxes[table[key] := empty])
    ensures var boxes' := boxes[table[key] := empty];
            forall j | 0 <= j < |boxes'| && boxes'[j].key == key :: Load(boxes'[j].mb) == 0
  {
  }

  /** All invocations of a key are in the one live mailbox of that key. */
  lemma KeyLoad(boxes: seq<Box>, table: map<string, nat>, key: string)
    requires TableOk(boxes, table) && Keyed(boxes) && key in table
    ensures table[key] < |boxes| && SumWeight(boxes, OfKey(key)) == Load(boxes[table[key]].mb)
  {
    var i := table[key];
    var empty := boxes[i].(mb := Fresh);
    OthersOfKey(boxes, table, key, empty);
    KeySum(boxes[i := empty], key);
    SumUpdate(boxes, i, empty, OfKey(key));
    LoadOfKey(boxes[i].mb, key);
  }

  lemma LoadOfKey(m: Mailbox, key: string)
    requires Weight(m, NotOfKey(key)) == 0
    ensures Weight(m, OfKey(key)) == Load(m)
  {
    KeyWeight(m.pending, key);
  }

  /** With a positive limit, neither all mailboxes together nor the mailboxes of one actor or key ever hold more. */
  lemma Backpressure(o: Options, states: seq<State>, actions: seq<Action>, n: nat)
    requires IsRun(o, states, actions) && n < |states|
    ensures var s := states[n];
            && (o.maxTasks > 0 ==> SumLoads(s.boxes) <= o.maxTasks)
            && (o.maxPerActor > 0 ==> forall a: string :: SumWeight(s.boxes, OfActor(a)) <= o.maxPerActor)
            && (o.maxPerPartition > 0 ==> forall k: string :: SumWeight(s.boxes, OfKey(k)) <= o.maxPerPartition)
  {
    RunHolds(o, states, actions, n);
    OptionsStay(o, states, actions, n);
    var s := states[n];
    LoadsAreWeights(s.boxes);
    if o.maxPerActor > 0 {
      forall a: string ensures SumWeight(s.boxes, OfActor(a)) <= o.maxPerActor {
        assert Lookup(s.counters.actors, a) == SumWeight(s.boxes, OfActor(a));
      }
    }
    if o.maxPerPartition > 0 {
      forall k: string ensures SumWeight(s.boxes, OfKey(k)) <= o.maxPerPartition {
        assert Lookup(s.counters.partitions, k) == SumWeight(s.boxes, OfKey(k));
      }
    }
  }

  /** The counter of a mailbox key is the load of the live mailbox under that key. */
  lemma KeyCounterIsLoad(o: Options, states: seq<State>, actions: seq<Action>, n: nat, key: string)
    requires IsRun(o, states, actions) && n < |states| && key in states[n].table && o.maxPerPartition > 0
    ensures var s := states[n];
            && s.table[key] < |s.boxes|
            && Lookup(s.counters.partitions, key) == Load(s.boxes[s.table[key]].mb) <= o.maxPerPartition
  {
    RunHolds(o, states, actions, n);
    OptionsStay(o, states, actions, n);
    var s := states[n];
    KeyLoad(s.boxes, s.table, key);
    assert Lookup(s.counters.partitions, key) == SumWeight(s.boxes, OfKey(key));
  }

  lemma {:induction false} OptionsStay(o: Options, states: seq<State>, actions: seq<Action>, n: nat)
    requires IsRun(o, states, actions) && n < |states|
    ensures states[n].options == o
  {
    if n > 0 {
      OptionsStay(o, states, actions, n - 1);
      OptionsNext(states[n - 1], actions[n - 1]);
    }
  }

  lemma OptionsNext(s: State, a: Action)
    requires Guard(s, a)
    ensures Next(s, a).options == s.options
  {
  }

  /** Reclaiming a mailbox drops a counter that is zero and leaves every reported number unchanged. */
  lemma ReclaimLosesNothing(s: State, i: nat)
    requires Inv(s) && i < |s.boxes| && LockFree(s.phase)
    ensures var s' := ReclaimStep(s, i);
            && Reported(s') == Reported(s) && s'.counters.total == s.counters.total
            && s'.counters.actors == s.counters.actors
            && (forall k: string :: Lookup(s'.counters.partitions, k) == Lookup(s.counters.partitions, k))
            && (s' != s && s.options.maxPerPartition > 0 ==> s.boxes[i].key !in s'.counters.partitions)
    ensures var s', m := ReclaimStep(s, i), s.boxes[i].mb;
            if !s.boxes[i].retired && m.status == Idle && m.active == None && m.pending == [] && !m.claimed then
              && s'.table == s.table - {s.boxes[i].key} && |s'.boxes| == |s.boxes|
              && s'.boxes[i] == s.boxes[i].(retired := true)
            else s' == s
  {
    LiveIsListed(s.boxes, s.table, i);
    ReclaimKeepsReport(s, i);
    if ReclaimStep(s, i) != s {
      var c := ReclaimIs(s, i);
      if s.options.maxPerPartition > 0 {
        ReclaimableIsCountedZero(s, i);
        ReclaimDropsZero(s, i);
      }
    }
  }

  lemma LiveIsListed(boxes: seq<Box>, table: map<string, nat>, i: nat)
    requires TableOk(boxes, table) && i < |boxes|
    ensures !boxes[i].retired <==> boxes[i].key in table && table[boxes[i].key] == i
  {
  }

  lemma ReclaimableIsCountedZero(s: State, i: nat)
    requires TableOk(s.boxes, s.table) && Keyed(s.boxes) && CountersExact(s.options, s.counters, s.boxes)
    requires i < |s.boxes| && Reclaimable(s.boxes[i].mb) && s.options.maxPerPartition > 0
    requires s.boxes[i].key in s.table && s.table[s.boxes[i].key] == i
    ensures Lookup(s.counters.partitions, s.boxes[i].key) == 0
  {
    KeyLoad(s.boxes, s.table, s.boxes[i].key);
    assert Lookup(s.counters.partitions, s.boxes[i].key) == SumWeight(s.boxes, OfKey(s.boxes[i].key));
  }

  lemma ReclaimDropsZero(s: State, i: nat)
    requires i < |s.boxes| && ReclaimStep(s, i) != s && Lookup(s.counters.partitions, s.boxes[i].key) == 0
    ensures s.boxes[i].key !in ReclaimStep(s, i).counters.partitions
  {
  }

  // ----- mailbox keys -----

  function Effective(partition: string): string {
    if partition == "" then "global" else partition
  }

  lemma {:induction false} SplitAtColon(a: string, p: string, b: string, q: string)
    requires ':' !in a && ':' !in b && a + [':'] + p == b + [':'] + q
    ensures a == b && p == q
  {
    var s, t := a + [':'] + p, b + [':'] + q;
    assert s[|a|] == ':' && t[|b|] == ':';
    assert forall k | 0 <= k < |a| :: s[k] in a;
    assert forall k | 0 <= k < |b| :: t[k] in b;
    assert |a| == |b|;
    assert a == s[..|a|] && b == t[..|b|];
    assert p == s[|a| + 1..] && q == t[|b| + 1..];
  }

  /** Two actors without a colon in their names share a mailbox exactly when actor and effective partition agree. */
  lemma KeysIdentify(a: string, p: string, b: string, q: string)
    requires ':' !in a && ':' !in b
    ensures MailboxKey(a, p) == MailboxKey(b, q) <==> a == b && Effective(p) == Effective(q)
  {
    assert MailboxKey(a, p) == a + [':'] + Effective(p);
    assert MailboxKey(b, q) == b + [':'] + Effective(q);
    if MailboxKey(a, p) == MailboxKey(b, q) {
      SplitAtColon(a, Effective(p), b, Effective(q));
    }
  }

  /**
   Two different actors can share a mailbox, for some partitions, exactly if one name followed by a colon begins the
   other.
   */
  lemma KeysCollideIff(a: string, b: string)
    requires a != b
    ensures (exists p, q :: MailboxKey(a, p) == MailboxKey(b, q)) <==> a + ":" <= b || b + ":" <= a
  {
    if p, q :| MailboxKey(a, p) == MailboxKey(b, q) {
      assert MailboxKey(a, p) == (a + ":") + Effective(p);
      assert MailboxKey(b, q) == (b + ":") + Effective(q);
      if |a| < |b| {
        BeginsOther(a, Effective(p), b, Effective(q));
      } else {
        BeginsOther(b, Effective(q), a, Effective(p));
      }
    }
    if a + ":" <= b {
      CommonKey(a, b);
    }
    if b + ":" <= a {
      CommonKey(b, a);
    }
  }

  lemma BeginsOther(a: string, p: string, b: string, q: string)
    requires a != b && |a| <= |b| && (a + ":") + p == (b + ":") + q
    ensures a + ":" <= b
  {
    var s, t := (a + ":") + p, (b + ":") + q;
    assert s[..|a|] == a && t[..|b|] == b;
    assert s[..|a| + 1] == a + ":" == t[..|a| + 1] == b[..|a| + 1];
  }

  lemma CommonKey(a: string, b: string)
    requires a + ":" <= b
    ensures MailboxKey(a, b[|a| + 1..] + ":z") == MailboxKey(b, "z")
  {
    var p := b[|a| + 1..] + ":z";
    assert b == (a + ":") + b[|a| + 1..];
    assert MailboxKey(a, p) == (a + ":") + p;
    assert MailboxKey(b, "z") == (b + ":") + "z";
    assert (a + ":") + (b[|a| + 1..] + ":z") == (((a + ":") + b[|a| + 1..]) + ":") + "z";
  }

  /** For instance these two. */
  lemma KeysCanCollide()
    ensures MailboxKey("a:b", "c") == MailboxKey("a", "b:c")
  {
    assert MailboxKey("a:b", "c") == "a:b:c";
    assert MailboxKey("a", "b:c") == "a:b:c";
  }
}
