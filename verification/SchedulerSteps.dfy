/** What the actions of the scheduler do in every run: how requests are decided and how a resume ends. */
module SchedulerSteps {
  import opened Wrappers
  import opened Metrics
  import opened Mailboxes
  import opened Boxes
  import opened BoxProofs
  import opened Accounting
  import opened Scheduler
  import opened SchedulerProofs
  import opened SchedulerInvariant
  import opened SchedulerTheorems
  import opened SchedulerHistory
  import opened SchedulerResults
  import L = MailboxLaws

  // ----- submissions -----

  /** Whether there is room for one more invocation, counted over everything that the mailboxes hold. */
  ghost predicate HasRoom(o: Options, boxes: seq<Box>, actor: string, key: string) {
    && (o.maxTasks > 0 ==> SumLoads(boxes) < o.maxTasks)
    && (o.maxPerActor > 0 ==> SumWeight(boxes, OfActor(actor)) < o.maxPerActor)
    && (o.maxPerPartition > 0 ==> SumWeight(boxes, OfKey(key)) < o.maxPerPartition)
  }

  lemma RoomIsCounted(s: State, actor: string, key: string)
    requires CountersExact(s.options, s.counters, s.boxes)
    ensures LimitExceeded(s.options, s.counters, actor, key) <==> !HasRoom(s.options, s.boxes, actor, key)
  {
    LoadsAreWeights(s.boxes);
    if s.options.maxPerActor > 0 {
      assert Lookup(s.counters.actors, actor) == SumWeight(s.boxes, OfActor(actor));
    }
    if s.options.maxPerPartition > 0 {
      assert Lookup(s.counters.partitions, key) == SumWeight(s.boxes, OfKey(key));
    }
  }

  /** The invocation waits or is active in its mailbox, or has ended at once because its actor is unknown. */
  predicate Landed(m: Mailbox, events: seq<Event>, inv: Invocation) {
    Within(m, inv) || (!inv.registered && Event(inv, Failure("actor_not_registered")) in events)
  }

  lemma PushLands(m: Mailbox, inv: Invocation, m': Mailbox, request: Option<nat>, events: seq<Event>)
    requires L.Pushes(m, inv, m', request, events) && (m.status == Idle && !m.claimed ==> m.active.None?)
    ensures Landed(m', events, inv)
  {
    var queue, k := m.pending + [inv], |events|;
    assert queue[|m.pending|] == inv;
    if m.status == Idle && !m.claimed {
      if k <= |m.pending| {
        assert k == |m.pending| || queue[k + 1..][|m.pending| - k - 1] == inv;
      } else {
        assert queue[..k][|m.pending|] == inv && events[|m.pending|] == Event(inv, NOT_REGISTERED);
      }
    }
  }

  /**
   A submission is accepted exactly if no shutdown has begun and there is room. It then gets the next admission number,
   under its own key and as it was given; otherwise it is counted as rejected and nothing else changes.
   */
  lemma SubmitDecides(o: Options, states: seq<State>, actions: seq<Action>, k: nat, actor: string, partition: string,
                      messageId: string, now: nat)
    requires IsRun(o, states, actions) && k < |actions| && actions[k] == Submit(actor, partition, messageId, now)
    ensures var s, s', key := states[k], states[k + 1], MailboxKey(actor, partition);
            if !s.flags.stopping && HasRoom(o, s.boxes, actor, key) then
              && s'.accepted == s.accepted + 1 && s'.rejected == s.rejected
              && key in s'.table && s'.table[key] < |s'.boxes|
              && Landed(s'.boxes[s'.table[key]].mb, Added(s, s'),
                        Invocation(s.accepted, actor, key, messageId, actor in s.actors, now))
            else s' == s.(rejected := s.rejected + 1)
  {
    var s, key := states[k], MailboxKey(actor, partition);
    RunHolds(o, states, actions, k);
    OptionsStay(o, states, actions, k);
    RoomIsCounted(s, actor, key);
    if !s.flags.stopping && HasRoom(o, s.boxes, actor, key) {
      AcceptedLands(s, actor, partition, messageId, now);
    }
  }

  lemma AcceptedLands(s: State, actor: string, partition: string, messageId: string, now: nat)
    requires Inv(s) && !s.flags.stopping
    requires !LimitExceeded(s.options, s.counters, actor, MailboxKey(actor, partition))
    ensures var s', key := SubmitStep(s, actor, partition, messageId, now), MailboxKey(actor, partition);
            && s'.accepted == s.accepted + 1 && s'.rejected == s.rejected
            && key in s'.table && s'.table[key] < |s'.boxes|
            && Landed(s'.boxes[s'.table[key]].mb, Added(s, s'),
                      Invocation(s.accepted, actor, key, messageId, actor in s.actors, now))
  {
    var key := MailboxKey(actor, partition);
    var t := Admit(s, key);
    AdmitReady(s, key);
    SubmitIs(s, actor, partition, messageId, now);
    AdmitExtends(s, actor, key);
    PerformLands(s, Counted(t, actor, key), t.table[key], Incomer(t, actor, key, messageId, now), now);
    AdmitFrame(s, key);
    assert t.actors == s.actors && t.rejected == s.rejected;
  }

  lemma PerformLands(s: State, c: State, i: nat, inv: Invocation, now: nat)
    requires i < |c.boxes| && ActiveKnown(c.boxes[i].mb) && c.log == s.log
    ensures var s' := Perform(c, i, Enqueue(inv), now);
            && s'.accepted == c.accepted && s'.rejected == c.rejected && s'.table == c.table && i < |s'.boxes|
            && Landed(s'.boxes[i].mb, Added(s, s'), inv)
  {
    var m := c.boxes[i].mb;
    ApplySection(c.boxes[i], Enqueue(inv), now);
    L.PushSays(m, inv, now);
    var turn := Push(m, inv, now);
    PushLands(m, inv, turn.mb, turn.request, turn.events);
    assert Added(s, Perform(c, i, Enqueue(inv), now)) == turn.events;
  }

  /** The actors that the scheduler knows are those that were registered. */
  lemma {:induction false} ActorsAreRegistered(o: Options, states: seq<State>, actions: seq<Action>, n: nat, actor: string)
    requires IsRun(o, states, actions) && n < |states|
    ensures actor in states[n].actors <==> exists k | 0 <= k < n :: actions[k] == Register(actor)
  {
    if n > 0 {
      ActorsAreRegistered(o, states, actions, n - 1, actor);
      NextActors(states[n - 1], actions[n - 1]);
      assert states[n] == Next(states[n - 1], actions[n - 1]);
    }
  }

  lemma NextActors(s: State, a: Action)
    requires Guard(s, a)
    ensures Next(s, a).actors == if a.Register? then s.actors + {a.actor} else s.actors
  {
  }

  // ----- a resume -----

  /** The box after a section: its requests have become tickets. */
  predicate Ticketed(b: Box, b': Box, request: Option<nat>) {
    b'.tickets == if request.Some? then b.tickets + multiset{request.value} else b.tickets
  }

  lemma ResumedBox(s: State, i: nat, st: Step, now: nat)
    requires i < |s.boxes| && st.Resumed?
    ensures var s', turn := Perform(s, i, st, now), Section(s.boxes[i].mb, st, now);
            && i < |s'.boxes| && s'.boxes[i].mb == turn.mb && Ticketed(s.boxes[i], s'.boxes[i], turn.request)
            && Added(s, s') == turn.events
  {
  }

  /**
   A worker that comes back from a resume finds its own invocation active. That ends as cancelled if cancellation was
   asked for, with the result of the task if it is done, as an invalid suspension if it left the runtime; otherwise the
   task yielded and has a new ticket, or waits for its epoch unless that was notified before.
   */
  lemma ResumeDecides(o: Options, states: seq<State>, actions: seq<Action>, k: nat, i: nat, st: Step, now: nat)
    requires IsRun(o, states, actions) && k < |actions| && actions[k] == Internal(i, st, now) && st.Resumed?
    ensures i < |states[k].boxes| && i < |states[k + 1].boxes|
    ensures var b, b', events := states[k].boxes[i], states[k + 1].boxes[i], Added(states[k], states[k + 1]);
            && b.mb.active.Some? && b.mb.active.value.gen == st.gen
            && L.Reports(b.mb, st.gen, st.outcome, st.sawCancel, events)
            && exists request :: Ticketed(b, b', request)
                 && L.EndsRun(b.mb, st.gen, st.outcome, st.sawCancel, st.v, st.queueDelay, st.resumed, b'.mb, request, events)
  {
    var b := states[k].boxes[i];
    RunHolds(o, states, actions, k);
    CallerOwns(states[k].boxes[i], states[k].flags, st);
    ResumedBox(states[k], i, st, now);
    L.EndSays(b.mb, st.gen, st.outcome, st.sawCancel, st.v, st.sharing, st.queueDelay, st.resumed, now);
  }

  lemma CallerOwns(b: Box, f: Flags, st: Step)
    requires BoxInv(b, f) && Enabled(b, st, f) && (st.Resumed? || st.StartFailed?)
    ensures b.mb.status == Running && b.mb.active.Some? && b.mb.active.value.gen == st.gen
            && (b.mb.active.value.taskValid <==> st.Resumed?)
  {
    if st.Resumed? {
      RunnerOwns(b, st.gen, st.began, f);
    } else {
      StarterOwns(b, st.gen, f);
    }
  }

  /** A task that could not be started ends its invocation with the error, and the next one follows. */
  lemma StartFailureDecides(o: Options, states: seq<State>, actions: seq<Action>, k: nat, i: nat, st: Step, now: nat)
    requires IsRun(o, states, actions) && k < |actions| && actions[k] == Internal(i, st, now) && st.StartFailed?
    ensures i < |states[k].boxes| && i < |states[k + 1].boxes|
    ensures var b, b', events := states[k].boxes[i], states[k + 1].boxes[i], Added(states[k], states[k + 1]);
            && b.mb.active.Some? && events != [] && events[0] == Event(b.mb.active.value.inv, st.result)
            && exists request :: Ticketed(b, b', request) && L.Ends(b.mb, st.result, false, st.v, b'.mb, request, events)
  {
    var s, b := states[k], states[k].boxes[i];
    RunHolds(o, states, actions, k);
    CallerOwns(s.boxes[i], s.flags, st);
    L.StartFailSays(b.mb, st.gen, st.result, st.v, now);
    StartFailedBox(s, i, st, now);
  }

  lemma StartFailedBox(s: State, i: nat, st: Step, now: nat)
    requires i < |s.boxes| && st.StartFailed?
    ensures var s', turn := Perform(s, i, st, now), StartFail(s.boxes[i].mb, st.gen, st.result, st.v, now);
            && i < |s'.boxes| && s'.boxes[i].mb == turn.mb && Ticketed(s.boxes[i], s'.boxes[i], turn.request)
            && Added(s, s') == turn.events
  {
  }

  // ----- cancellation -----

  /**
   A cancel request for a key ends the first queued invocation with the message identifier; without one it ends the
   active invocation with that identifier, or marks it while a worker runs it. Otherwise it changes nothing.
   */
  lemma CancelDecides(o: Options, states: seq<State>, actions: seq<Action>, k: nat, actor: string, partition: string,
                      messageId: string, v: View, now: nat)
    requires IsRun(o, states, actions) && k < |actions|
    requires actions[k] == CancelRequest(actor, partition, messageId, v, now)
    ensures var s, s', key := states[k], states[k + 1], MailboxKey(actor, partition);
            if key !in s.table then s' == s
            else
              && s.table[key] < |s.boxes| && |s'.boxes| == |s.boxes|
              && var b, b' := s.boxes[s.table[key]], s'.boxes[s.table[key]];
              && b.key == key
              && exists cancelled, request :: Ticketed(b, b', request)
                   && L.Cancels(b.mb, messageId, v, cancelled, b'.mb, request, Added(s, s'))
  {
    var s, key := states[k], MailboxKey(actor, partition);
    RunHolds(o, states, actions, k);
    CancelIs(s, actor, partition, messageId, v, now);
    if key in s.table {
      var b := s.boxes[s.table[key]];
      L.CancelSays(b.mb, messageId, v, now);
      CancelledBox(s, s.table[key], messageId, v, now);
    }
  }

  lemma CancelledBox(s: State, i: nat, messageId: string, v: View, now: nat)
    requires i < |s.boxes|
    ensures var s', turn := Perform(s, i, CancelMessage(messageId, v), now), Cancel(s.boxes[i].mb, messageId, v, now);
            && |s'.boxes| == |s.boxes| && s'.boxes[i].mb == turn.mb && Ticketed(s.boxes[i], s'.boxes[i], turn.request)
            && Added(s, s') == turn.events
  {
  }

  /** A worker is inside, its task exists and is marked; or the invocation has ended as cancelled. */
  ghost predicate Doomed(s: State, j: nat, inv: Invocation) {
    || Event(inv, Failure("scheduler_cancelled")) in s.log
    || (j < |s.boxes| && Marked(s.boxes[j].mb, inv))
  }

  predicate Marked(m: Mailbox, inv: Invocation) {
    && m.status == Running && m.active.Some? && m.active.value.inv == inv
    && m.active.value.cancelAfterResume && m.active.value.taskValid
  }

  lemma SectionKeepsMark(m: Mailbox, st: Step, now: nat, inv: Invocation)
    requires Marked(m, inv) && (st.StartFailed? || st.Resumed? ==> st.Resumed? && st.gen == m.active.value.gen)
    ensures Marked(Section(m, st, now).mb, inv)
            || Event(inv, Failure("scheduler_cancelled")) in Section(m, st, now).events
  {
    if st.Resumed? {
      L.EndSays(m, st.gen, st.outcome, st.sawCancel, st.v, st.sharing, st.queueDelay, st.resumed, now);
      assert Section(m, st, now).events[0] == Event(inv, CANCELLED);
    } else if st.CancelMessage? {
      L.CancelSays(m, st.messageId, st.v, now);
      CancelKeepsMark(m, st.messageId, st.v, now, inv);
    } else if st.SweepMailbox? {
      L.SweepSays(m, now);
    }
  }

  lemma CancelKeepsMark(m: Mailbox, messageId: string, v: View, now: nat, inv: Invocation)
    requires Marked(m, inv)
    ensures Marked(Cancel(m, messageId, v, now).mb, inv)
  {
  }

  /** A worker that comes back finds the invocation of the mailbox that it works on. */
  predicate ComesBack(e: Effect)
    requires e.Moves? ==> e.i < |e.t.boxes|
  {
    e.Moves? && (e.st.StartFailed? || e.st.Resumed?) ==>
      && e.t.boxes[e.i].mb.active.Some? && e.st.gen == e.t.boxes[e.i].mb.active.value.gen
      && (e.t.boxes[e.i].mb.active.value.taskValid ==> e.st.Resumed?)
  }

  lemma StepKeepsDoom(s: State, a: Action, j: nat, inv: Invocation)
    requires Inv(s) && Guard(s, a) && Doomed(s, j, inv)
    ensures Doomed(Next(s, a), j, inv)
  {
    var e := ActionEffect(s, a);
    if a.Internal? && (a.s.StartFailed? || a.s.Resumed?) {
      CallerOwns(s.boxes[a.i], s.flags, a.s);
    }
    EffectKeepsDoom(s, a, e, Next(s, a), j, inv);
  }

  lemma EffectKeepsDoom(s: State, a: Action, e: Effect, s': State, j: nat, inv: Invocation)
    requires Effects(s, a, e, s') && ComesBack(e) && Doomed(s, j, inv)
    ensures Doomed(s', j, inv)
  {
    if Event(inv, CANCELLED) !in s.log && e.Moves? && e.i == j {
      SectionKeepsMark(s.boxes[j].mb, e.st, e.now, inv);
    }
  }

  lemma {:induction false} DoomStays(states: seq<State>, m: nat, n: nat, j: nat, inv: Invocation)
    requires m <= n < |states| && Doomed(states[m], j, inv)
    requires forall k: nat | m <= k < n :: Doomed(states[k], j, inv) ==> Doomed(states[k + 1], j, inv)
    ensures Doomed(states[n], j, inv)
  {
    if m < n {
      DoomStays(states, m, n - 1, j, inv);
      assert Doomed(states[n - 1 + 1], j, inv);
    }
  }

  /**
   Once the invocation that a worker is resuming is marked, it never ends in any other way than cancelled: at every
   later time it is still marked or its cancellation has been reported.
   */
  lemma MarkedEndsCancelled(o: Options, states: seq<State>, actions: seq<Action>, m: nat, n: nat, j: nat)
    requires IsRun(o, states, actions) && m <= n < |states| && j < |states[m].boxes|
    requires states[m].boxes[j].mb.active.Some?
    requires Marked(states[m].boxes[j].mb, states[m].boxes[j].mb.active.value.inv)
    ensures var inv := states[m].boxes[j].mb.active.value.inv;
            || Event(inv, Failure("scheduler_cancelled")) in states[n].log
            || (j < |states[n].boxes| && Marked(states[n].boxes[j].mb, inv))
  {
    var inv := states[m].boxes[j].mb.active.value.inv;
    forall k: nat | m <= k < n && Doomed(states[k], j, inv) ensures Doomed(states[k + 1], j, inv) {
      RunHolds(o, states, actions, k);
      StepKeepsDoom(states[k], actions[k], j, inv);
    }
    DoomStays(states, m, n, j, inv);
  }

  /** The sweep of a cancelling shutdown ends everything in a mailbox but what a worker is running, which it marks. */
  lemma SweepDecides(o: Options, states: seq<State>, actions: seq<Action>, k: nat, i: nat, now: nat)
    requires IsRun(o, states, actions) && k < |actions| && actions[k] == SweepOne(i, now)
    ensures i < |states[k].boxes| && i < |states[k + 1].boxes|
    ensures L.Swept(states[k].boxes[i].mb, states[k + 1].boxes[i].mb, Added(states[k], states[k + 1]))
  {
    L.SweepSays(states[k].boxes[i].mb, now);
    PerformExecutes(states[k], i, SweepMailbox, now);
  }

  /** A shutdown closes the admission; a cancelling one has every live mailbox swept before it waits for the workers. */
  lemma ShutdownDecides(o: Options, states: seq<State>, actions: seq<Action>, k: nat)
    requires IsRun(o, states, actions) && k < |actions| && (actions[k].BeginDrain? || actions[k].BeginCancel?)
    ensures var s, s' := states[k], states[k + 1];
            && s'.flags == Flags(true, actions[k].BeginCancel?) && s' == s.(flags := s'.flags, phase := s'.phase)
            && (if actions[k].BeginDrain? then s'.phase == Draining
                else s'.phase.Sweeping?
                     && forall i | 0 <= i < |s.boxes| :: !s.boxes[i].retired ==> i in s'.phase.todo)
  {
    RunHolds(o, states, actions, k);
    var s := states[k];
    forall i | 0 <= i < |s.boxes| && !s.boxes[i].retired ensures i in LiveBoxes(s) {
      LiveIsListed(s.boxes, s.table, i);
      assert s.table[s.boxes[i].key] == i;
    }
  }

  /** Once a cancelling shutdown has swept, nothing waits any more, and whatever still runs is marked. */
  lemma SweptHoldNothing(o: Options, states: seq<State>, actions: seq<Action>, n: nat, i: nat)
    requires IsRun(o, states, actions) && n < |states| && i < |states[n].boxes| && states[n].flags.cancelling
    requires states[n].phase.Joining? || states[n].phase.Stopped?
    ensures var m := states[n].boxes[i].mb;
            && m.pending == []
            && (m.active.Some? ==> m.status == Running && m.active.value.cancelAfterResume)
  {
    RunHolds(o, states, actions, n);
    SweptAll(states[n], i);
    assert BoxInv(states[n].boxes[i], states[n].flags);
  }

  lemma SweptAll(s: State, i: nat)
    requires TableOk(s.boxes, s.table) && PhaseOk(s.boxes, s.flags, s.phase, s.counters) && i < |s.boxes|
    requires s.flags.cancelling && (s.phase.Joining? || s.phase.Stopped?)
    ensures s.boxes[i].swept || Reclaimable(s.boxes[i].mb)
  {
  }
}
