/** What the scheduler guarantees about whole runs: how generations move, what ends without having run, what a drain does. */
module SchedulerHistory {
  import opened Wrappers
  import opened Mailboxes
  import opened Boxes
  import opened BoxProofs
  import opened Accounting
  import opened Scheduler
  import opened SchedulerProofs
  import opened SchedulerInvariant
  import opened SchedulerTheorems

  // ----- the mailbox section that an action executes -----

  /** The same state, possibly with one mailbox that has just been created. */
  predicate Extends(s: State, t: State) {
    && |s.boxes| <= |t.boxes| <= |s.boxes| + 1
    && (forall j | 0 <= j < |s.boxes| :: t.boxes[j] == s.boxes[j])
    && (|t.boxes| > |s.boxes| ==> t.boxes[|s.boxes|].mb == Fresh)
    && t.log == s.log && t.activations == s.activations && t.retired == s.retired && t.flags == s.flags
  }

  /** No mailbox changes and nothing completes. */
  predicate Quiet(s: State, s': State) {
    && |s'.boxes| == |s.boxes| && (forall j | 0 <= j < |s.boxes| :: s'.boxes[j].mb == s.boxes[j].mb)
    && s'.log == s.log && s'.activations == s.activations
  }

  /** Exactly the section of step `st` has been executed, on mailbox `i`. */
  predicate Executed(t: State, i: nat, st: Step, now: nat, s': State) {
    && i < |t.boxes| && |s'.boxes| == |t.boxes|
    && (forall j | 0 <= j < |t.boxes| && j != i :: s'.boxes[j] == t.boxes[j])
    && var turn := Section(t.boxes[i].mb, st, now);
    && s'.boxes[i].mb == turn.mb
    && s'.log == t.log + turn.events
    && s'.activations == Activated(t.boxes[i].mb, turn.mb, t.activations)
    && s'.retired == t.retired && s'.flags == t.flags
  }

  predicate ActiveHasStatus(m: Mailbox) {
    m.active.Some? ==> HasActive(m.status)
  }

  lemma PerformExecutes(t: State, i: nat, st: Step, now: nat)
    requires i < |t.boxes|
    ensures Executed(t, i, st, now, Perform(t, i, st, now))
  {
    ApplySection(t.boxes[i], st, now);
  }

  /** What an action does to the mailboxes: nothing, or one section on one of them. */
  datatype Effect = Still | Moves(t: State, i: nat, st: Step, now: nat)

  ghost predicate Effects(s: State, a: Action, e: Effect, s': State) {
    match e
    case Still => Quiet(s, s')
    case Moves(t, i, st, now) =>
      && Extends(s, t) && Executed(t, i, st, now, s') && ActiveHasStatus(t.boxes[i].mb)
      && (st.CancelMessage? ==> a.CancelRequest?) && (st.SweepMailbox? ==> a.SweepOne?)
      && (IsInternal(st) ==> a == Internal(i, st, now) && t == s)
  }

  lemma StatusHeld(s: State, i: nat)
    requires Inv(s) && i < |s.boxes|
    ensures ActiveHasStatus(s.boxes[i].mb)
  {
    assert BoxInv(s.boxes[i], s.flags);
  }

  lemma AdmitExtends(s: State, actor: string, key: string)
    ensures Extends(s, Counted(Admit(s, key), actor, key))
  {
  }

  lemma SubmitEffect(s: State, actor: string, partition: string, messageId: string, now: nat) returns (e: Effect)
    requires Inv(s)
    ensures Effects(s, Submit(actor, partition, messageId, now), e, SubmitStep(s, actor, partition, messageId, now))
  {
    var key := MailboxKey(actor, partition);
    if s.flags.stopping || LimitExceeded(s.options, s.counters, actor, key) {
      return Still;
    }
    var i := AdmittedAt(s, key);
    SubmitIs(s, actor, partition, messageId, now);
    AdmitExtends(s, actor, key);
    var c := Counted(Admit(s, key), actor, key);
    var st := Enqueue(Incomer(Admit(s, key), actor, key, messageId, now));
    PerformExecutes(c, i, st, now);
    e := Moves(c, i, st, now);
  }

  lemma AdmittedAt(s: State, key: string) returns (i: nat)
    requires Inv(s) && !s.flags.stopping
    ensures key in Admit(s, key).table && i == Admit(s, key).table[key] && i < |Admit(s, key).boxes|
    ensures ActiveHasStatus(Admit(s, key).boxes[i].mb)
  {
    OpenUntilStopping(s);
    AdmitKeeps(s, key);
    i := Admit(s, key).table[key];
    StatusHeld(Admit(s, key), i);
  }

  lemma CancelEffect(s: State, actor: string, partition: string, messageId: string, v: View, now: nat) returns (e: Effect)
    requires Inv(s)
    ensures Effects(s, CancelRequest(actor, partition, messageId, v, now), e, CancelStep(s, actor, partition, messageId, v, now))
  {
    var key := MailboxKey(actor, partition);
    if key !in s.table || s.table[key] >= |s.boxes| {
      return Still;
    }
    StatusHeld(s, s.table[key]);
    PerformExecutes(s, s.table[key], CancelMessage(messageId, v), now);
    e := Moves(s, s.table[key], CancelMessage(messageId, v), now);
  }

  lemma InternalEffect(s: State, i: nat, st: Step, now: nat) returns (e: Effect)
    requires Inv(s) && Guard(s, Internal(i, st, now))
    ensures Effects(s, Internal(i, st, now), e, Perform(s, i, st, now))
  {
    StatusHeld(s, i);
    PerformExecutes(s, i, st, now);
    e := Moves(s, i, st, now);
  }

  lemma SweepEffect(s: State, i: nat, now: nat) returns (e: Effect)
    requires Inv(s) && Guard(s, SweepOne(i, now))
    ensures Effects(s, SweepOne(i, now), e, Next(s, SweepOne(i, now)))
  {
    StatusHeld(s, i);
    PerformExecutes(s, i, SweepMailbox, now);
    e := Moves(s, i, SweepMailbox, now);
  }

  predicate OnOneMailbox(a: Action) {
    a.Submit? || a.CancelRequest? || a.Internal? || a.SweepOne?
  }

  lemma OtherEffect(s: State, a: Action)
    requires Guard(s, a) && !OnOneMailbox(a)
    ensures Quiet(s, Next(s, a))
  {
  }

  lemma ActionEffect(s: State, a: Action) returns (e: Effect)
    requires Inv(s) && Guard(s, a)
    ensures Effects(s, a, e, Next(s, a))
  {
    if a.Submit? {
      e := SubmitEffect(s, a.actor, a.partition, a.messageId, a.now);
    } else if a.CancelRequest? {
      e := CancelEffect(s, a.actor, a.partition, a.messageId, a.v, a.now);
    } else if a.Internal? {
      e := InternalEffect(s, a.i, a.s, a.now);
    } else if a.SweepOne? {
      e := SweepEffect(s, a.i, a.now);
    } else {
      OtherEffect(s, a);
      e := Still;
    }
  }

  // ----- generations -----

  /** A mailbox's generation never falls, and every new activation raises it. */
  predicate Risen(m: Mailbox, m': Mailbox) {
    && m.generation <= m'.generation
    && (m.generation == m'.generation && m'.active.Some? ==>
          m.active.Some? && m.active.value.inv == m'.active.value.inv)
  }

  lemma MovedAhead(s: State, t: State, i: nat, st: Step, now: nat, s': State, j: nat)
    requires Extends(s, t) && Executed(t, i, st, now, s') && ActiveHasStatus(t.boxes[i].mb) && j < |s.boxes|
    ensures j < |s'.boxes| && Risen(s.boxes[j].mb, s'.boxes[j].mb)
  {
    StepSourced(t.boxes[i].mb, st, now);
  }

  lemma StepAhead(s: State, a: Action, j: nat)
    requires Inv(s) && Guard(s, a) && j < |s.boxes|
    ensures j < |Next(s, a).boxes| && Risen(s.boxes[j].mb, Next(s, a).boxes[j].mb)
  {
    var e := ActionEffect(s, a);
    if e.Moves? {
      MovedAhead(s, e.t, e.i, e.st, e.now, Next(s, a), j);
    }
  }

  predicate Follows(s: State, s': State, j: nat) {
    j < |s.boxes| ==> j < |s'.boxes| && Risen(s.boxes[j].mb, s'.boxes[j].mb)
  }

  lemma RunAhead(o: Options, states: seq<State>, actions: seq<Action>, k: nat, j: nat)
    requires IsRun(o, states, actions) && k < |actions|
    ensures Follows(states[k], states[k + 1], j)
  {
    RunHolds(o, states, actions, k);
    if j < |states[k].boxes| {
      StepAhead(states[k], actions[k], j);
    }
  }

  lemma {:induction false} Rising(states: seq<State>, m: nat, n: nat, j: nat)
    requires m <= n < |states| && forall k: nat | m <= k < n :: Follows(states[k], states[k + 1], j)
    ensures Follows(states[m], states[n], j)
  {
    if m < n {
      Rising(states, m, n - 1, j);
      assert Follows(states[n - 1], states[n - 1 + 1], j);
    }
  }

  /**
   The generations of a mailbox increase strictly from activation to activation, over any stretch of any run: they
   never fall, and with the same generation it is the same invocation that is active.
   */
  lemma GenerationsRise(o: Options, states: seq<State>, actions: seq<Action>, m: nat, n: nat, j: nat)
    requires IsRun(o, states, actions) && m <= n < |states| && j < |states[m].boxes|
    ensures j < |states[n].boxes| && Risen(states[m].boxes[j].mb, states[n].boxes[j].mb)
  {
    forall k: nat | m <= k < n ensures Follows(states[k], states[k + 1], j) {
      RunAhead(o, states, actions, k, j);
    }
    Rising(states, m, n, j);
  }

  // ----- who ends without having run -----

  /** The invocation was activated, or it was cancelled or its actor is unknown. */
  predicate Explained(e: Event, activations: seq<Invocation>) {
    || e.inv in activations
    || e.result == CANCELLED
    || (e.result == NOT_REGISTERED && !e.inv.registered)
  }

  /** The events of a section: of the active invocation, or of skipped and cancelled ones. */
  predicate EndsProperly(m: Mailbox, e: Event) {
    || (m.active.Some? && e.inv == m.active.value.inv)
    || e.result == CANCELLED
    || (e.result == NOT_REGISTERED && !e.inv.registered)
  }

  predicate AllEnd(m: Mailbox, events: seq<Event>) {
    forall k | 0 <= k < |events| :: EndsProperly(m, events[k])
  }

  lemma {:induction false} NextEnds(m: Mailbox, v: View, now: nat, m0: Mailbox)
    ensures AllEnd(m0, PrepareNext(m, v, now).events)
    decreases |m.pending|
  {
    if m.pending != [] && v.cancelAfter != Some(0) && !m.pending[0].registered {
      var rest := m.(pending := m.pending[1..], totals := Count(m.totals, m.pending[0], NOT_REGISTERED, false, now));
      NextEnds(rest, Later(v), now, m0);
    }
  }

  lemma CompleteEnds(m: Mailbox, result: ActorResult, cancelled: bool, v: View, now: nat, m0: Mailbox)
    requires m.active == m0.active
    ensures AllEnd(m0, CompleteActive(m, result, cancelled, v, now).events)
  {
    if m.active.Some? {
      NextEnds(m.(active := None, totals := Count(m.totals, m.active.value.inv, result, cancelled, now)), v, now, m0);
    }
  }

  lemma {:induction false} FlushEnds(m: Mailbox, now: nat, m0: Mailbox)
    ensures AllEnd(m0, Flush(m, now).events)
    decreases |m.pending|
  {
    if m.pending != [] {
      FlushEnds(m.(pending := m.pending[1..], totals := Count(m.totals, m.pending[0], CANCELLED, true, now)), now, m0);
    }
  }

  lemma SettleEndsWell(m: Mailbox, gen: nat, outcome: Resumption, sawCancel: bool, v: View, now: nat, m0: Mailbox)
    requires m.active == m0.active
    ensures AllEnd(m0, Settle(m, gen, outcome, sawCancel, v, now).events)
  {
    if Owns(m, gen) && Ends(m, outcome, sawCancel) {
      var result, cancelled := SettleEnds(m, gen, outcome, sawCancel, v, now);
      CompleteEnds(m, result, cancelled, v, now, m0);
    }
  }

  lemma SectionEnds(m: Mailbox, st: Step, now: nat)
    ensures AllEnd(m, Section(m, st, now).events)
  {
    match st
    case Enqueue(inv) => NextEnds(m.(pending := m.pending + [inv]), CALM, now, m);
    case CancelMessage(messageId, v) => CompleteEnds(m, CANCELLED, true, v, now, m);
    case Refuse(gen, v) => CompleteEnds(m, STOPPED, true, v, now, m);
    case StartFailed(gen, result, v) => CompleteEnds(m, result, false, v, now, m);
    case Resumed(gen, _, outcome, sawCancel, v, sharing, queueDelay, resumed) =>
      SettleEndsWell(Timed(m, queueDelay, resumed), gen, outcome, sawCancel, v, now, m);
    case HandoffAttempt(attempt, v) => NextEnds(m.(claimed := false), v, now, m);
    case SweepMailbox => SweepEnds(m, now);
    case _ =>
  }

  lemma SweepEnds(m: Mailbox, now: nat)
    ensures AllEnd(m, Sweep(m, now).events)
  {
    FlushEnds(m, now, m);
    FlushTurn(m, now);
    CompleteEnds(Flush(m, now).mb, CANCELLED, true, View(true, Some(0)), now, m);
  }

  /** Active invocations are recorded as activated, and every event is explained. */
  ghost predicate History(s: State) {
    && (forall j | 0 <= j < |s.boxes| && s.boxes[j].mb.active.Some? :: s.boxes[j].mb.active.value.inv in s.activations)
    && (forall k | 0 <= k < |s.log| :: Explained(s.log[k], s.activations))
  }

  lemma StepHistory(s: State, a: Action)
    requires Inv(s) && Guard(s, a) && History(s)
    ensures History(Next(s, a))
  {
    var e := ActionEffect(s, a);
    if e.Moves? {
      MovedHistory(s, a, e, Next(s, a));
    } else {
      QuietHistory(s, Next(s, a));
    }
  }

  lemma QuietHistory(s: State, s': State)
    requires Quiet(s, s') && History(s)
    ensures History(s')
  {
  }

  lemma MovedHistory(s: State, a: Action, e: Effect, s': State)
    requires Effects(s, a, e, s') && e.Moves? && History(s)
    ensures History(s')
  {
    var m := e.t.boxes[e.i].mb;
    StepSourced(m, e.st, e.now);
    SectionEnds(m, e.st, e.now);
    ExtendedHistory(s, e.t);
    ExecutedHistory(e.t, e.i, e.st, e.now, s');
  }

  lemma ExtendedHistory(s: State, t: State)
    requires Extends(s, t) && History(s)
    ensures History(t)
  {
  }

  lemma ExecutedHistory(t: State, i: nat, st: Step, now: nat, s': State)
    requires Executed(t, i, st, now, s') && History(t)
    requires Sourced(t.boxes[i].mb, st, s'.boxes[i].mb)
    requires AllEnd(t.boxes[i].mb, Section(t.boxes[i].mb, st, now).events)
    ensures History(s')
  {
    assert forall x | x in t.activations :: x in s'.activations;
    forall k | 0 <= k < |s'.log| ensures Explained(s'.log[k], s'.activations) {
      if k < |t.log| {
        assert Explained(t.log[k], t.activations);
      } else {
        assert EndsProperly(t.boxes[i].mb, Section(t.boxes[i].mb, st, now).events[k - |t.log|]);
      }
    }
  }

  lemma {:induction false} HistoryHolds(o: Options, states: seq<State>, actions: seq<Action>, n: nat)
    requires IsRun(o, states, actions) && n < |states|
    ensures History(states[n])
  {
    if n > 0 {
      HistoryHolds(o, states, actions, n - 1);
      RunHolds(o, states, actions, n - 1);
      StepHistory(states[n - 1], actions[n - 1]);
    }
  }

  /**
   Only cancelled invocations, and those of unknown actors, end without having become active. So whatever was admitted
   before an invocation that became active has itself become active, has ended in one of these two ways, or waits
   under another key.
   */
  lemma OnlyCancelledAreMissing(o: Options, states: seq<State>, actions: seq<Action>, n: nat)
    requires IsRun(o, states, actions) && n < |states|
    ensures var s := states[n];
            && (forall k | 0 <= k < |s.log| :: Explained(s.log[k], s.activations))
            && (forall p, id: nat | 0 <= p < |s.activations| && id < s.activations[p].id ::
                  Accounted(s, id, s.activations[p].key))
  {
    HistoryHolds(o, states, actions, n);
    ExactlyOneCompletion(o, states, actions, n);
    AdmissionOrder(o, states, actions, n);
    RunHolds(o, states, actions, n);
    AllAccounted(states[n]);
  }

  lemma AllAccounted(s: State)
    requires History(s) && InOrder(s.boxes, s.activations, s.accepted)
    requires forall id: nat | id < s.accepted :: HasEvent(s.log, id) || InSomeMailbox(s.boxes, id)
    requires forall p, j, x | 0 <= p < |s.activations| && 0 <= j < |s.boxes| && x in s.boxes[j].mb.pending
                              && s.activations[p].key == x.key :: s.activations[p].id < x.id
    ensures forall p, id: nat | 0 <= p < |s.activations| && id < s.activations[p].id ::
              Accounted(s, id, s.activations[p].key)
  {
    forall p, id: nat | 0 <= p < |s.activations| && id < s.activations[p].id ensures Accounted(s, id, s.activations[p].key) {
      EarlierAdmitted(s, p, id);
      EarlierAccounted(s, p, id);
    }
  }

  lemma EarlierAdmitted(s: State, p: nat, id: nat)
    requires InOrder(s.boxes, s.activations, s.accepted) && p < |s.activations| && id < s.activations[p].id
    ensures id < s.accepted
  {
  }

  lemma EarlierAccounted(s: State, p: nat, id: nat)
    requires History(s) && p < |s.activations| && id < s.activations[p].id
    requires HasEvent(s.log, id) || InSomeMailbox(s.boxes, id)
    requires forall p, j, x | 0 <= p < |s.activations| && 0 <= j < |s.boxes| && x in s.boxes[j].mb.pending
                              && s.activations[p].key == x.key :: s.activations[p].id < x.id
    ensures Accounted(s, id, s.activations[p].key)
  {
    if HasEvent(s.log, id) {
      var k :| 0 <= k < |s.log| && s.log[k].inv.id == id;
      assert Explained(s.log[k], s.activations);
    } else {
      HeldElsewhere(s, p, id);
    }
  }

  /** What has become of the invocation with an admission number, seen from a later one of the same key. */
  ghost predicate Accounted(s: State, id: nat, key: string) {
    || (exists x | x in s.activations :: x.id == id)
    || (exists k | 0 <= k < |s.log| :: s.log[k].inv.id == id && Explained(s.log[k], s.activations))
    || (exists j | 0 <= j < |s.boxes| :: exists x | x in s.boxes[j].mb.pending :: x.id == id && x.key != key)
  }

  lemma HeldElsewhere(s: State, p: nat, id: nat)
    requires History(s) && p < |s.activations| && id < s.activations[p].id && InSomeMailbox(s.boxes, id)
    requires forall p, j, x | 0 <= p < |s.activations| && 0 <= j < |s.boxes| && x in s.boxes[j].mb.pending
                              && s.activations[p].key == x.key :: s.activations[p].id < x.id
    ensures Accounted(s, id, s.activations[p].key)
  {
    var j :| 0 <= j < |s.boxes| && Holds(s.boxes[j].mb, id);
    if x :| x in s.boxes[j].mb.pending && x.id == id {
      assert x.key != s.activations[p].key;
    } else {
      assert s.boxes[j].mb.active.value.inv in s.activations;
    }
  }

  // ----- drain -----

  predicate Unmarked(m: Mailbox) {
    m.totals.cancelled == 0 && (m.active.Some? ==> !m.active.value.cancelAfterResume)
  }

  /** Nothing has been cancelled, and nothing is going to be by what has happened so far. */
  ghost predicate Uncancelled(s: State) {
    && !s.flags.cancelling && s.retired.cancelled == 0
    && forall j | 0 <= j < |s.boxes| :: Unmarked(s.boxes[j].mb)
  }

  predicate Cancels(a: Action) {
    a.BeginCancel? || a.CancelRequest?
  }

  lemma ReclaimUncancelled(s: State, i: nat)
    requires i < |s.boxes| && Uncancelled(s)
    ensures Uncancelled(ReclaimStep(s, i))
  {
    assert Unmarked(s.boxes[i].mb);
  }

  lemma OtherUncancelled(s: State, a: Action)
    requires Inv(s) && Guard(s, a) && !OnOneMailbox(a) && !Cancels(a) && Uncancelled(s)
    ensures Uncancelled(Next(s, a))
  {
    if a.Reclaim? {
      ReclaimUncancelled(s, a.i);
    } else {
      OtherEffect(s, a);
    }
  }

  lemma PushUnmarked(m: Mailbox, inv: Invocation, now: nat)
    requires ActiveHasStatus(m) && Unmarked(m)
    ensures Unmarked(Push(m, inv, now).mb)
  {
    if m.status == Idle && !m.claimed {
      PrepareNextCancelFree(m.(pending := m.pending + [inv]), CALM, now);
    }
  }

  lemma InternalUnmarked(s: State, i: nat, st: Step, now: nat)
    requires Inv(s) && Guard(s, Internal(i, st, now)) && Uncancelled(s)
    ensures Unmarked(Section(s.boxes[i].mb, st, now).mb)
  {
    assert Unmarked(s.boxes[i].mb);
    StepCancelsNothing(s, i, st, now);
  }

  lemma SectionUnmarked(s: State, a: Action, e: Effect)
    requires Inv(s) && Guard(s, a) && !Cancels(a) && Uncancelled(s)
    requires Effects(s, a, e, Next(s, a)) && e.Moves? && Uncancelled(e.t)
    ensures Unmarked(Section(e.t.boxes[e.i].mb, e.st, e.now).mb)
  {
    assert Unmarked(e.t.boxes[e.i].mb);
    if IsInternal(e.st) {
      InternalUnmarked(s, e.i, e.st, e.now);
    } else if e.st.Enqueue? {
      PushUnmarked(e.t.boxes[e.i].mb, e.st.inv, e.now);
    } else {
      NoSweep(s, a);
    }
  }

  lemma ExtendedUncancelled(s: State, t: State)
    requires Extends(s, t) && Uncancelled(s)
    ensures Uncancelled(t)
  {
  }

  lemma ExecutedUncancelled(t: State, i: nat, st: Step, now: nat, s': State)
    requires Executed(t, i, st, now, s') && Uncancelled(t) && Unmarked(Section(t.boxes[i].mb, st, now).mb)
    ensures Uncancelled(s')
  {
  }

  lemma MovedUncancelled(s: State, a: Action, e: Effect)
    requires Inv(s) && Guard(s, a) && !Cancels(a) && Uncancelled(s)
    requires Effects(s, a, e, Next(s, a)) && e.Moves?
    ensures Uncancelled(Next(s, a))
  {
    ExtendedUncancelled(s, e.t);
    SectionUnmarked(s, a, e);
    ExecutedUncancelled(e.t, e.i, e.st, e.now, Next(s, a));
  }

  lemma NoSweep(s: State, a: Action)
    requires Inv(s) && Guard(s, a) && !s.flags.cancelling
    ensures !a.SweepOne?
  {
  }

  lemma StepUncancelled(s: State, a: Action)
    requires Inv(s) && Guard(s, a) && !Cancels(a) && Uncancelled(s)
    ensures Uncancelled(Next(s, a))
  {
    if OnOneMailbox(a) {
      var e := ActionEffect(s, a);
      if e.Moves? {
        MovedUncancelled(s, a, e);
      } else {
        StillUncancelled(s, a);
      }
    } else {
      OtherUncancelled(s, a);
    }
  }

  lemma StillUncancelled(s: State, a: Action)
    requires Uncancelled(s) && Guard(s, a) && OnOneMailbox(a) && Quiet(s, Next(s, a))
    ensures Uncancelled(Next(s, a))
  {
    assert Next(s, a).flags == s.flags && Next(s, a).retired == s.retired;
  }

  lemma {:induction false} UncancelledHolds(o: Options, states: seq<State>, actions: seq<Action>, n: nat)
    requires IsRun(o, states, actions) && n < |states|
    requires forall k | 0 <= k < n :: !Cancels(actions[k])
    ensures Uncancelled(states[n])
  {
    if n > 0 {
      UncancelledHolds(o, states, actions, n - 1);
      RunHolds(o, states, actions, n - 1);
      StepUncancelled(states[n - 1], actions[n - 1]);
    }
  }

  lemma {:induction false} NoneLive(boxes: seq<Box>)
    requires forall j | 0 <= j < |boxes| :: boxes[j].mb.totals.cancelled == 0
    ensures LiveTotals(boxes).cancelled == 0
  {
    if boxes != [] {
      NoneLive(boxes[1..]);
    }
  }

  /**
   A draining shutdown cancels nothing: in a run without a cancelling shutdown and without cancel requests, no
   cancellation is ever counted or due, whatever else happens, a drain included. Everything
   accepted has then completed or failed, or is pending.
   */
  lemma DrainCancelsNothing(o: Options, states: seq<State>, actions: seq<Action>, n: nat)
    requires IsRun(o, states, actions) && n < |states|
    requires forall k | 0 <= k < n :: !actions[k].BeginCancel? && !actions[k].CancelRequest?
    ensures var s := states[n];
            && Reported(s).cancelled == 0
            && (forall j | 0 <= j < |s.boxes| && s.boxes[j].mb.active.Some? ::
                  !s.boxes[j].mb.active.value.cancelAfterResume)
            && s.accepted == Reported(s).completed + Reported(s).failed + s.counters.total
  {
    UncancelledHolds(o, states, actions, n);
    NoneLive(states[n].boxes);
    Conservation(o, states, actions, n);
    assert forall j | 0 <= j < |states[n].boxes| :: Unmarked(states[n].boxes[j].mb);
  }
}
