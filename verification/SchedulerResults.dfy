/** Which result every invocation ends with, and what the totals count, over whole runs. */
module SchedulerResults {
  import opened Wrappers
  import opened Metrics
  import opened Mailboxes
  import opened Boxes
  import opened BoxProofs
  import opened Accounting
  import opened Scheduler
  import opened SchedulerProofs
  import opened SchedulerInvariant
  import opened SchedulerTheorems
  import opened SchedulerHistory
  import L = MailboxLaws

  // ----- why an event exists -----

  /** The actor was unknown when the invocation was admitted. */
  predicate Skipped(e: Event) {
    !e.inv.registered && e.result == Failure("actor_not_registered")
  }

  /**
   A worker ends the active invocation: its task could not be started, or it came back from a resume, and then a
   cancellation that was asked for comes before what the task says.
   */
  predicate WorkerEnds(m: Mailbox, st: Step, e: Event, cancelled: bool) {
    && m.active.Some? && e.inv == m.active.value.inv
    && (|| (st.StartFailed? && st.gen == m.active.value.gen && !cancelled && e.result == st.result)
        || (st.Resumed? && st.gen == m.active.value.gen
            && (cancelled <==> st.sawCancel || m.active.value.cancelAfterResume)
            && if cancelled then e.result == Failure("scheduler_cancelled")
               else st.outcome == Done(e.result)
                    || (st.outcome.Unsupported? && e.result == Failure("actor_invalid_suspension"))))
  }

  /** Why the action `a`, taken in the state `s`, brings the event, and whether it counts as a cancellation. */
  predicate Causes(s: State, a: Action, e: Event, cancelled: bool) {
    || (!cancelled && Skipped(e))
    || (cancelled && e.result == Failure("scheduler_cancelled")
        && (a.SweepOne?
            || (a.CancelRequest? && e.inv.messageId == a.messageId && e.inv.key == MailboxKey(a.actor, a.partition))))
    || (a.Internal? && a.i < |s.boxes| && WorkerEnds(s.boxes[a.i].mb, a.s, e, cancelled))
  }

  /** The same for one section. */
  predicate SectionCauses(m: Mailbox, st: Step, e: Event, cancelled: bool) {
    || (!cancelled && Skipped(e))
    || (cancelled && e.result == Failure("scheduler_cancelled")
        && (st.SweepMailbox?
            || (st.CancelMessage? && e.inv.messageId == st.messageId && Within(m, e.inv))))
    || WorkerEnds(m, st, e, cancelled)
  }

  predicate Within(m: Mailbox, inv: Invocation) {
    inv in m.pending || (m.active.Some? && inv == m.active.value.inv)
  }

  predicate AllCaused(m: Mailbox, st: Step, events: seq<Event>) {
    forall k | 0 <= k < |events| :: SectionCauses(m, st, events[k], Flag(m, st)(events[k]))
  }

  // ----- counting -----

  datatype Kind = Completed | Failed | Cancelled

  /** What the end of an invocation counts as. */
  function KindOf(result: ActorResult, cancelled: bool): Kind {
    if cancelled then Cancelled else if result.Success? then Completed else Failed
  }

  function Field(t: Totals, kind: Kind): nat {
    match kind
    case Completed => t.completed
    case Failed => t.failed
    case Cancelled => t.cancelled
  }

  function CountEvents(events: seq<Event>, p: Event -> bool): nat {
    if events == [] then 0 else (if p(events[0]) then 1 else 0) + CountEvents(events[1..], p)
  }

  function OfKind(flag: Event -> bool, kind: Kind): Event -> bool {
    (e: Event) => KindOf(e.result, flag(e)) == kind
  }

  /** The totals have grown by the events. */
  ghost predicate Booked(t: Totals, t': Totals, events: seq<Event>, flag: Event -> bool) {
    forall kind: Kind :: Field(t', kind) == Field(t, kind) + CountEvents(events, OfKind(flag, kind))
  }

  lemma {:induction false} CountConstant(events: seq<Event>, p: Event -> bool, hit: bool)
    requires forall k | 0 <= k < |events| :: p(events[k]) == hit
    ensures CountEvents(events, p) == if hit then |events| else 0
  {
    if events != [] {
      CountConstant(events[1..], p, hit);
    }
  }

  lemma {:induction false} CountSame(events: seq<Event>, p: Event -> bool, q: Event -> bool)
    requires forall k | 0 <= k < |events| :: p(events[k]) == q(events[k])
    ensures CountEvents(events, p) == CountEvents(events, q)
  {
    if events != [] {
      CountSame(events[1..], p, q);
    }
  }

  /** Which of a section's events are cancellations. */
  function Flag(m: Mailbox, st: Step): Event -> bool {
    (e: Event) =>
      match st
      case CancelMessage(_, _) => e.result == CANCELLED
      case SweepMailbox => true
      case Resumed(_, _, _, sawCancel, _, _, _, _) =>
        e.inv.registered && m.active.Some? && (sawCancel || m.active.value.cancelAfterResume)
      case _ => false
  }

  lemma SkipsBooked(taken: seq<Invocation>, events: seq<Event>, flag: Event -> bool, kind: Kind)
    requires L.Skips(taken, events) && forall e | Skipped(e) :: !flag(e)
    ensures CountEvents(events, OfKind(flag, kind)) == if kind == Failed then |events| else 0
  {
    forall k | 0 <= k < |events| ensures OfKind(flag, kind)(events[k]) == (kind == Failed) {
      assert events[k] == Event(taken[k], NOT_REGISTERED) && Skipped(events[k]);
    }
    CountConstant(events, OfKind(flag, kind), kind == Failed);
  }

  /** The mailbox has only registered invocations active. */
  predicate ActiveKnown(m: Mailbox) {
    m.active.Some? ==> m.active.value.inv.registered && HasActive(m.status)
  }

  lemma EndsBooked(m: Mailbox, result: ActorResult, cancelled: bool, v: View, m': Mailbox, request: Option<nat>,
                   events: seq<Event>, flag: Event -> bool)
    requires L.Ends(m, result, cancelled, v, m', request, events) && ActiveKnown(m)
    requires flag(events[0]) == cancelled && forall e | Skipped(e) :: !flag(e)
    ensures Booked(m.totals, m'.totals, events, flag)
  {
    forall kind: Kind ensures Field(m'.totals, kind) == Field(m.totals, kind) + CountEvents(events, OfKind(flag, kind)) {
      SkipsBooked(m.pending[..|events| - 1], events[1..], flag, kind);
    }
  }

  lemma NextBooked(pending: seq<Invocation>, t: Totals, m': Mailbox, events: seq<Event>, flag: Event -> bool)
    requires |events| <= |pending| && L.Skips(pending[..|events|], events) && L.Counted(t, m'.totals, 0, |events|, 0)
    requires forall e | Skipped(e) :: !flag(e)
    ensures Booked(t, m'.totals, events, flag)
  {
    forall kind: Kind ensures Field(m'.totals, kind) == Field(t, kind) + CountEvents(events, OfKind(flag, kind)) {
      SkipsBooked(pending[..|events|], events, flag, kind);
    }
  }

  lemma CancelledBooked(taken: seq<Invocation>, t: Totals, t': Totals, events: seq<Event>, flag: Event -> bool)
    requires L.AllCancelled(taken, events) && L.Counted(t, t', 0, 0, |events|)
    requires forall k | 0 <= k < |events| :: flag(events[k])
    ensures Booked(t, t', events, flag)
  {
    forall kind: Kind ensures Field(t', kind) == Field(t, kind) + CountEvents(events, OfKind(flag, kind)) {
      CountConstant(events, OfKind(flag, kind), kind == Cancelled);
    }
  }

  lemma NothingBooked(t: Totals, t': Totals, flag: Event -> bool)
    requires t'.completed == t.completed && t'.failed == t.failed && t'.cancelled == t.cancelled
    ensures Booked(t, t', [], flag)
  {
    forall kind: Kind ensures Field(t', kind) == Field(t, kind) + CountEvents([], OfKind(flag, kind)) {
    }
  }

  /** What a section does to the totals, and why. */
  ghost predicate Accounts(m: Mailbox, st: Step, turn: Turn) {
    Booked(m.totals, turn.mb.totals, turn.events, Flag(m, st)) && AllCaused(m, st, turn.events)
  }

  lemma EndsAccounts(m: Mailbox, st: Step, result: ActorResult, cancelled: bool, v: View, turn: Turn)
    requires L.Ends(m, result, cancelled, v, turn.mb, turn.request, turn.events) && ActiveKnown(m)
    requires !st.SweepMailbox? && Flag(m, st)(turn.events[0]) == cancelled
    requires SectionCauses(m, st, turn.events[0], cancelled)
    ensures Accounts(m, st, turn)
  {
    SkippedUnflagged(m, st);
    EndsBooked(m, result, cancelled, v, turn.mb, turn.request, turn.events, Flag(m, st));
    SkipsCaused(m, st, m.pending[..|turn.events| - 1], turn.events[1..]);
    forall k | 0 <= k < |turn.events| ensures SectionCauses(m, st, turn.events[k], Flag(m, st)(turn.events[k])) {
      if k > 0 {
        assert turn.events[k] == turn.events[1..][k - 1];
      }
    }
  }

  lemma SkippedUnflagged(m: Mailbox, st: Step)
    requires !st.SweepMailbox?
    ensures forall e | Skipped(e) :: !Flag(m, st)(e)
  {
  }

  lemma SkipsCaused(m: Mailbox, st: Step, taken: seq<Invocation>, events: seq<Event>)
    requires L.Skips(taken, events) && !st.SweepMailbox?
    ensures AllCaused(m, st, events)
  {
    SkippedUnflagged(m, st);
    forall k | 0 <= k < |events| ensures SectionCauses(m, st, events[k], Flag(m, st)(events[k])) {
      assert events[k] == Event(taken[k], NOT_REGISTERED) && Skipped(events[k]);
    }
  }

  lemma NextAccounts(m: Mailbox, st: Step, pending: seq<Invocation>, turn: Turn)
    requires |turn.events| <= |pending| && L.Skips(pending[..|turn.events|], turn.events)
    requires L.Counted(m.totals, turn.mb.totals, 0, |turn.events|, 0) && !st.SweepMailbox?
    ensures Accounts(m, st, turn)
  {
    SkippedUnflagged(m, st);
    NextBooked(pending, m.totals, turn.mb, turn.events, Flag(m, st));
    SkipsCaused(m, st, pending[..|turn.events|], turn.events);
  }

  lemma CancelAccounts(m: Mailbox, messageId: string, v: View, now: nat)
    requires ActiveKnown(m)
    ensures Accounts(m, CancelMessage(messageId, v), Cancel(m, messageId, v, now))
  {
    var st, turn := CancelMessage(messageId, v), Cancel(m, messageId, v, now);
    L.CancelSays(m, messageId, v, now);
    var i := FindMessage(m.pending, messageId);
    if i < |m.pending| {
      assert L.FirstWith(m.pending, messageId, i);
      CancelledBooked([m.pending[i]], m.totals, turn.mb.totals, turn.events, Flag(m, st));
    } else if m.active.Some? && m.active.value.inv.messageId == messageId && m.status != Running {
      EndsAccounts(m, st, CANCELLED, true, v, turn);
    } else {
      NothingBooked(m.totals, turn.mb.totals, Flag(m, st));
    }
  }

  lemma SweepAccounts(m: Mailbox, now: nat)
    requires ActiveKnown(m)
    ensures Accounts(m, SweepMailbox, Sweep(m, now))
  {
    var turn := Sweep(m, now);
    L.SweepSays(m, now);
    var taken := if m.active.Some? && m.status != Running then m.pending + [m.active.value.inv] else m.pending;
    CancelledBooked(taken, m.totals, turn.mb.totals, turn.events, Flag(m, SweepMailbox));
    assert forall k | 0 <= k < |turn.events| :: turn.events[k] == Event(taken[k], CANCELLED);
  }

  lemma ResumeAccounts(m: Mailbox, st: Step, now: nat)
    requires st.Resumed? && ActiveKnown(m)
    ensures Accounts(m, st, Section(m, st, now))
  {
    var turn := Section(m, st, now);
    L.EndSays(m, st.gen, st.outcome, st.sawCancel, st.v, st.sharing, st.queueDelay, st.resumed, now);
    var t :| L.Measured(m.totals, t, st.queueDelay, st.resumed)
             && L.Settles(m.(totals := t), st.gen, st.outcome, st.sawCancel, st.v, turn.mb.(claimed := m.claimed),
                          turn.request, turn.events);
    SettledAccounts(m, st, t, turn);
  }

  lemma SettledAccounts(m: Mailbox, st: Step, t: Totals, turn: Turn)
    requires st.Resumed? && ActiveKnown(m) && t.completed == m.totals.completed && t.failed == m.totals.failed
    requires t.cancelled == m.totals.cancelled
    requires L.Settles(m.(totals := t), st.gen, st.outcome, st.sawCancel, st.v, turn.mb.(claimed := m.claimed),
                       turn.request, turn.events)
    ensures Accounts(m, st, turn)
  {
    if m.active.Some? && m.active.value.gen == st.gen && L.Finishes(m.active.value, st.outcome, st.sawCancel) {
      var a := m.active.value;
      var result, cancelled := L.ResultOf(a, st.outcome, st.sawCancel), st.sawCancel || a.cancelAfterResume;
      assert turn.events[0] == Event(a.inv, result);
      assert WorkerEnds(m, st, turn.events[0], cancelled);
      EndsAccounts(m.(totals := t), st, result, cancelled, st.v, turn.(mb := turn.mb.(claimed := m.claimed)));
    } else {
      NothingBooked(m.totals, turn.mb.totals, Flag(m, st));
    }
  }

  lemma SectionAccounts(m: Mailbox, st: Step, now: nat)
    requires ActiveKnown(m) && (st.Refuse? ==> !TicketCurrent(m, st.gen))
    ensures Accounts(m, st, Section(m, st, now))
  {
    var turn := Section(m, st, now);
    if st.Resumed? {
      ResumeAccounts(m, st, now);
    } else if st.CancelMessage? {
      CancelAccounts(m, st.messageId, st.v, now);
    } else if st.SweepMailbox? {
      SweepAccounts(m, now);
    } else if st.StartFailed? && Owns(m, st.gen) {
      L.StartFailSays(m, st.gen, st.result, st.v, now);
      EndsAccounts(m, st, st.result, false, st.v, turn);
    } else if st.Enqueue? && m.status == Idle && !m.claimed {
      L.PushSays(m, st.inv, now);
      NextAccounts(m, st, m.pending + [st.inv], turn);
    } else if st.HandoffAttempt? && HandoffFinal(m, st.attempt) {
      L.HandoffSays(m, st.attempt, st.v, now);
      NextAccounts(m, st, m.pending, turn);
    } else {
      QuietAccounts(m, st, now);
    }
  }

  lemma QuietAccounts(m: Mailbox, st: Step, now: nat)
    requires !st.Resumed? && !st.CancelMessage? && !st.SweepMailbox? && (st.Refuse? ==> !TicketCurrent(m, st.gen))
    requires st.StartFailed? ==> !Owns(m, st.gen)
    requires st.Enqueue? ==> m.status != Idle || m.claimed
    requires st.HandoffAttempt? ==> !HandoffFinal(m, st.attempt)
    ensures Accounts(m, st, Section(m, st, now))
  {
    assert Section(m, st, now).mb.totals == m.totals && Section(m, st, now).events == [];
    NothingBooked(m.totals, m.totals, Flag(m, st));
  }

  // ----- one action -----

  /** The new log entries of an action, by what they count as. */
  function Why(s: State, a: Action, kind: Kind): Event -> bool {
    (e: Event) => KindOf(e.result, Causes(s, a, e, true)) == kind
  }

  /** The action brings events that it causes, and the reported totals count them. */
  ghost predicate Tells(s: State, a: Action, s': State) {
    && s.log <= s'.log
    && (forall k | |s.log| <= k < |s'.log| :: Causes(s, a, s'.log[k], true) || Causes(s, a, s'.log[k], false))
    && forall kind: Kind ::
         Field(Reported(s'), kind) == Field(Reported(s), kind) + CountEvents(s'.log[|s.log|..], Why(s, a, kind))
  }

  lemma {:induction false} LiveFields(boxes: seq<Box>, i: nat, b: Box, kind: Kind)
    requires i < |boxes| && b.retired == boxes[i].retired
    ensures Field(LiveTotals(boxes[i := b]), kind) + (if b.retired then 0 else Field(boxes[i].mb.totals, kind))
            == Field(LiveTotals(boxes), kind) + (if b.retired then 0 else Field(b.mb.totals, kind))
  {
    if i == 0 {
      assert boxes[i := b][1..] == boxes[1..];
    } else {
      assert boxes[i := b][1..] == boxes[1..][i - 1 := b];
      LiveFields(boxes[1..], i - 1, b, kind);
    }
  }

  lemma {:induction false} LiveWithFresh(boxes: seq<Box>, b: Box, kind: Kind)
    requires Field(b.mb.totals, kind) == 0
    ensures Field(LiveTotals(boxes + [b]), kind) == Field(LiveTotals(boxes), kind)
  {
    if boxes != [] {
      LiveWithFresh(boxes[1..], b, kind);
      assert (boxes + [b])[1..] == boxes[1..] + [b];
    }
  }

  lemma ExtendedReport(s: State, t: State, kind: Kind)
    requires Extends(s, t)
    ensures Field(Reported(t), kind) == Field(Reported(s), kind)
  {
    if |t.boxes| > |s.boxes| {
      assert t.boxes == s.boxes + [t.boxes[|s.boxes|]];
      LiveWithFresh(s.boxes, t.boxes[|s.boxes|], kind);
    } else {
      assert t.boxes == s.boxes;
    }
  }

  lemma PerformedReport(t: State, i: nat, st: Step, now: nat, kind: Kind)
    requires i < |t.boxes| && Accounts(t.boxes[i].mb, st, Section(t.boxes[i].mb, st, now))
    requires t.boxes[i].retired ==> Section(t.boxes[i].mb, st, now).mb == t.boxes[i].mb
    ensures Field(Reported(Perform(t, i, st, now)), kind)
            == Field(Reported(t), kind)
               + CountEvents(Section(t.boxes[i].mb, st, now).events, OfKind(Flag(t.boxes[i].mb, st), kind))
  {
    ApplySection(t.boxes[i], st, now);
    LiveFields(t.boxes, i, Apply(t.boxes[i], st, now), kind);
  }

  lemma PerformedLog(t: State, i: nat, st: Step, now: nat)
    requires i < |t.boxes|
    ensures Perform(t, i, st, now).log == t.log + Section(t.boxes[i].mb, st, now).events
  {
  }

  /** A section tells what its action causes. */
  lemma SectionTells(s: State, a: Action, t: State, i: nat, st: Step, now: nat)
    requires AllKnown(s.boxes) && Extends(s, t) && i < |t.boxes|
    requires Accounts(t.boxes[i].mb, st, Section(t.boxes[i].mb, st, now))
    requires t.boxes[i].retired ==> Section(t.boxes[i].mb, st, now).mb == t.boxes[i].mb
    requires forall e, c | SectionCauses(t.boxes[i].mb, st, e, c) :: Causes(s, a, e, c)
    ensures Tells(s, a, Perform(t, i, st, now))
  {
    var m, s' := t.boxes[i].mb, Perform(t, i, st, now);
    var events := Section(m, st, now).events;
    PerformedLog(t, i, st, now);
    assert s'.log[|s.log|..] == events;
    forall k | |s.log| <= k < |s'.log| ensures Causes(s, a, s'.log[k], true) || Causes(s, a, s'.log[k], false) {
      assert SectionCauses(m, st, events[k - |s.log|], Flag(m, st)(events[k - |s.log|]));
    }
    forall kind: Kind
      ensures Field(Reported(s'), kind) == Field(Reported(s), kind) + CountEvents(events, Why(s, a, kind))
    {
      ExtendedReport(s, t, kind);
      PerformedReport(t, i, st, now, kind);
      FlagIsCause(s, a, m, st, events, kind);
    }
  }

  lemma FlagIsCause(s: State, a: Action, m: Mailbox, st: Step, events: seq<Event>, kind: Kind)
    requires AllKnown(s.boxes) && AllCaused(m, st, events)
    requires forall e, c | SectionCauses(m, st, e, c) :: Causes(s, a, e, c)
    ensures CountEvents(events, OfKind(Flag(m, st), kind)) == CountEvents(events, Why(s, a, kind))
  {
    forall k | 0 <= k < |events|
      ensures OfKind(Flag(m, st), kind)(events[k]) == Why(s, a, kind)(events[k])
    {
      assert SectionCauses(m, st, events[k], Flag(m, st)(events[k]));
      assert Causes(s, a, events[k], Flag(m, st)(events[k]));
      CauseIsSure(s, a, events[k]);
    }
    CountSame(events, OfKind(Flag(m, st), kind), Why(s, a, kind));
  }

  /** Whether an event counts as a cancellation is certain. */
  lemma CauseIsSure(s: State, a: Action, e: Event)
    requires AllKnown(s.boxes)
    ensures !(Causes(s, a, e, true) && Causes(s, a, e, false))
  {
    if a.Internal? && a.i < |s.boxes| {
      assert ActiveKnown(s.boxes[a.i].mb);
    }
  }

  predicate AllKnown(boxes: seq<Box>) {
    forall i | 0 <= i < |boxes| :: ActiveKnown(boxes[i].mb)
  }

  lemma EverybodyIsKnown(s: State)
    requires BoxesOk(s.boxes, s.flags)
    ensures AllKnown(s.boxes)
  {
    forall i | 0 <= i < |s.boxes| ensures ActiveKnown(s.boxes[i].mb) {
      assert BoxInv(s.boxes[i], s.flags);
    }
  }

  lemma InternalTells(s: State, i: nat, st: Step, now: nat)
    requires Inv(s) && Guard(s, Internal(i, st, now))
    ensures Tells(s, Internal(i, st, now), Perform(s, i, st, now))
  {
    if st.Refuse? {
      RefusedTicketIsStale(s, i, st.gen);
    }
    if s.boxes[i].retired {
      RetiredUntouched(s.boxes[i], st, now, s.flags);
    }
    EverybodyIsKnown(s);
    SectionAccounts(s.boxes[i].mb, st, now);
    SectionTells(s, Internal(i, st, now), s, i, st, now);
  }

  /** Whatever a mailbox holds has the mailbox's key. */
  lemma KeyWithin(boxes: seq<Box>, i: nat, x: Invocation)
    requires Keyed(boxes) && i < |boxes| && Within(boxes[i].mb, x)
    ensures x.key == boxes[i].key
  {
    if x in boxes[i].mb.pending {
      KeyOfQueued(boxes[i].mb.pending, boxes[i].key, x);
    }
  }

  lemma CancelTells(s: State, actor: string, partition: string, messageId: string, v: View, now: nat)
    requires Inv(s) && Guard(s, CancelRequest(actor, partition, messageId, v, now))
    ensures Tells(s, CancelRequest(actor, partition, messageId, v, now), CancelStep(s, actor, partition, messageId, v, now))
  {
    var a, key := CancelRequest(actor, partition, messageId, v, now), MailboxKey(actor, partition);
    CancelIs(s, actor, partition, messageId, v, now);
    if key !in s.table {
      SameTells(s, a, s);
    } else {
      var i, st := s.table[key], CancelMessage(messageId, v);
      EverybodyIsKnown(s);
      SectionAccounts(s.boxes[i].mb, st, now);
      CancelCauses(s, a, i);
      SectionTells(s, a, s, i, st, now);
    }
  }

  lemma CancelCauses(s: State, a: Action, i: nat)
    requires Keyed(s.boxes) && i < |s.boxes| && a.CancelRequest? && s.boxes[i].key == MailboxKey(a.actor, a.partition)
    ensures forall e, c | SectionCauses(s.boxes[i].mb, CancelMessage(a.messageId, a.v), e, c) :: Causes(s, a, e, c)
  {
    forall e, c | SectionCauses(s.boxes[i].mb, CancelMessage(a.messageId, a.v), e, c) ensures Causes(s, a, e, c) {
      if Within(s.boxes[i].mb, e.inv) {
        KeyWithin(s.boxes, i, e.inv);
      }
    }
  }

  /** Nothing ends and no total changes. */
  lemma SameTells(s: State, a: Action, s': State)
    requires s'.log == s.log && Reported(s') == Reported(s)
    ensures Tells(s, a, s')
  {
    assert s'.log[|s.log|..] == [];
  }

  lemma AcceptedTells(s: State, c: State, a: Action, i: nat, inv: Invocation, now: nat)
    requires AllKnown(s.boxes) && AllKnown(c.boxes) && Extends(s, c) && i < |c.boxes| && !c.boxes[i].retired
    ensures Tells(s, a, Perform(c, i, Enqueue(inv), now))
  {
    SectionAccounts(c.boxes[i].mb, Enqueue(inv), now);
    SectionTells(s, a, c, i, Enqueue(inv), now);
  }

  lemma SubmitTells(s: State, actor: string, partition: string, messageId: string, now: nat)
    requires Inv(s) && LockFree(s.phase)
    ensures Tells(s, Submit(actor, partition, messageId, now), SubmitStep(s, actor, partition, messageId, now))
  {
    var a, key := Submit(actor, partition, messageId, now), MailboxKey(actor, partition);
    if s.flags.stopping || LimitExceeded(s.options, s.counters, actor, key) {
      SameTells(s, a, SubmitStep(s, actor, partition, messageId, now));
    } else {
      var t := Admit(s, key);
      AdmitReady(s, key);
      EverybodyIsKnown(s);
      SubmitIs(s, actor, partition, messageId, now);
      AdmitExtends(s, actor, key);
      AcceptedTells(s, Counted(t, actor, key), a, t.table[key], Incomer(t, actor, key, messageId, now), now);
    }
  }

  /** The mailbox of an accepted invocation exists and is live. */
  lemma AdmitReady(s: State, key: string)
    requires Inv(s) && !s.flags.stopping
    ensures var t := Admit(s, key);
            && AllKnown(t.boxes) && key in t.table && t.table[key] < |t.boxes| && !t.boxes[t.table[key]].retired
  {
    OpenUntilStopping(s);
    AdmitKeeps(s, key);
    AdmitFrame(s, key);
    InTable(Admit(s, key), key);
    EverybodyIsKnown(Admit(s, key));
  }

  lemma InTable(t: State, key: string)
    requires TableOk(t.boxes, t.table)
    ensures key in t.table ==> t.table[key] < |t.boxes| && !t.boxes[t.table[key]].retired
  {
  }

  lemma SweepTells(s: State, i: nat, now: nat)
    requires Inv(s) && Guard(s, SweepOne(i, now))
    ensures Tells(s, SweepOne(i, now), Next(s, SweepOne(i, now)))
  {
    EverybodyIsKnown(s);
    SweptIsLive(s, i);
    SectionAccounts(s.boxes[i].mb, SweepMailbox, now);
    SectionTells(s, SweepOne(i, now), s, i, SweepMailbox, now);
    var t := Perform(s, i, SweepMailbox, now);
    assert Reported(Next(s, SweepOne(i, now))) == Reported(t);
  }

  lemma SweptIsLive(s: State, i: nat)
    requires PhaseOk(s.boxes, s.flags, s.phase, s.counters) && s.phase.Sweeping? && i in s.phase.todo
    ensures i < |s.boxes| && !s.boxes[i].retired
  {
  }

  lemma OtherTells(s: State, a: Action)
    requires Inv(s) && Guard(s, a) && !OnOneMailbox(a)
    ensures Tells(s, a, Next(s, a))
  {
    OtherEffect(s, a);
    if a.Reclaim? {
      ReclaimKeepsReport(s, a.i);
    } else {
      assert Next(s, a).boxes == s.boxes && Next(s, a).retired == s.retired;
    }
    SameTells(s, a, Next(s, a));
  }

  lemma ActionTells(s: State, a: Action)
    requires Inv(s) && Guard(s, a)
    ensures Tells(s, a, Next(s, a))
  {
    if a.Submit? {
      SubmitTells(s, a.actor, a.partition, a.messageId, a.now);
    } else if a.CancelRequest? {
      CancelTells(s, a.actor, a.partition, a.messageId, a.v, a.now);
    } else if a.Internal? {
      InternalTells(s, a.i, a.s, a.now);
    } else if a.SweepOne? {
      SweepTells(s, a.i, a.now);
    } else {
      OtherTells(s, a);
    }
  }

  // ----- whole runs -----

  lemma RunTells(o: Options, states: seq<State>, actions: seq<Action>, k: nat)
    requires IsRun(o, states, actions) && k < |actions|
    ensures Tells(states[k], actions[k], states[k + 1])
  {
    RunHolds(o, states, actions, k);
    ActionTells(states[k], actions[k]);
  }

  /** The entry was written by that action, for a reason that the action gives. */
  ghost predicate WrittenBy(states: seq<State>, actions: seq<Action>, j: nat, k: nat, e: Event)
    requires j < |actions| && j + 1 < |states|
  {
    && |states[j].log| <= k < |states[j + 1].log| && states[j + 1].log[k] == e
    && (Causes(states[j], actions[j], e, true) || Causes(states[j], actions[j], e, false))
  }

  /**
   Every completion has the result that the action which ended the invocation gave it: what the finished task
   returned, why it could not be started or was suspended wrongly, that it was cancelled, or that its actor is unknown.
   */
  lemma {:induction false} EveryResultHasItsCause(o: Options, states: seq<State>, actions: seq<Action>, n: nat, k: nat)
    requires IsRun(o, states, actions) && n < |states| && k < |states[n].log|
    ensures exists j: nat :: j < n && WrittenBy(states, actions, j, k, states[n].log[k])
  {
    if n > 0 {
      RunTells(o, states, actions, n - 1);
      if k < |states[n - 1].log| {
        EveryResultHasItsCause(o, states, actions, n - 1, k);
        var j: nat :| j < n - 1 && WrittenBy(states, actions, j, k, states[n - 1].log[k]);
        assert WrittenBy(states, actions, j, k, states[n].log[k]);
      } else {
        assert WrittenBy(states, actions, n - 1, k, states[n].log[k]);
      }
    }
  }

  /** The entries that a step added to the log. */
  function Added(s: State, s': State): seq<Event> {
    if |s.log| <= |s'.log| then s'.log[|s.log|..] else []
  }

  /** How many of the first `n` actions' events are of a kind. */
  function Tally(states: seq<State>, actions: seq<Action>, n: nat, kind: Kind): nat
    requires n <= |actions| < |states|
  {
    if n == 0 then 0
    else Tally(states, actions, n - 1, kind)
         + CountEvents(Added(states[n - 1], states[n]), Why(states[n - 1], actions[n - 1], kind))
  }

  /**
   The reported totals count the log: `completed` the successes and `failed` the failures among what was not
   cancelled, `cancelled` what was.
   */
  lemma {:induction false} TotalsCountTheLog(o: Options, states: seq<State>, actions: seq<Action>, n: nat, kind: Kind)
    requires IsRun(o, states, actions) && n < |states|
    ensures Field(Reported(states[n]), kind) == Tally(states, actions, n, kind)
  {
    if n > 0 {
      TotalsCountTheLog(o, states, actions, n - 1, kind);
      RunTells(o, states, actions, n - 1);
    }
  }
}
