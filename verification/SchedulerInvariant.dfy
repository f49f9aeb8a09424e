/** Every action of the scheduler keeps its invariant, so every state of every run has it. */
module SchedulerInvariant {
  import opened Metrics
  import opened Mailboxes
  import opened Boxes
  import opened BoxProofs
  import opened Accounting
  import opened Scheduler
  import opened SchedulerProofs

  // ----- sections -----

  /** A step of a worker or a completion on a mailbox without workers brings none in, unless it takes a ticket. */
  lemma NoNewRunner(b: Box, st: Step, now: nat, f: Flags)
    requires b.runners == multiset{} && Enabled(b, st, f) && !st.Take?
    ensures Apply(b, st, now).runners == multiset{}
  {
  }

  lemma SettledPhase(boxes: seq<Box>, i: nat, b': Box, f: Flags, phase: Phase, c: Counters, c': Counters)
    requires PhaseOk(boxes, f, phase, c) && i < |boxes| && c'.total <= c.total
    requires b'.retired == boxes[i].retired && b'.swept == boxes[i].swept
    requires phase.Stopped? ==> b'.runners == multiset{}
    ensures PhaseOk(boxes[i := b'], f, phase, c')
  {
  }

  lemma PhaseKept(s: State, i: nat, st: Step, now: nat)
    requires Inv(s) && i < |s.boxes| && Enabled(s.boxes[i], st, s.flags) && !st.SweepMailbox? && !st.Enqueue?
    requires st.Take? ==> s.phase != Stopped
    requires Perform(s, i, st, now).counters.total <= s.counters.total
    ensures PhaseOk(Perform(s, i, st, now).boxes, s.flags, s.phase, Perform(s, i, st, now).counters)
  {
    ApplySection(s.boxes[i], st, now);
    if s.phase.Stopped? {
      NoNewRunner(s.boxes[i], st, now, s.flags);
    }
    SettledPhase(s.boxes, i, Apply(s.boxes[i], st, now), s.flags, s.phase, s.counters, Perform(s, i, st, now).counters);
  }

  /** Sections other than `enqueue` only lower the counters. */
  lemma TotalFalls(s: State, i: nat, st: Step, now: nat)
    requires Inv(s) && i < |s.boxes| && !st.Enqueue?
    ensures Perform(s, i, st, now).counters.total <= s.counters.total
  {
    CoreAhead(s, i, st);
    StepConserving(s.boxes[i], st, now, s.flags);
    SectionCounters(s.boxes, i, Apply(s.boxes[i], st, now), Section(s.boxes[i].mb, st, now).events, st,
                    s.options, s.counters);
  }

  /**
   When the executor may refuse work, no ticket finds its invocation waiting any more: after a drain nothing is
   pending, and a swept mailbox is never Runnable.
   */
  lemma RefusedTicketIsStale(s: State, i: nat, gen: nat)
    requires Inv(s) && i < |s.boxes| && MayRefuse(s.phase)
    ensures !TicketCurrent(s.boxes[i].mb, gen)
  {
    var b := s.boxes[i];
    assert BoxInv(b, s.flags);
    if !s.flags.cancelling && b.mb.active.Some? {
      SumAtLeast(s.boxes, i, One());
    }
  }

  lemma InternalKeeps(s: State, i: nat, st: Step, now: nat)
    requires Inv(s) && Guard(s, Internal(i, st, now))
    ensures Inv(Perform(s, i, st, now))
  {
    if st.Refuse? {
      RefusedTicketIsStale(s, i, st.gen);
    }
    CoreAhead(s, i, st);
    PerformKeeps(s, i, st, now);
    TotalFalls(s, i, st, now);
    PhaseKept(s, i, st, now);
  }

  lemma CancelKeepsInv(s: State, i: nat, st: Step, now: nat)
    requires Inv(s) && i < |s.boxes| && !s.boxes[i].retired && LockFree(s.phase)
    requires st.CancelMessage? && ViewOk(st.v, s.flags, s.boxes[i].swept)
    ensures Inv(Perform(s, i, st, now))
  {
    CoreAhead(s, i, st);
    PerformKeeps(s, i, st, now);
    TotalFalls(s, i, st, now);
    PhaseKept(s, i, st, now);
  }

  /** A cancel request for a key without mailbox does nothing, any other one is a section of a live mailbox. */
  lemma CancelIs(s: State, actor: string, partition: string, messageId: string, v: View, now: nat)
    requires TableOk(s.boxes, s.table) && Guard(s, CancelRequest(actor, partition, messageId, v, now))
    ensures var key := MailboxKey(actor, partition);
            if key !in s.table then CancelStep(s, actor, partition, messageId, v, now) == s
            else
              && s.table[key] < |s.boxes| && !s.boxes[s.table[key]].retired
              && ViewOk(v, s.flags, s.boxes[s.table[key]].swept)
              && CancelStep(s, actor, partition, messageId, v, now)
                 == Perform(s, s.table[key], CancelMessage(messageId, v), now)
  {
  }

  lemma CancelRequestKeeps(s: State, actor: string, partition: string, messageId: string, v: View, now: nat)
    requires Inv(s) && Guard(s, CancelRequest(actor, partition, messageId, v, now))
    ensures Inv(CancelStep(s, actor, partition, messageId, v, now))
  {
    CancelIs(s, actor, partition, messageId, v, now);
    var key := MailboxKey(actor, partition);
    if key in s.table {
      CancelKeepsInv(s, s.table[key], CancelMessage(messageId, v), now);
    }
  }

  lemma SweptPhase(boxes: seq<Box>, i: nat, b': Box, f: Flags, todo: set<nat>, c: Counters, c': Counters)
    requires PhaseOk(boxes, f, Sweeping(todo), c) && i < |boxes| && i in todo
    requires b'.retired == boxes[i].retired && b'.swept
    ensures PhaseOk(boxes[i := b'], f, Sweeping(todo - {i}), c')
  {
  }

  lemma SweepOneKeeps(s: State, i: nat, now: nat)
    requires Inv(s) && Guard(s, SweepOne(i, now))
    ensures Inv(Next(s, SweepOne(i, now)))
  {
    CoreAhead(s, i, SweepMailbox);
    assert Enabled(s.boxes[i], SweepMailbox, s.flags);
    PerformKeeps(s, i, SweepMailbox, now);
    ApplySection(s.boxes[i], SweepMailbox, now);
    SweptPhase(s.boxes, i, Apply(s.boxes[i], SweepMailbox, now), s.flags, s.phase.todo, s.counters,
               Perform(s, i, SweepMailbox, now).counters);
  }

  // ----- admission -----

  lemma {:induction false} LiveAppend(boxes: seq<Box>, b: Box)
    requires Finished(b.mb.totals) == 0
    ensures Finished(LiveTotals(boxes + [b])) == Finished(LiveTotals(boxes))
  {
    if boxes != [] {
      LiveAppend(boxes[1..], b);
      assert (boxes + [b])[1..] == boxes[1..] + [b];
    }
  }

  /** What the invariant needs of a new mailbox besides its own part. */
  predicate Untouched(b: Box) {
    && !b.retired && !b.swept && b.runners == multiset{}
    && b.mb.pending == [] && b.mb.active.None? && Finished(b.mb.totals) == 0
  }

  lemma AppendOrder(boxes: seq<Box>, b: Box, acts: seq<Invocation>, accepted: nat)
    requires InOrder(boxes, acts, accepted) && b.mb.pending == []
    ensures InOrder(boxes + [b], acts, accepted)
  {
    var boxes' := boxes + [b];
    forall p, j | 0 <= p < |acts| && 0 <= j < |boxes'| && acts[p].key == boxes'[j].key
      ensures Behind(boxes'[j].mb, acts[p].id)
    {
      if j < |boxes| {
        assert Behind(boxes[j].mb, acts[p].id);
      }
    }
  }

  lemma AppendBoxes(boxes: seq<Box>, b: Box, f: Flags)
    requires BoxesOk(boxes, f) && BoxInv(b, f)
    ensures BoxesOk(boxes + [b], f)
  {
    var boxes' := boxes + [b];
    forall j | 0 <= j < |boxes'| ensures BoxInv(boxes'[j], f) {
      assert boxes'[j] == if j < |boxes| then boxes[j] else b;
    }
  }

  lemma AppendTable(boxes: seq<Box>, b: Box, table: map<string, nat>)
    requires TableOk(boxes, table) && Untouched(b) && b.key !in table
    ensures TableOk(boxes + [b], table[b.key := |boxes|])
  {
  }

  lemma AppendKeyed(boxes: seq<Box>, b: Box)
    requires Keyed(boxes) && Untouched(b)
    ensures Keyed(boxes + [b])
  {
  }

  lemma AppendPhase(boxes: seq<Box>, b: Box, f: Flags, c: Counters)
    requires PhaseOk(boxes, f, Open, c) && Untouched(b)
    ensures PhaseOk(boxes + [b], f, Open, c)
  {
  }

  lemma AppendSums(o: Options, c: Counters, boxes: seq<Box>, b: Box, log: seq<Event>, accepted: nat)
    requires ExactlyOnce(boxes, log, accepted) && CountersExact(o, c, boxes)
    requires b.mb.pending == [] && b.mb.active.None?
    ensures ExactlyOnce(boxes + [b], log, accepted)
    ensures CountersExact(o, c, boxes + [b])
  {
    var boxes' := boxes + [b];
    forall w: Weigh ensures SumWeight(boxes', w) == SumWeight(boxes, w) {
      SumAppend(boxes, b, w);
    }
    forall i: nat ensures EventWeight(log, IsId(i)) + SumWeight(boxes', IsId(i)) == if i < accepted then 1 else 0 {
      assert EventWeight(log, IsId(i)) + SumWeight(boxes, IsId(i)) == if i < accepted then 1 else 0;
    }
    if o.maxPerActor > 0 {
      forall a: string ensures Lookup(c.actors, a) == SumWeight(boxes', OfActor(a)) {
        assert Lookup(c.actors, a) == SumWeight(boxes, OfActor(a));
      }
    }
    if o.maxPerPartition > 0 {
      forall k: string ensures Lookup(c.partitions, k) == SumWeight(boxes', OfKey(k)) {
        assert Lookup(c.partitions, k) == SumWeight(boxes, OfKey(k));
      }
    }
  }

  lemma AppendKeeps(s: State, b: Box)
    requires Inv(s) && s.phase.Open? && BoxInv(b, s.flags) && Untouched(b) && b.key !in s.table
    ensures Inv(s.(boxes := s.boxes + [b], table := s.table[b.key := |s.boxes|]))
  {
    AppendBoxes(s.boxes, b, s.flags);
    AppendTable(s.boxes, b, s.table);
    AppendKeyed(s.boxes, b);
    AppendPhase(s.boxes, b, s.flags, s.counters);
    AppendSums(s.options, s.counters, s.boxes, b, s.log, s.accepted);
    AppendOrder(s.boxes, b, s.activations, s.accepted);
    LiveAppend(s.boxes, b);
  }

  /** Admission of a new key appends a mailbox that satisfies its part of the invariant. */
  lemma Created(s: State, key: string) returns (b: Box)
    requires key !in s.table && (s.flags.cancelling ==> s.flags.stopping)
    ensures Untouched(b) && b.key == key
    ensures Admit(s, key) == s.(boxes := s.boxes + [b], table := s.table[key := |s.boxes|])
    ensures BoxInv(b, s.flags)
  {
    b := FreshBox(key);
  }

  lemma CancellingStops(s: State)
    requires Inv(s)
    ensures s.flags.cancelling ==> s.flags.stopping
  {
  }

  /** Creating the mailbox of a new key keeps the invariant. */
  lemma AdmitKeeps(s: State, key: string)
    requires Inv(s) && s.phase.Open?
    ensures Inv(Admit(s, key))
  {
    if key !in s.table {
      CancellingStops(s);
      var b := Created(s, key);
      AppendKeeps(s, b);
    }
  }

  lemma AdmitFrame(s: State, key: string)
    ensures var t := Admit(s, key);
            && key in t.table && t.phase == s.phase && t.flags == s.flags && t.accepted == s.accepted
            && t.options == s.options && t.counters == s.counters
  {
  }

  lemma IncrementAhead(o: Options, c: Counters, boxes: seq<Box>, inv: Invocation)
    requires CountersExact(o, c, boxes)
    ensures CountersAhead(o, Increment(o, c, inv.actor, inv.key), boxes, Enqueue(inv))
  {
    var c', st := Increment(o, c, inv.actor, inv.key), Enqueue(inv);
    if o.maxPerActor > 0 {
      forall a: string ensures Lookup(c'.actors, a) == SumWeight(boxes, OfActor(a)) + Incoming(st, OfActor(a)) {
        assert Lookup(c.actors, a) == SumWeight(boxes, OfActor(a));
      }
    }
    if o.maxPerPartition > 0 {
      forall k: string ensures Lookup(c'.partitions, k) == SumWeight(boxes, OfKey(k)) + Incoming(st, OfKey(k)) {
        assert Lookup(c.partitions, k) == SumWeight(boxes, OfKey(k));
      }
    }
  }

  lemma IncrementWithin(o: Options, c: Counters, actor: string, key: string)
    requires WithinLimits(o, c) && !LimitExceeded(o, c, actor, key)
    ensures WithinLimits(o, Increment(o, c, actor, key))
  {
  }

  lemma AdmitCounted(s: State, key: string, inv: Invocation)
    requires Inv(s) && key in s.table && inv.key == key && inv.id == s.accepted
    requires !LimitExceeded(s.options, s.counters, inv.actor, key)
    ensures Ahead(s.(accepted := s.accepted + 1, counters := Increment(s.options, s.counters, inv.actor, key)),
                  s.table[key], Enqueue(inv))
  {
    var st := Enqueue(inv);
    IncrementAhead(s.options, s.counters, s.boxes, inv);
    IncrementWithin(s.options, s.counters, inv.actor, key);
    forall n: nat
      ensures EventWeight(s.log, IsId(n)) + SumWeight(s.boxes, IsId(n)) + Incoming(st, IsId(n))
              == if n < s.accepted + 1 then 1 else 0
    {
      assert EventWeight(s.log, IsId(n)) + SumWeight(s.boxes, IsId(n)) == if n < s.accepted then 1 else 0;
    }
  }

  /** The state in which the section of an accepted `enqueue` runs, once the mailbox exists. */
  function Counted(t: State, actor: string, key: string): State {
    t.(accepted := t.accepted + 1, counters := Increment(t.options, t.counters, actor, key))
  }

  function Incomer(s: State, actor: string, key: string, messageId: string, now: nat): Invocation {
    Invocation(s.accepted, actor, key, messageId, actor in s.actors, now)
  }

  lemma SubmitIs(s: State, actor: string, partition: string, messageId: string, now: nat)
    requires !s.flags.stopping && !LimitExceeded(s.options, s.counters, actor, MailboxKey(actor, partition))
    ensures var key := MailboxKey(actor, partition);
            var t := Admit(s, key);
            key in t.table && (t.table[key] < |t.boxes| ==>
              SubmitStep(s, actor, partition, messageId, now)
              == Perform(Counted(t, actor, key), t.table[key], Enqueue(Incomer(t, actor, key, messageId, now)), now))
  {
    var key := MailboxKey(actor, partition);
    var c := Increment(s.options, s.counters, actor, key);
    assert Admit(s.(accepted := s.accepted + 1, counters := c), key) == Counted(Admit(s, key), actor, key);
  }

  lemma SubmitKeeps(s: State, actor: string, partition: string, messageId: string, now: nat)
    requires Inv(s) && LockFree(s.phase)
    ensures Inv(SubmitStep(s, actor, partition, messageId, now))
  {
    var key := MailboxKey(actor, partition);
    if s.flags.stopping || LimitExceeded(s.options, s.counters, actor, key) {
      RejectKeeps(s);
    } else {
      OpenUntilStopping(s);
      AdmitKeeps(s, key);
      AdmitFrame(s, key);
      AcceptKeeps(Admit(s, key), actor, key, messageId, now);
      SubmitIs(s, actor, partition, messageId, now);
    }
  }

  lemma OpenUntilStopping(s: State)
    requires Inv(s) && !s.flags.stopping
    ensures s.phase.Open?
  {
  }

  lemma RejectKeeps(s: State)
    requires Inv(s)
    ensures Inv(s.(rejected := s.rejected + 1))
  {
  }

  lemma EnqueuedPhase(s: State, i: nat, inv: Invocation, now: nat)
    requires PhaseOk(s.boxes, s.flags, Open, s.counters) && i < |s.boxes| && s.phase.Open?
    ensures PhaseOk(Perform(s, i, Enqueue(inv), now).boxes, s.flags, Open, Perform(s, i, Enqueue(inv), now).counters)
  {
    ApplySection(s.boxes[i], Enqueue(inv), now);
  }

  lemma EnqueueKeepsInv(s: State, i: nat, inv: Invocation, now: nat)
    requires Ahead(s, i, Enqueue(inv)) && s.phase.Open? && PhaseOk(s.boxes, s.flags, Open, s.counters)
    ensures Inv(Perform(s, i, Enqueue(inv), now))
  {
    PerformKeeps(s, i, Enqueue(inv), now);
    EnqueuedPhase(s, i, inv, now);
  }

  /** An accepted invocation whose mailbox exists. */
  lemma AcceptKeeps(t: State, actor: string, key: string, messageId: string, now: nat)
    requires Inv(t) && t.phase.Open? && key in t.table && !LimitExceeded(t.options, t.counters, actor, key)
    ensures t.table[key] < |t.boxes|
    ensures Inv(Perform(Counted(t, actor, key), t.table[key], Enqueue(Incomer(t, actor, key, messageId, now)), now))
  {
    var inv := Incomer(t, actor, key, messageId, now);
    AdmitCounted(t, key, inv);
    PhaseOpenStays(t, Increment(t.options, t.counters, actor, key));
    EnqueueKeepsInv(Counted(t, actor, key), t.table[key], inv, now);
  }

  lemma PhaseOpenStays(s: State, c: Counters)
    requires Inv(s) && s.phase.Open?
    ensures PhaseOk(s.boxes, s.flags, Open, c)
  {
  }

  // ----- reclamation -----

  lemma {:induction false} LiveRetire(boxes: seq<Box>, i: nat)
    requires i < |boxes| && !boxes[i].retired
    ensures Merge(boxes[i].mb.totals, LiveTotals(boxes[i := boxes[i].(retired := true)])) == LiveTotals(boxes)
  {
    var boxes', t := boxes[i := boxes[i].(retired := true)], boxes[i].mb.totals;
    if i == 0 {
      assert boxes'[1..] == boxes[1..];
      MergeLaws(LiveTotals(boxes[1..]), t, t);
    } else {
      assert boxes'[1..] == boxes[1..][i - 1 := boxes[i].(retired := true)];
      LiveRetire(boxes[1..], i - 1);
      var first := if boxes[0].retired then NoTotals else boxes[0].mb.totals;
      var rest := LiveTotals(boxes'[1..]);
      calc {
        Merge(t, LiveTotals(boxes'));
        Merge(t, Merge(first, rest));
        { MergeLaws(t, first, rest); }
        Merge(Merge(first, t), rest);
        { MergeLaws(first, t, rest); }
        Merge(first, Merge(t, rest));
      }
    }
  }

  /** Reclaiming a mailbox changes nothing that `metrics()` reports. */
  lemma ReclaimKeepsReport(s: State, i: nat)
    requires i < |s.boxes| && TableOk(s.boxes, s.table)
    ensures Reported(ReclaimStep(s, i)) == Reported(s)
  {
    var s' := ReclaimStep(s, i);
    if s' != s {
      LiveRetire(s.boxes, i);
      MergeLaws(s.retired, s.boxes[i].mb.totals, LiveTotals(s'.boxes));
    }
  }

  lemma {:induction false} RetireSum(boxes: seq<Box>, i: nat, w: Weigh)
    requires i < |boxes|
    ensures SumWeight(boxes[i := boxes[i].(retired := true)], w) == SumWeight(boxes, w)
  {
    SumUpdate(boxes, i, boxes[i].(retired := true), w);
  }

  lemma RetireKeepsSums(s: State, i: nat, c: Counters)
    requires Inv(s) && i < |s.boxes| && c.total == s.counters.total
    requires forall k: string :: Lookup(c.partitions, k) == Lookup(s.counters.partitions, k)
    requires c.actors == s.counters.actors
    ensures ExactlyOnce(s.boxes[i := s.boxes[i].(retired := true)], s.log, s.accepted)
    ensures CountersExact(s.options, c, s.boxes[i := s.boxes[i].(retired := true)])
  {
    var boxes := s.boxes[i := s.boxes[i].(retired := true)];
    forall w: Weigh ensures SumWeight(boxes, w) == SumWeight(s.boxes, w) {
      RetireSum(s.boxes, i, w);
    }
    forall n: nat ensures EventWeight(s.log, IsId(n)) + SumWeight(boxes, IsId(n)) == if n < s.accepted then 1 else 0 {
      assert EventWeight(s.log, IsId(n)) + SumWeight(s.boxes, IsId(n)) == if n < s.accepted then 1 else 0;
    }
    if s.options.maxPerActor > 0 {
      forall a: string ensures Lookup(c.actors, a) == SumWeight(boxes, OfActor(a)) {
        assert Lookup(s.counters.actors, a) == SumWeight(s.boxes, OfActor(a));
      }
    }
    if s.options.maxPerPartition > 0 {
      forall k: string ensures Lookup(c.partitions, k) == SumWeight(boxes, OfKey(k)) {
        assert Lookup(s.counters.partitions, k) == SumWeight(s.boxes, OfKey(k));
      }
    }
  }

  lemma RetiredTable(boxes: seq<Box>, table: map<string, nat>, i: nat)
    requires TableOk(boxes, table) && i < |boxes| && !boxes[i].retired && Reclaimable(boxes[i].mb)
    ensures TableOk(boxes[i := boxes[i].(retired := true)], table - {boxes[i].key})
  {
  }

  lemma RetiredPhase(boxes: seq<Box>, i: nat, f: Flags, phase: Phase, c: Counters, c': Counters)
    requires PhaseOk(boxes, f, phase, c) && i < |boxes| && !boxes[i].swept && LockFree(phase) && c'.total == c.total
    ensures PhaseOk(boxes[i := boxes[i].(retired := true)], f, phase, c')
  {
  }

  lemma RetiredBoxes(boxes: seq<Box>, i: nat, f: Flags)
    requires BoxesOk(boxes, f) && Keyed(boxes) && i < |boxes|
    ensures BoxesOk(boxes[i := boxes[i].(retired := true)], f) && Keyed(boxes[i := boxes[i].(retired := true)])
    ensures Reclaimable(boxes[i].mb) ==> !boxes[i].swept
  {
    assert BoxInv(boxes[i], f);
    var b := boxes[i].(retired := true);
    assert BoxInv(b, f);
  }

  /** Reclaiming a mailbox drops at most a key counter that is zero. */
  lemma ReclaimIs(s: State, i: nat) returns (c: Counters)
    requires i < |s.boxes| && WithinLimits(s.options, s.counters) && ReclaimStep(s, i) != s
    ensures var b := s.boxes[i];
            && Reclaimable(b.mb) && b.key in s.table && s.table[b.key] == i
            && ReclaimStep(s, i) == s.(boxes := s.boxes[i := b.(retired := true)], table := s.table - {b.key},
                                       retired := Merge(s.retired, b.mb.totals), counters := c)
    ensures c.total == s.counters.total && c.actors == s.counters.actors && WithinLimits(s.options, c)
    ensures forall k: string :: Lookup(c.partitions, k) == Lookup(s.counters.partitions, k)
  {
    c := ReclaimStep(s, i).counters;
  }

  lemma ReclaimedKeeps(s: State, i: nat, c: Counters, retired: Totals)
    requires Inv(s) && i < |s.boxes| && !s.boxes[i].retired && Reclaimable(s.boxes[i].mb) && LockFree(s.phase)
    requires c.total == s.counters.total && c.actors == s.counters.actors && WithinLimits(s.options, c)
    requires forall k: string :: Lookup(c.partitions, k) == Lookup(s.counters.partitions, k)
    requires s.accepted == Finished(Merge(retired, LiveTotals(s.boxes[i := s.boxes[i].(retired := true)]))) + c.total
    ensures Inv(s.(boxes := s.boxes[i := s.boxes[i].(retired := true)], table := s.table - {s.boxes[i].key},
                   retired := retired, counters := c))
  {
    RetiredBoxes(s.boxes, i, s.flags);
    RetiredTable(s.boxes, s.table, i);
    RetiredPhase(s.boxes, i, s.flags, s.phase, s.counters, c);
    RetireKeepsSums(s, i, c);
    RetiredOrder(s.boxes, i, s.boxes[i].(retired := true), s.activations, s.accepted);
  }

  lemma ReclaimKeeps(s: State, i: nat)
    requires Inv(s) && i < |s.boxes| && LockFree(s.phase)
    ensures Inv(ReclaimStep(s, i))
  {
    ReclaimKeepsReport(s, i);
    if ReclaimStep(s, i) != s {
      var c := ReclaimIs(s, i);
      ReclaimedKeeps(s, i, c, Merge(s.retired, s.boxes[i].mb.totals));
    }
  }

  // ----- shutdown -----

  lemma BeginKeepsInv(s: State, f: Flags, phase: Phase)
    requires Inv(s) && s.phase.Open? && f.stopping
    requires phase == if f.cancelling then Sweeping(LiveBoxes(s)) else Draining
    ensures Inv(s.(flags := f, phase := phase))
  {
    forall j | 0 <= j < |s.boxes| ensures BoxInv(s.boxes[j], f) {
      FlagsKeep(s.boxes[j], s.flags, f);
    }
  }

  /** The actions that touch no mailbox. */
  lemma PlainKeeps(s: State, a: Action)
    requires Inv(s) && Guard(s, a) && (a.Register? || a.EndSweep? || a.Drained? || a.Joined?)
    ensures Inv(Next(s, a))
  {
  }

  lemma BegunKeeps(s: State, a: Action)
    requires Inv(s) && Guard(s, a) && (a.BeginDrain? || a.BeginCancel?)
    ensures Inv(Next(s, a))
  {
    if a.BeginDrain? {
      BeginKeepsInv(s, Flags(true, false), Draining);
    } else {
      BeginKeepsInv(s, Flags(true, true), Sweeping(LiveBoxes(s)));
    }
  }

  lemma RequestKeeps(s: State, a: Action)
    requires Inv(s) && Guard(s, a) && (a.Submit? || a.CancelRequest? || a.Reclaim?)
    ensures Inv(Next(s, a))
  {
    if a.Submit? {
      SubmitKeeps(s, a.actor, a.partition, a.messageId, a.now);
    } else if a.CancelRequest? {
      CancelRequestKeeps(s, a.actor, a.partition, a.messageId, a.v, a.now);
    } else {
      ReclaimKeeps(s, a.i);
    }
  }

  /** The invariant is inductive. */
  lemma NextKeeps(s: State, a: Action)
    requires Inv(s) && Guard(s, a)
    ensures Inv(Next(s, a))
  {
    if a.Submit? || a.CancelRequest? || a.Reclaim? {
      RequestKeeps(s, a);
    } else if a.Internal? {
      InternalKeeps(s, a.i, a.s, a.now);
    } else if a.SweepOne? {
      SweepOneKeeps(s, a.i, a.now);
    } else if a.BeginDrain? || a.BeginCancel? {
      BegunKeeps(s, a);
    } else {
      PlainKeeps(s, a);
    }
  }

  lemma InitHolds(o: Options)
    ensures Inv(Init(o))
  {
  }

  /** Every state of every run satisfies the invariant. */
  lemma {:induction false} RunHolds(o: Options, states: seq<State>, actions: seq<Action>, n: nat)
    requires IsRun(o, states, actions) && n < |states|
    ensures Inv(states[n])
  {
    if n == 0 {
      InitHolds(o);
    } else {
      RunHolds(o, states, actions, n - 1);
      NextKeeps(states[n - 1], actions[n - 1]);
    }
  }
}
