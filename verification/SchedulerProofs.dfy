/** The invariant of the scheduler and its preservation by every action. */
module SchedulerProofs {
  import opened Metrics
  import opened Mailboxes
  import opened Boxes
  import opened BoxProofs
  import opened Accounting
  import opened Scheduler

  // ----- weights -----

  function One(): Weigh {
    (x: Invocation) => 1
  }

  function IsId(i: nat): Weigh {
    (x: Invocation) => if x.id == i then 1 else 0
  }

  function OfActor(actor: string): Weigh {
    (x: Invocation) => if x.actor == actor then 1 else 0
  }

  function OfKey(key: string): Weigh {
    (x: Invocation) => if x.key == key then 1 else 0
  }

  function NotOfKey(key: string): Weigh {
    (x: Invocation) => if x.key == key then 0 else 1
  }

  function SumWeight(boxes: seq<Box>, w: Weigh): nat {
    if boxes == [] then 0 else Weight(boxes[0].mb, w) + SumWeight(boxes[1..], w)
  }

  lemma {:induction false} SumUpdate(boxes: seq<Box>, i: nat, b: Box, w: Weigh)
    requires i < |boxes|
    ensures SumWeight(boxes[i := b], w) + Weight(boxes[i].mb, w) == SumWeight(boxes, w) + Weight(b.mb, w)
  {
    if i == 0 {
      assert boxes[i := b][1..] == boxes[1..];
    } else {
      assert boxes[i := b][1..] == boxes[1..][i - 1 := b];
      SumUpdate(boxes[1..], i - 1, b, w);
    }
  }

  lemma {:induction false} SumAppend(boxes: seq<Box>, b: Box, w: Weigh)
    ensures SumWeight(boxes + [b], w) == SumWeight(boxes, w) + Weight(b.mb, w)
  {
    if boxes != [] {
      SumAppend(boxes[1..], b, w);
      assert (boxes + [b])[1..] == boxes[1..] + [b];
    }
  }

  lemma {:induction false} SumAtLeast(boxes: seq<Box>, i: nat, w: Weigh)
    requires i < |boxes|
    ensures SumWeight(boxes, w) >= Weight(boxes[i].mb, w)
  {
    if i > 0 {
      SumAtLeast(boxes[1..], i - 1, w);
    }
  }

  lemma {:induction false} QueueAtLeast(p: seq<Invocation>, n: nat, w: Weigh)
    requires n < |p|
    ensures QueueWeight(p, w) >= w(p[n])
  {
    if n > 0 {
      QueueAtLeast(p[1..], n - 1, w);
    }
  }

  lemma {:induction false} EventCount(events: seq<Event>)
    ensures EventWeight(events, One()) == |events|
  {
    if events != [] {
      EventCount(events[1..]);
    }
  }

  lemma {:induction false} QueueCount(p: seq<Invocation>)
    ensures QueueWeight(p, One()) == |p|
  {
    if p != [] {
      QueueCount(p[1..]);
    }
  }

  // ----- the invariant -----

  ghost predicate BoxesOk(boxes: seq<Box>, f: Flags) {
    forall j | 0 <= j < |boxes| :: BoxInv(boxes[j], f)
  }

  /** The table holds exactly the mailboxes that have not been reclaimed, each under its own key. */
  ghost predicate TableOk(boxes: seq<Box>, table: map<string, nat>) {
    && (forall k | k in table :: table[k] < |boxes| && boxes[table[k]].key == k && !boxes[table[k]].retired)
    && (forall j | 0 <= j < |boxes| ::
          if boxes[j].retired then Reclaimable(boxes[j].mb) else boxes[j].key in table && table[boxes[j].key] == j)
  }

  /** Every admission number below `accepted` is either still in one mailbox or has one completion event. */
  ghost predicate ExactlyOnce(boxes: seq<Box>, log: seq<Event>, accepted: nat) {
    forall i: nat :: EventWeight(log, IsId(i)) + SumWeight(boxes, IsId(i)) == if i < accepted then 1 else 0
  }

  ghost predicate CountersExact(o: Options, c: Counters, boxes: seq<Box>) {
    && c.total == SumWeight(boxes, One())
    && (o.maxPerActor > 0 ==> forall a: string :: Lookup(c.actors, a) == SumWeight(boxes, OfActor(a)))
    && (o.maxPerPartition > 0 ==> forall k: string :: Lookup(c.partitions, k) == SumWeight(boxes, OfKey(k)))
  }

  ghost predicate WithinLimits(o: Options, c: Counters) {
    && (o.maxTasks > 0 ==> c.total <= o.maxTasks)
    && (o.maxPerActor > 0 ==> forall a | a in c.actors :: c.actors[a] <= o.maxPerActor)
    && (o.maxPerPartition > 0 ==> forall k | k in c.partitions :: c.partitions[k] <= o.maxPerPartition)
  }

  ghost predicate Keyed(boxes: seq<Box>) {
    forall j | 0 <= j < |boxes| :: Weight(boxes[j].mb, NotOfKey(boxes[j].key)) == 0
  }

  /** Activations of one key happen in admission order, ahead of everything that still waits under that key. */
  ghost predicate InOrder(boxes: seq<Box>, activations: seq<Invocation>, accepted: nat) {
    && (forall p | 0 <= p < |activations| :: activations[p].id < accepted)
    && (forall p, q | 0 <= p < q < |activations| && activations[p].key == activations[q].key ::
          activations[p].id < activations[q].id)
    && (forall p, j | 0 <= p < |activations| && 0 <= j < |boxes| && activations[p].key == boxes[j].key ::
          Behind(boxes[j].mb, activations[p].id))
  }

  predicate Behind(m: Mailbox, id: nat) {
    forall x | x in m.pending :: id < x.id
  }

  ghost predicate PhaseOk(boxes: seq<Box>, f: Flags, phase: Phase, c: Counters) {
    && (f.stopping <==> !phase.Open?)
    && (f.cancelling ==> f.stopping)
    && (phase.Draining? ==> !f.cancelling)
    && (phase.Sweeping? ==> f.cancelling)
    && (forall j | 0 <= j < |boxes| ::
          if boxes[j].retired then !boxes[j].swept
          else boxes[j].swept <==> f.cancelling && (phase.Sweeping? ==> j !in phase.todo))
    && (phase.Sweeping? ==> forall j | j in phase.todo :: j < |boxes| && !boxes[j].retired)
    && ((phase.Joining? || phase.Stopped?) && !f.cancelling ==> c.total == 0)
    && (phase.Stopped? ==> forall j | 0 <= j < |boxes| :: boxes[j].runners == multiset{})
  }

  ghost predicate Balanced(s: State) {
    s.accepted == Finished(Reported(s)) + s.counters.total
  }

  ghost predicate Inv(s: State) {
    && BoxesOk(s.boxes, s.flags)
    && TableOk(s.boxes, s.table)
    && ExactlyOnce(s.boxes, s.log, s.accepted)
    && CountersExact(s.options, s.counters, s.boxes)
    && WithinLimits(s.options, s.counters)
    && Keyed(s.boxes)
    && InOrder(s.boxes, s.activations, s.accepted)
    && PhaseOk(s.boxes, s.flags, s.phase, s.counters)
    && Balanced(s)
  }

  // ----- counters -----

  /** Lowering the counters for a list of events subtracts exactly their weights. */
  ghost predicate Lowers(o: Options, c: Counters, events: seq<Event>, c': Counters) {
    && c'.total + |events| == c.total
    && (o.maxPerActor > 0 ==>
          forall a: string :: Lookup(c'.actors, a) + EventWeight(events, OfActor(a)) == Lookup(c.actors, a))
    && (o.maxPerPartition > 0 ==>
          forall k: string :: Lookup(c'.partitions, k) + EventWeight(events, OfKey(k)) == Lookup(c.partitions, k))
  }

  /** The counters cover the events. */
  ghost predicate Covers(o: Options, c: Counters, events: seq<Event>) {
    && |events| <= c.total
    && (o.maxPerActor > 0 ==> forall a: string :: EventWeight(events, OfActor(a)) <= Lookup(c.actors, a))
    && (o.maxPerPartition > 0 ==> forall k: string :: EventWeight(events, OfKey(k)) <= Lookup(c.partitions, k))
  }

  lemma DecrementLowers(o: Options, c: Counters, events: seq<Event>)
    requires Covers(o, c, events) && events != []
    ensures var c' := Decrement(o, c, events[0].inv);
            && c'.total + 1 == c.total
            && (o.maxPerActor > 0 ==>
                  forall a: string :: Lookup(c'.actors, a) + OfActor(a)(events[0].inv) == Lookup(c.actors, a))
            && (o.maxPerPartition > 0 ==>
                  forall k: string :: Lookup(c'.partitions, k) + OfKey(k)(events[0].inv) == Lookup(c.partitions, k))
            && Covers(o, c', events[1..])
  {
    var inv := events[0].inv;
    var c' := Decrement(o, c, inv);
    if o.maxPerActor > 0 {
      assert EventWeight(events, OfActor(inv.actor)) <= Lookup(c.actors, inv.actor);
      forall a: string ensures Lookup(c'.actors, a) + OfActor(a)(inv) == Lookup(c.actors, a) {
      }
      forall a: string ensures EventWeight(events[1..], OfActor(a)) <= Lookup(c'.actors, a) {
        assert EventWeight(events, OfActor(a)) <= Lookup(c.actors, a);
      }
    }
    if o.maxPerPartition > 0 {
      assert EventWeight(events, OfKey(inv.key)) <= Lookup(c.partitions, inv.key);
      forall k: string ensures Lookup(c'.partitions, k) + OfKey(k)(inv) == Lookup(c.partitions, k) {
      }
      forall k: string ensures EventWeight(events[1..], OfKey(k)) <= Lookup(c'.partitions, k) {
        assert EventWeight(events, OfKey(k)) <= Lookup(c.partitions, k);
      }
    }
  }

  lemma {:induction false} DecrementAllLowers(o: Options, c: Counters, events: seq<Event>)
    requires Covers(o, c, events)
    ensures Lowers(o, c, events, DecrementAll(o, c, events))
    decreases |events|
  {
    if events != [] {
      var c' := Decrement(o, c, events[0].inv);
      DecrementLowers(o, c, events);
      DecrementAllLowers(o, c', events[1..]);
      var c'' := DecrementAll(o, c', events[1..]);
      if o.maxPerActor > 0 {
        forall a: string ensures Lookup(c''.actors, a) + EventWeight(events, OfActor(a)) == Lookup(c.actors, a) {
          assert Lookup(c''.actors, a) + EventWeight(events[1..], OfActor(a)) == Lookup(c'.actors, a);
        }
      }
      if o.maxPerPartition > 0 {
        forall k: string ensures Lookup(c''.partitions, k) + EventWeight(events, OfKey(k)) == Lookup(c.partitions, k) {
          assert Lookup(c''.partitions, k) + EventWeight(events[1..], OfKey(k)) == Lookup(c'.partitions, k);
        }
      }
    }
  }

  lemma {:induction false} LoweredWithin(o: Options, c: Counters, events: seq<Event>)
    requires WithinLimits(o, c)
    ensures WithinLimits(o, DecrementAll(o, c, events))
    decreases |events|
  {
    if events != [] {
      LoweredWithin(o, Decrement(o, c, events[0].inv), events[1..]);
    }
  }

  // ----- one section, component by component -----

  /** A section that replaced `b` by `b'` conserves every weight. */
  ghost predicate Conserving(b: Box, b': Box, events: seq<Event>, st: Step) {
    && (forall w: Weigh :: Weight(b'.mb, w) + EventWeight(events, w) == Weight(b.mb, w) + Incoming(st, w))
    && Finished(b'.mb.totals) == Finished(b.mb.totals) + |events|
  }

  lemma StepConserving(b: Box, st: Step, now: nat, f: Flags)
    requires BoxInv(b, f)
    ensures Conserving(b, Apply(b, st, now), Section(b.mb, st, now).events, st)
  {
    ApplySection(b, st, now);
    StepConserves(b.mb, st, now, One());
    forall w: Weigh
      ensures Weight(Apply(b, st, now).mb, w) + EventWeight(Section(b.mb, st, now).events, w)
              == Weight(b.mb, w) + Incoming(st, w)
    {
      StepConserves(b.mb, st, now, w);
    }
  }

  /** What the sum over all mailboxes loses is what the section's events take out. */
  lemma SectionSum(boxes: seq<Box>, i: nat, b': Box, events: seq<Event>, st: Step, w: Weigh)
    requires i < |boxes| && Conserving(boxes[i], b', events, st)
    ensures SumWeight(boxes[i := b'], w) + EventWeight(events, w) == SumWeight(boxes, w) + Incoming(st, w)
  {
    assert Weight(b'.mb, w) + EventWeight(events, w) == Weight(boxes[i].mb, w) + Incoming(st, w);
    SumUpdate(boxes, i, b', w);
  }

  ghost predicate ExactAhead(boxes: seq<Box>, log: seq<Event>, accepted: nat, st: Step) {
    forall n: nat :: EventWeight(log, IsId(n)) + SumWeight(boxes, IsId(n)) + Incoming(st, IsId(n))
                     == if n < accepted then 1 else 0
  }

  lemma SectionExact(boxes: seq<Box>, i: nat, b': Box, events: seq<Event>, st: Step, log: seq<Event>, accepted: nat)
    requires i < |boxes| && Conserving(boxes[i], b', events, st) && ExactAhead(boxes, log, accepted, st)
    ensures ExactlyOnce(boxes[i := b'], log + events, accepted)
  {
    forall n: nat
      ensures EventWeight(log + events, IsId(n)) + SumWeight(boxes[i := b'], IsId(n)) == if n < accepted then 1 else 0
    {
      SectionSum(boxes, i, b', events, st, IsId(n));
      EventAppend(log, events, IsId(n));
      assert EventWeight(log, IsId(n)) + SumWeight(boxes, IsId(n)) + Incoming(st, IsId(n)) == if n < accepted then 1 else 0;
    }
  }

  /** The counters before a section count the mailboxes and what is just coming in. */
  ghost predicate CountersAhead(o: Options, c: Counters, boxes: seq<Box>, st: Step) {
    && c.total == SumWeight(boxes, One()) + Incoming(st, One())
    && (o.maxPerActor > 0 ==>
          forall a: string :: Lookup(c.actors, a) == SumWeight(boxes, OfActor(a)) + Incoming(st, OfActor(a)))
    && (o.maxPerPartition > 0 ==>
          forall k: string :: Lookup(c.partitions, k) == SumWeight(boxes, OfKey(k)) + Incoming(st, OfKey(k)))
  }

  lemma SectionCounters(boxes: seq<Box>, i: nat, b': Box, events: seq<Event>, st: Step, o: Options, c: Counters)
    requires i < |boxes| && Conserving(boxes[i], b', events, st) && CountersAhead(o, c, boxes, st)
    ensures CountersExact(o, DecrementAll(o, c, events), boxes[i := b'])
    ensures DecrementAll(o, c, events).total + |events| == c.total
  {
    var boxes' := boxes[i := b'];
    forall w: Weigh
      ensures SumWeight(boxes', w) + EventWeight(events, w) == SumWeight(boxes, w) + Incoming(st, w)
    {
      SectionSum(boxes, i, b', events, st, w);
    }
    EventCount(events);
    if o.maxPerActor > 0 {
      forall a: string ensures EventWeight(events, OfActor(a)) <= Lookup(c.actors, a) {
        assert SumWeight(boxes', OfActor(a)) + EventWeight(events, OfActor(a)) == Lookup(c.actors, a);
      }
    }
    if o.maxPerPartition > 0 {
      forall k: string ensures EventWeight(events, OfKey(k)) <= Lookup(c.partitions, k) {
        assert SumWeight(boxes', OfKey(k)) + EventWeight(events, OfKey(k)) == Lookup(c.partitions, k);
      }
    }
    assert Covers(o, c, events);
    DecrementAllLowers(o, c, events);
    var c' := DecrementAll(o, c, events);
    if o.maxPerActor > 0 {
      forall a: string ensures Lookup(c'.actors, a) == SumWeight(boxes', OfActor(a)) {
        assert Lookup(c'.actors, a) + EventWeight(events, OfActor(a)) == Lookup(c.actors, a);
        assert SumWeight(boxes', OfActor(a)) + EventWeight(events, OfActor(a)) == Lookup(c.actors, a);
      }
    }
    if o.maxPerPartition > 0 {
      forall k: string ensures Lookup(c'.partitions, k) == SumWeight(boxes', OfKey(k)) {
        assert Lookup(c'.partitions, k) + EventWeight(events, OfKey(k)) == Lookup(c.partitions, k);
        assert SumWeight(boxes', OfKey(k)) + EventWeight(events, OfKey(k)) == Lookup(c.partitions, k);
      }
    }
  }

  lemma SectionKeyed(boxes: seq<Box>, i: nat, b': Box, events: seq<Event>, st: Step)
    requires i < |boxes| && Conserving(boxes[i], b', events, st) && Keyed(boxes) && b'.key == boxes[i].key
    requires st.Enqueue? ==> st.inv.key == boxes[i].key
    ensures Keyed(boxes[i := b'])
  {
    assert Weight(b'.mb, NotOfKey(b'.key)) + EventWeight(events, NotOfKey(b'.key))
           == Weight(boxes[i].mb, NotOfKey(b'.key)) + Incoming(st, NotOfKey(b'.key));
  }

  lemma {:induction false} KeyOfQueued(p: seq<Invocation>, key: string, x: Invocation)
    requires QueueWeight(p, NotOfKey(key)) == 0 && x in p
    ensures x.key == key
  {
    if x != p[0] {
      KeyOfQueued(p[1..], key, x);
    }
  }

  /** A mailbox that another key reclaimed and re-created waits for nothing. */
  lemma OtherBoxIsEmpty(boxes: seq<Box>, table: map<string, nat>, i: nat, j: nat)
    requires TableOk(boxes, table) && i < |boxes| && j < |boxes| && i != j && boxes[i].key == boxes[j].key
    requires !boxes[i].retired
    ensures boxes[j].mb.pending == []
  {
  }

  /** Before the section: an invocation that is just coming in is newer than all activations. */
  ghost predicate OrderAhead(boxes: seq<Box>, table: map<string, nat>, i: nat, st: Step, acts: seq<Invocation>,
                             accepted: nat)
  {
    && i < |boxes| && TableOk(boxes, table) && Keyed(boxes) && !boxes[i].retired
    && InOrder(boxes, acts, if st.Enqueue? then st.inv.id else accepted)
    && (st.Enqueue? ==> st.inv.key == boxes[i].key && st.inv.id < accepted)
    && (forall x | x in boxes[i].mb.pending :: x.id < accepted)
  }

  lemma SectionInOrder(boxes: seq<Box>, table: map<string, nat>, i: nat, st: Step, b': Box,
                       acts: seq<Invocation>, accepted: nat)
    requires OrderAhead(boxes, table, i, st, acts, accepted)
    requires b'.key == boxes[i].key && Sourced(boxes[i].mb, st, b'.mb)
    requires OrderInv(b'.mb.pending, ActiveId(b'.mb))
    ensures InOrder(boxes[i := b'], Activated(boxes[i].mb, b'.mb, acts), accepted)
  {
    var boxes' := boxes[i := b'];
    forall p, j | 0 <= p < |acts| && 0 <= j < |boxes'| && acts[p].key == boxes'[j].key
      ensures Behind(boxes'[j].mb, acts[p].id)
    {
      assert Behind(boxes[j].mb, acts[p].id);
    }
    assert InOrder(boxes', acts, accepted);
    if b'.mb.generation != boxes[i].mb.generation && b'.mb.active.Some? {
      ActivatedInOrder(boxes, table, i, st, b', acts, accepted);
    }
  }

  /** The newly active invocation comes after all earlier ones of its key and before everything that still waits. */
  lemma ActivatedInOrder(boxes: seq<Box>, table: map<string, nat>, i: nat, st: Step, b': Box,
                         acts: seq<Invocation>, accepted: nat)
    requires OrderAhead(boxes, table, i, st, acts, accepted)
    requires b'.key == boxes[i].key && Sourced(boxes[i].mb, st, b'.mb)
    requires OrderInv(b'.mb.pending, ActiveId(b'.mb))
    requires b'.mb.generation != boxes[i].mb.generation && b'.mb.active.Some?
    ensures var inv := b'.mb.active.value.inv;
            && inv.key == boxes[i].key && inv.id < accepted
            && (forall p | 0 <= p < |acts| && acts[p].key == inv.key :: acts[p].id < inv.id)
            && (forall j | 0 <= j < |boxes| && boxes[j].key == inv.key :: Behind(boxes[i := b'][j].mb, inv.id))
  {
    var b := boxes[i];
    var inv := b'.mb.active.value.inv;
    if inv in b.mb.pending {
      KeyOfQueued(b.mb.pending, b.key, inv);
      forall p | 0 <= p < |acts| && acts[p].key == inv.key ensures acts[p].id < inv.id {
        assert Behind(boxes[i].mb, acts[p].id);
      }
    }
    forall j | 0 <= j < |boxes| && boxes[j].key == inv.key
      ensures Behind(boxes[i := b'][j].mb, inv.id)
    {
      if j != i {
        OtherBoxIsEmpty(boxes, table, i, j);
      }
    }
  }

  /** Nothing happens to a reclaimed mailbox any more. */
  lemma RetiredUntouched(b: Box, st: Step, now: nat, f: Flags)
    requires BoxInv(b, f) && Enabled(b, st, f) && IsInternal(st) && Reclaimable(b.mb)
    ensures Section(b.mb, st, now).mb == b.mb && Section(b.mb, st, now).events == []
  {
    assert b.runners == multiset{};
  }

  lemma {:induction false} LiveFinishedUpdate(boxes: seq<Box>, i: nat, b: Box)
    requires i < |boxes| && b.retired == boxes[i].retired
    ensures Finished(LiveTotals(boxes[i := b])) + (if b.retired then 0 else Finished(boxes[i].mb.totals))
            == Finished(LiveTotals(boxes)) + (if b.retired then 0 else Finished(b.mb.totals))
  {
    if i == 0 {
      assert boxes[i := b][1..] == boxes[1..];
    } else {
      assert boxes[i := b][1..] == boxes[1..][i - 1 := b];
      LiveFinishedUpdate(boxes[1..], i - 1, b);
    }
  }

  // ----- one section on the whole state -----

  /** The invariant just before a section; `enqueue` has then already counted its invocation. */
  ghost predicate Ahead(s: State, i: nat, st: Step) {
    && i < |s.boxes|
    && BoxesOk(s.boxes, s.flags)
    && TableOk(s.boxes, s.table)
    && ExactAhead(s.boxes, s.log, s.accepted, st)
    && CountersAhead(s.options, s.counters, s.boxes, st)
    && WithinLimits(s.options, s.counters)
    && Keyed(s.boxes)
    && InOrder(s.boxes, s.activations, if st.Enqueue? then st.inv.id else s.accepted)
    && Balanced(s)
    && (st.Enqueue? ==> st.inv.key == s.boxes[i].key && st.inv.id + 1 == s.accepted && !s.boxes[i].retired)
  }

  /** Everything but the phase. */
  ghost predicate Core(s: State) {
    && BoxesOk(s.boxes, s.flags)
    && TableOk(s.boxes, s.table)
    && ExactlyOnce(s.boxes, s.log, s.accepted)
    && CountersExact(s.options, s.counters, s.boxes)
    && WithinLimits(s.options, s.counters)
    && Keyed(s.boxes)
    && InOrder(s.boxes, s.activations, s.accepted)
    && Balanced(s)
  }

  lemma CoreAhead(s: State, i: nat, st: Step)
    requires Core(s) && i < |s.boxes| && !st.Enqueue?
    ensures Ahead(s, i, st)
  {
    forall n: nat
      ensures EventWeight(s.log, IsId(n)) + SumWeight(s.boxes, IsId(n)) + Incoming(st, IsId(n))
              == if n < s.accepted then 1 else 0
    {
      assert EventWeight(s.log, IsId(n)) + SumWeight(s.boxes, IsId(n)) == if n < s.accepted then 1 else 0;
    }
    if s.options.maxPerActor > 0 {
      forall a: string
        ensures Lookup(s.counters.actors, a) == SumWeight(s.boxes, OfActor(a)) + Incoming(st, OfActor(a))
      {
        assert Lookup(s.counters.actors, a) == SumWeight(s.boxes, OfActor(a));
      }
    }
    if s.options.maxPerPartition > 0 {
      forall k: string
        ensures Lookup(s.counters.partitions, k) == SumWeight(s.boxes, OfKey(k)) + Incoming(st, OfKey(k))
      {
        assert Lookup(s.counters.partitions, k) == SumWeight(s.boxes, OfKey(k));
      }
    }
  }

  lemma InMailbox(boxes: seq<Box>, i: nat, x: Invocation)
    requires i < |boxes|
    requires x in boxes[i].mb.pending || (boxes[i].mb.active.Some? && x == boxes[i].mb.active.value.inv)
    ensures SumWeight(boxes, IsId(x.id)) >= 1
  {
    SumAtLeast(boxes, i, IsId(x.id));
    if x in boxes[i].mb.pending {
      var n :| 0 <= n < |boxes[i].mb.pending| && boxes[i].mb.pending[n] == x;
      QueueAtLeast(boxes[i].mb.pending, n, IsId(x.id));
    }
  }

  /** Whatever a mailbox holds was admitted, and before an invocation that is just coming in. */
  lemma Admitted(s: State, i: nat, st: Step, x: Invocation)
    requires Ahead(s, i, st)
    requires x in s.boxes[i].mb.pending || (s.boxes[i].mb.active.Some? && x == s.boxes[i].mb.active.value.inv)
    ensures x.id < s.accepted && (st.Enqueue? ==> x.id < st.inv.id)
  {
    InMailbox(s.boxes, i, x);
    assert EventWeight(s.log, IsId(x.id)) + SumWeight(s.boxes, IsId(x.id)) + Incoming(st, IsId(x.id))
           == if x.id < s.accepted then 1 else 0;
  }

  lemma PerformBox(s: State, i: nat, st: Step, now: nat)
    requires Ahead(s, i, st) && Enabled(s.boxes[i], st, s.flags)
    requires st.Refuse? ==> !TicketCurrent(s.boxes[i].mb, st.gen)
    ensures BoxInv(Apply(s.boxes[i], st, now), s.flags)
  {
    if st.Enqueue? {
      forall n | 0 <= n < |s.boxes[i].mb.pending| ensures s.boxes[i].mb.pending[n].id < st.inv.id {
        Admitted(s, i, st, s.boxes[i].mb.pending[n]);
      }
      if s.boxes[i].mb.active.Some? {
        Admitted(s, i, st, s.boxes[i].mb.active.value.inv);
      }
    }
    StepKeeps(s.boxes[i], st, now, s.flags);
  }

  /** What a step makes of one mailbox, as far as the other parts of the invariant need it. */
  ghost predicate Stepped(b: Box, b': Box, events: seq<Event>, st: Step) {
    && Conserving(b, b', events, st)
    && Sourced(b.mb, st, b'.mb)
    && b'.key == b.key && b'.retired == b.retired
    && OrderInv(b'.mb.pending, ActiveId(b'.mb))
    && (b.retired ==> b'.mb == b.mb && events == [] && !st.Enqueue?)
  }

  lemma StepStepped(b: Box, st: Step, now: nat, f: Flags)
    requires BoxInv(b, f) && Enabled(b, st, f) && BoxInv(Apply(b, st, now), f)
    requires b.retired ==> IsInternal(st) && Reclaimable(b.mb)
    ensures Stepped(b, Apply(b, st, now), Section(b.mb, st, now).events, st)
  {
    StepConserving(b, st, now, f);
    ApplySection(b, st, now);
    StepSourced(b.mb, st, now);
    if b.retired {
      RetiredUntouched(b, st, now, f);
    }
  }

  lemma SettledOrder(s: State, i: nat, st: Step, b': Box, events: seq<Event>)
    requires Ahead(s, i, st) && Stepped(s.boxes[i], b', events, st)
    ensures InOrder(s.boxes[i := b'], Activated(s.boxes[i].mb, b'.mb, s.activations), s.accepted)
  {
    if !s.boxes[i].retired {
      forall x | x in s.boxes[i].mb.pending ensures x.id < s.accepted {
        Admitted(s, i, st, x);
      }
      SectionInOrder(s.boxes, s.table, i, st, b', s.activations, s.accepted);
    } else {
      RetiredOrder(s.boxes, i, b', s.activations, s.accepted);
    }
  }

  lemma RetiredOrder(boxes: seq<Box>, i: nat, b': Box, acts: seq<Invocation>, accepted: nat)
    requires i < |boxes| && b'.mb == boxes[i].mb && b'.key == boxes[i].key && InOrder(boxes, acts, accepted)
    ensures InOrder(boxes[i := b'], acts, accepted)
  {
    var boxes' := boxes[i := b'];
    forall p, j | 0 <= p < |acts| && 0 <= j < |boxes'| && acts[p].key == boxes'[j].key
      ensures Behind(boxes'[j].mb, acts[p].id)
    {
      assert Behind(boxes[j].mb, acts[p].id);
    }
  }

  lemma SettledTable(boxes: seq<Box>, table: map<string, nat>, i: nat, b': Box)
    requires TableOk(boxes, table) && i < |boxes| && b'.key == boxes[i].key && b'.retired == boxes[i].retired
    requires b'.retired ==> b'.mb == boxes[i].mb
    ensures TableOk(boxes[i := b'], table)
  {
  }

  lemma SettledBalanced(s: State, i: nat, st: Step, b': Box, events: seq<Event>)
    requires Ahead(s, i, st) && Stepped(s.boxes[i], b', events, st)
    requires DecrementAll(s.options, s.counters, events).total + |events| == s.counters.total
    ensures Balanced(Settled(s, i, b', events))
  {
    LiveFinishedUpdate(s.boxes, i, b');
  }

  /** The log, the counters and their limits after a section. */
  lemma SettledSums(s: State, i: nat, st: Step, b': Box, events: seq<Event>)
    requires Ahead(s, i, st) && Stepped(s.boxes[i], b', events, st)
    ensures var s' := Settled(s, i, b', events);
            && ExactlyOnce(s'.boxes, s'.log, s'.accepted)
            && CountersExact(s'.options, s'.counters, s'.boxes)
            && WithinLimits(s'.options, s'.counters)
            && Balanced(s')
  {
    SectionExact(s.boxes, i, b', events, st, s.log, s.accepted);
    SectionCounters(s.boxes, i, b', events, st, s.options, s.counters);
    LoweredWithin(s.options, s.counters, events);
    SettledBalanced(s, i, st, b', events);
  }

  lemma ReplacedBox(boxes: seq<Box>, i: nat, b': Box, f: Flags)
    requires BoxesOk(boxes, f) && i < |boxes| && BoxInv(b', f)
    ensures BoxesOk(boxes[i := b'], f)
  {
    var boxes' := boxes[i := b'];
    forall j | 0 <= j < |boxes'| ensures BoxInv(boxes'[j], f) {
      assert boxes'[j] == if j == i then b' else boxes[j];
    }
  }

  /** The mailboxes, their table and the order of the activations after a section. */
  lemma SettledBoxes(s: State, i: nat, st: Step, b': Box, events: seq<Event>)
    requires Ahead(s, i, st) && Stepped(s.boxes[i], b', events, st) && BoxInv(b', s.flags)
    ensures var s' := Settled(s, i, b', events);
            && BoxesOk(s'.boxes, s'.flags)
            && TableOk(s'.boxes, s'.table)
            && Keyed(s'.boxes)
            && InOrder(s'.boxes, s'.activations, s'.accepted)
  {
    ReplacedBox(s.boxes, i, b', s.flags);
    SectionKeyed(s.boxes, i, b', events, st);
    SettledOrder(s, i, st, b', events);
    SettledTable(s.boxes, s.table, i, b');
  }

  lemma SettledKeeps(s: State, i: nat, st: Step, b': Box, events: seq<Event>)
    requires Ahead(s, i, st) && Stepped(s.boxes[i], b', events, st) && BoxInv(b', s.flags)
    ensures Core(Settled(s, i, b', events))
  {
    SettledSums(s, i, st, b', events);
    SettledBoxes(s, i, st, b', events);
  }

  /** A section keeps the invariant. */
  lemma PerformKeeps(s: State, i: nat, st: Step, now: nat)
    requires Ahead(s, i, st) && Enabled(s.boxes[i], st, s.flags)
    requires st.Refuse? ==> !TicketCurrent(s.boxes[i].mb, st.gen)
    requires s.boxes[i].retired ==> IsInternal(st)
    ensures Core(Perform(s, i, st, now))
  {
    PerformBox(s, i, st, now);
    StepStepped(s.boxes[i], st, now, s.flags);
    SettledKeeps(s, i, st, Apply(s.boxes[i], st, now), Section(s.boxes[i].mb, st, now).events);
  }
}
