/**
 The actor scheduler as a state machine: every critical section under the scheduler or mailbox mutex is one step, and
 steps interleave freely. The scheduler mutex is held throughout the cancelling sweep, which disables the steps that
 need it.
 */
module Scheduler {
  import opened Metrics
  import opened Mailboxes
  import opened Boxes

  /** The pending limits (0: unlimited) and the sharing policy. */
  datatype Options = Options(maxTasks: nat, maxPerActor: nat, maxPerPartition: nat, sharing: bool)

  /** `pending_tasks` and the per-actor and per-mailbox-key counters, which exist only under a positive limit. */
  datatype Counters = Counters(total: nat, actors: map<string, nat>, partitions: map<string, nat>)

  const NoCounters := Counters(0, map[], map[])

  function MailboxKey(actor: string, partition: string): string {
    actor + ":" + if partition == "" then "global" else partition
  }

  function Lookup(m: map<string, nat>, k: string): nat {
    if k in m then m[k] else 0
  }

  predicate LimitExceeded(o: Options, c: Counters, actor: string, key: string) {
    || (o.maxTasks > 0 && c.total >= o.maxTasks)
    || (o.maxPerActor > 0 && actor in c.actors && c.actors[actor] >= o.maxPerActor)
    || (o.maxPerPartition > 0 && key in c.partitions && c.partitions[key] >= o.maxPerPartition)
  }

  function Increment(o: Options, c: Counters, actor: string, key: string): Counters {
    Counters(
      c.total + 1,
      if o.maxPerActor > 0 then c.actors[actor := Lookup(c.actors, actor) + 1] else c.actors,
      if o.maxPerPartition > 0 then c.partitions[key := Lookup(c.partitions, key) + 1] else c.partitions)
  }

  /** `Lowered` never meets zero in a reachable state (`CountersExact`). */
  function Lowered(n: nat): nat {
    if n == 0 then 0 else n - 1
  }

  function Decrement(o: Options, c: Counters, inv: Invocation): Counters {
    Counters(
      Lowered(c.total),
      if o.maxPerActor > 0 && inv.actor in c.actors
      then c.actors[inv.actor := Lowered(c.actors[inv.actor])] else c.actors,
      if o.maxPerPartition > 0 && inv.key in c.partitions
      then c.partitions[inv.key := Lowered(c.partitions[inv.key])] else c.partitions)
  }

  function DecrementAll(o: Options, c: Counters, events: seq<Event>): Counters
    decreases |events|
  {
    if events == [] then c else DecrementAll(o, Decrement(o, c, events[0].inv), events[1..])
  }

  /** How far a shutdown has come; `todo` are the mailboxes that the sweep has not reached. */
  datatype Phase = Open | Draining | Sweeping(todo: set<nat>) | Joining | Stopped

  /**
   `table` is the map from keys to live mailboxes; reclaimed mailboxes stay in `boxes`, because tickets and
   notifications may still refer to them. `log` records every completion event of an admitted invocation and
   `activations` every invocation that became active.
   */
  datatype State = State(options: Options, boxes: seq<Box>, table: map<string, nat>, counters: Counters,
                         actors: set<string>, flags: Flags, phase: Phase, accepted: nat, rejected: nat,
                         retired: Totals, log: seq<Event>, activations: seq<Invocation>)

  function Init(o: Options): State {
    State(o, [], map[], NoCounters, {}, Flags(false, false), Open, 0, 0, NoTotals, [], [])
  }

  datatype Action =
    | Register(actor: string)
    | Submit(actor: string, partition: string, messageId: string, now: nat)
    | CancelRequest(actor: string, partition: string, messageId: string, v: View, now: nat)
    | Internal(i: nat, s: Step, now: nat)
    | Reclaim(i: nat)
    | BeginDrain
    | BeginCancel
    | SweepOne(i: nat, now: nat)
    | EndSweep
    | Drained
    | Joined

  /** The steps that workers and I/O completions take on a mailbox without the scheduler mutex. */
  predicate IsInternal(s: Step) {
    !s.Enqueue? && !s.CancelMessage? && !s.SweepMailbox?
  }

  /** An executor refuses work only once its shutdown has been requested. */
  predicate MayRefuse(p: Phase) {
    p.Joining? || p.Stopped?
  }

  predicate LockFree(p: Phase) {
    !p.Sweeping?
  }

  ghost predicate Guard(s: State, a: Action) {
    match a
    case Register(_) => LockFree(s.phase)
    case Submit(_, _, _, _) => LockFree(s.phase)
    case CancelRequest(actor, partition, _, v, _) =>
      && LockFree(s.phase)
      && (var key := MailboxKey(actor, partition);
          key in s.table && s.table[key] < |s.boxes| ==>
            ViewOk(v, s.flags, s.boxes[s.table[key]].swept))
    case Internal(i, st, _) =>
      && i < |s.boxes| && IsInternal(st) && Enabled(s.boxes[i], st, s.flags)
      && (st.Refuse? ==> MayRefuse(s.phase))
      && (st.Resumed? ==> st.sharing == s.options.sharing)
      && (st.Take? ==> s.phase != Stopped)
    case Reclaim(i) => i < |s.boxes| && LockFree(s.phase)
    case BeginDrain => s.phase.Open?
    case BeginCancel => s.phase.Open?
    case SweepOne(i, _) => s.phase.Sweeping? && i in s.phase.todo && i < |s.boxes|
    case EndSweep => s.phase == Sweeping({})
    case Drained => s.phase.Draining? && s.counters.total == 0
    case Joined =>
      s.phase.Joining? && forall j | 0 <= j < |s.boxes| :: s.boxes[j].runners == multiset{} && s.boxes[j].owners == multiset{}
  }

  /** Records that an invocation became active. */
  function Activated(m: Mailbox, m': Mailbox, activations: seq<Invocation>): seq<Invocation> {
    if m'.generation != m.generation && m'.active.Some? then activations + [m'.active.value.inv] else activations
  }

  /** Replaces one mailbox and settles the completion events that came with it. */
  function Settled(s: State, i: nat, b': Box, events: seq<Event>): State
    requires i < |s.boxes|
  {
    s.(boxes := s.boxes[i := b'],
       counters := DecrementAll(s.options, s.counters, events),
       log := s.log + events,
       activations := Activated(s.boxes[i].mb, b'.mb, s.activations))
  }

  /** Executes one section on one mailbox. */
  function Perform(s: State, i: nat, st: Step, now: nat): State
    requires i < |s.boxes|
  {
    Settled(s, i, Apply(s.boxes[i], st, now), Section(s.boxes[i].mb, st, now).events)
  }

  /** `enqueue` up to the point at which the mailbox mutex is taken. */
  function Admit(s: State, key: string): State {
    if key in s.table then s else s.(boxes := s.boxes + [FreshBox(key)], table := s.table[key := |s.boxes|])
  }

  function SubmitStep(s: State, actor: string, partition: string, messageId: string, now: nat): State {
    var key := MailboxKey(actor, partition);
    if s.flags.stopping || LimitExceeded(s.options, s.counters, actor, key) then s.(rejected := s.rejected + 1)
    else
      var inv := Invocation(s.accepted, actor, key, messageId, actor in s.actors, now);
      var s' := Admit(s.(accepted := s.accepted + 1, counters := Increment(s.options, s.counters, actor, key)), key);
      if s'.table[key] < |s'.boxes| then Perform(s', s'.table[key], Enqueue(inv), now) else s'
  }

  function CancelStep(s: State, actor: string, partition: string, messageId: string, v: View, now: nat): State {
    var key := MailboxKey(actor, partition);
    if key in s.table && s.table[key] < |s.boxes|
    then Perform(s, s.table[key], CancelMessage(messageId, v), now) else s
  }

  /** `reclaim_idle_mailbox`. */
  function ReclaimStep(s: State, i: nat): State
    requires i < |s.boxes|
  {
    var b := s.boxes[i];
    if b.key !in s.table || s.table[b.key] != i || !Reclaimable(b.mb) then s
    else
      s.(boxes := s.boxes[i := b.(retired := true)],
         table := s.table - {b.key},
         retired := Merge(s.retired, b.mb.totals),
         counters := if b.key in s.counters.partitions && s.counters.partitions[b.key] == 0
                     then s.counters.(partitions := s.counters.partitions - {b.key}) else s.counters)
  }

  function LiveBoxes(s: State): set<nat> {
    set k | k in s.table :: s.table[k]
  }

  function Next(s: State, a: Action): State
    requires Guard(s, a)
  {
    match a
    case Register(actor) => s.(actors := s.actors + {actor})
    case Submit(actor, partition, messageId, now) => SubmitStep(s, actor, partition, messageId, now)
    case CancelRequest(actor, partition, messageId, v, now) => CancelStep(s, actor, partition, messageId, v, now)
    case Internal(i, st, now) => Perform(s, i, st, now)
    case Reclaim(i) => ReclaimStep(s, i)
    case BeginDrain => s.(flags := Flags(true, false), phase := Draining)
    case BeginCancel => s.(flags := Flags(true, true), phase := Sweeping(LiveBoxes(s)))
    case SweepOne(i, now) => Perform(s, i, SweepMailbox, now).(phase := Sweeping(s.phase.todo - {i}))
    case EndSweep => s.(phase := Joining)
    case Drained => s.(phase := Joining)
    case Joined => s.(phase := Stopped)
  }

  /** `metrics()`: what live mailboxes and retired ones have accumulated. */
  function LiveTotals(boxes: seq<Box>): Totals {
    if boxes == [] then NoTotals
    else Merge(if boxes[0].retired then NoTotals else boxes[0].mb.totals, LiveTotals(boxes[1..]))
  }

  function Reported(s: State): Totals {
    Merge(s.retired, LiveTotals(s.boxes))
  }

  // ----- runs -----

  /** A finite run: states linked by guarded actions, starting before anything was registered or admitted. */
  ghost predicate IsRun(o: Options, states: seq<State>, actions: seq<Action>) {
    && |states| == |actions| + 1
    && states[0] == Init(o)
    && forall n | 0 <= n < |actions| :: Guard(states[n], actions[n]) && states[n + 1] == Next(states[n], actions[n])
  }
}
