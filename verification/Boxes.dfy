/**
 One mailbox together with everything in flight for it: schedule tickets, the worker inside its resume, the worker
 that holds the idle claim, and the I/O operations of its tasks. `BoxInv` is the invariant of the protocol.
 */
module Boxes {
  import opened Wrappers
  import opened Metrics
  import opened Mailboxes

  /** A worker between the two sections of `run_mailbox`; `began` says that its actor task began an I/O epoch in this resume. */
  datatype Runner = Starting(gen: nat) | Resuming(gen: nat, began: bool)

  /**
   `begun` counts the I/O epochs of the current task, `done` holds the (generation, epoch) pairs whose operation
   left the Pending phase by completing, `notices` those whose call of `on_external_ready` is still to come.
   `swept` says that the cancelling shutdown has passed this mailbox, `retired` that it was reclaimed.
   */
  datatype Box = Box(key: string, mb: Mailbox, tickets: multiset<nat>, runners: multiset<Runner>,
                     owners: multiset<nat>, begun: nat, done: set<(nat, nat)>, notices: set<(nat, nat)>, swept: bool,
                     retired: bool)

  function FreshBox(key: string): Box {
    Box(key, Fresh, multiset{}, multiset{}, multiset{}, 0, {}, {}, false, false)
  }

  datatype Flags = Flags(stopping: bool, cancelling: bool)

  /** A section on a swept mailbox sees both flags; nobody sees a flag before it is set. */
  predicate ViewOk(v: View, f: Flags, swept: bool) {
    && (v.stopping ==> f.stopping)
    && (v.cancelAfter.Some? ==> f.cancelling && v.stopping)
    && (swept ==> v == View(true, Some(0)))
  }

  predicate SawOk(sawCancel: bool, f: Flags, v: View, swept: bool) {
    && (sawCancel ==> f.cancelling && v == View(true, Some(0)))
    && (swept ==> sawCancel)
  }

  /** The operation of this epoch has completed and its notification has been handled. */
  predicate Delivered(gen: nat, done: set<(nat, nat)>, notices: set<(nat, nat)>, epoch: nat) {
    (gen, epoch) in done && (gen, epoch) !in notices
  }

  ghost predicate DeliveredTo(gen: nat, done: set<(nat, nat)>, notices: set<(nat, nat)>, last: int) {
    forall e: nat | 1 <= e <= last :: Delivered(gen, done, notices, e)
  }

  predicate HasActive(s: Status) {
    s == Runnable || s == Running || s == Suspended
  }

  predicate StatusInv(m: Mailbox, swept: bool, f: Flags) {
    && (m.active.Some? <==> HasActive(m.status))
    && (m.active.Some? ==> m.active.value.gen == m.generation && m.generation >= 1 && m.active.value.inv.registered)
    && (m.status == Idle && !m.claimed ==> m.pending == [])
    && (m.status == Stopping ==> f.stopping && (m.pending == [] || (f.cancelling && !swept)))
    && Finished(m.totals) == m.totals.latency.count
    && (f.cancelling ==> f.stopping)
    && (swept ==> f.cancelling && m.pending == [] && !m.claimed
                    && (m.status == Stopping || (m.status == Running && m.active.value.cancelAfterResume)))
  }

  /** Every generation has at most one ticket, and the current one has a ticket exactly while it is Runnable. */
  ghost predicate TicketInv(tickets: multiset<nat>, generation: nat, status: Status) {
    && (forall t | t in tickets :: 1 <= t <= generation && tickets[t] == 1)
    && (status == Runnable ==> generation in tickets)
    && (status == Running || status == Suspended ==> generation !in tickets)
  }

  predicate RunnerInv(runners: multiset<Runner>, status: Status, generation: nat, taskValid: bool) {
    if status != Running then runners == multiset{}
    else if !taskValid then runners == multiset{Starting(generation)}
    else runners == multiset{Resuming(generation, false)} || runners == multiset{Resuming(generation, true)}
  }

  ghost predicate OwnerInv(owners: multiset<nat>, claimed: bool, status: Status, swept: bool) {
    && |owners| <= 1
    && (claimed ==> status == Idle && |owners| == 1)
    && (owners != multiset{} && !claimed ==> swept)
    && (forall a | a in owners :: a < MAX_IDLE_HANDOFF_YIELDS)
  }

  /** Every epoch begun so far has been delivered and none is waiting in the `ready` slot. */
  ghost predicate Caught(gen: nat, done: set<(nat, nat)>, notices: set<(nat, nat)>, begun: nat, a: Active) {
    DeliveredTo(gen, done, notices, begun) && a.ready == 0
  }

  /** All but the latest epoch have been delivered, and that one is noted in the slot once it is. */
  ghost predicate InFlight(gen: nat, done: set<(nat, nat)>, notices: set<(nat, nat)>, begun: nat, a: Active,
                           cancelling: bool)
  {
    && begun >= 1 && a.completed < begun
    && DeliveredTo(gen, done, notices, begun - 1)
    && (a.ready == 0 || (a.ready == begun && Delivered(gen, done, notices, begun)))
    && (Delivered(gen, done, notices, begun) && a.ready == 0 ==> cancelling)
  }

  /** The I/O part for the active invocation `a`. */
  ghost predicate EpochInv(gen: nat, status: Status, began: bool, done: set<(nat, nat)>, notices: set<(nat, nat)>,
                           begun: nat, a: Active, cancelling: bool)
  {
    && (status == Runnable || (status == Running && !began) ==> Caught(gen, done, notices, begun, a))
    && (status == Suspended || (status == Running && began) ==> InFlight(gen, done, notices, begun, a, cancelling))
    && (status == Suspended ==> a.taskEpoch == begun && a.ready == 0)
    && a.completed <= begun && a.taskEpoch <= begun
    && (!a.taskValid ==> begun == 0)
  }

  predicate Began(runners: multiset<Runner>, gen: nat) {
    Resuming(gen, true) in runners
  }

  ghost predicate OpInv(generation: nat, done: set<(nat, nat)>, notices: set<(nat, nat)>) {
    && notices <= done
    && (forall op | op in done :: 1 <= op.0 <= generation && op.1 >= 1)
  }

  ghost predicate CurrentOps(generation: nat, done: set<(nat, nat)>, begun: nat) {
    forall op | op in done && op.0 == generation :: op.1 <= begun
  }

  /** Queued invocations wait in admission order, behind the active one. */
  ghost predicate OrderInv(pending: seq<Invocation>, first: Option<nat>) {
    && (forall i, j | 0 <= i < j < |pending| :: pending[i].id < pending[j].id)
    && (first.Some? ==> forall i | 0 <= i < |pending| :: first.value < pending[i].id)
  }

  function ActiveId(m: Mailbox): Option<nat> {
    if m.active.Some? then Some(m.active.value.inv.id) else None
  }

  predicate TaskValid(m: Mailbox) {
    m.active.Some? && m.active.value.taskValid
  }

  ghost predicate IoInv(m: Mailbox, began: bool, begun: nat, done: set<(nat, nat)>, notices: set<(nat, nat)>,
                        cancelling: bool)
  {
    && OpInv(m.generation, done, notices)
    && (m.active.Some? ==>
          && CurrentOps(m.generation, done, begun)
          && EpochInv(m.generation, m.status, began, done, notices, begun, m.active.value, cancelling))
  }

  ghost predicate BoxInv(b: Box, f: Flags) {
    && StatusInv(b.mb, b.swept, f)
    && TicketInv(b.tickets, b.mb.generation, b.mb.status)
    && RunnerInv(b.runners, b.mb.status, b.mb.generation, TaskValid(b.mb))
    && OwnerInv(b.owners, b.mb.claimed, b.mb.status, b.swept)
    && IoInv(b.mb, Began(b.runners, b.mb.generation), b.begun, b.done, b.notices, f.cancelling)
    && OrderInv(b.mb.pending, ActiveId(b.mb))
  }

  // ----- the steps of one mailbox -----

  /** The box after a section that may publish a request; a new activation starts with a new epoch source. */
  function After(b: Box, turn: Turn): Box {
    b.(mb := turn.mb,
       tickets := if turn.request.Some? then b.tickets + multiset{turn.request.value} else b.tickets,
       begun := if turn.mb.generation == b.mb.generation then b.begun else 0)
  }

  function TakeStep(b: Box, gen: nat): Box {
    var b' := b.(mb := RunBegin(b.mb, gen), tickets := b.tickets - multiset{gen});
    if !TicketCurrent(b.mb, gen) then b'
    else if b.mb.active.value.taskValid then b'.(runners := b.runners + multiset{Resuming(gen, false)})
    else b'.(runners := b.runners + multiset{Starting(gen)})
  }

  function RefuseStep(b: Box, gen: nat, v: View, now: nat): Box {
    After(b, FailSchedule(b.mb, gen, v, now).(request := None)).(tickets := b.tickets - multiset{gen})
  }

  function StartedStep(b: Box, gen: nat): Box {
    var rest := b.runners - multiset{Starting(gen)};
    b.(mb := StartOk(b.mb, gen),
       runners := if Owns(b.mb, gen) then rest + multiset{Resuming(gen, false)} else rest)
  }

  function StartFailedStep(b: Box, gen: nat, result: ActorResult, v: View, now: nat): Box {
    After(b, StartFail(b.mb, gen, result, v, now)).(runners := b.runners - multiset{Starting(gen)})
  }

  /** The running task begins its next I/O epoch. */
  function BeginStep(b: Box, gen: nat): Box {
    b.(begun := b.begun + 1, runners := b.runners - multiset{Resuming(gen, false)} + multiset{Resuming(gen, true)})
  }

  function ResumedStep(b: Box, gen: nat, began: bool, turn: Turn): Box {
    After(b, turn).(runners := b.runners - multiset{Resuming(gen, began)},
                    owners := if Owns(b.mb, gen) && turn.mb.claimed then b.owners + multiset{0} else b.owners)
  }

  function HandoffStep(b: Box, attempt: nat, v: View, now: nat): Box {
    var rest := b.owners - multiset{attempt};
    After(b, Handoff(b.mb, attempt, v, now)).(
      owners := if HandoffBroken(b.mb) || HandoffFinal(b.mb, attempt) then rest else rest + multiset{attempt + 1})
  }

  /** An operation wins its transition from Pending to Completed. */
  function CompleteStep(b: Box, gen: nat, epoch: nat): Box {
    b.(done := b.done + {(gen, epoch)}, notices := b.notices + {(gen, epoch)})
  }

  function NotifyStep(b: Box, gen: nat, epoch: nat, sawCancel: bool): Box {
    After(b, ExternalReady(b.mb, gen, epoch, sawCancel)).(notices := b.notices - {(gen, epoch)})
  }

  function SweepStep(b: Box, now: nat): Box {
    After(b, Sweep(b.mb, now)).(swept := true)
  }

  datatype Step =
    | Enqueue(inv: Invocation)
    | CancelMessage(messageId: string, v: View)
    | Take(gen: nat)
    | Refuse(gen: nat, v: View)
    | Started(gen: nat)
    | StartFailed(gen: nat, result: ActorResult, v: View)
    | Begin(gen: nat)
    | Resumed(gen: nat, began: bool, outcome: Resumption, sawCancel: bool, v: View, sharing: bool,
              queueDelay: Option<nat>, resumed: nat)
    | HandoffAttempt(attempt: nat, v: View)
    | Complete(gen: nat, epoch: nat)
    | Notify(gen: nat, epoch: nat, sawCancel: bool)
    | SweepMailbox

  function ResumeTurn(b: Box, s: Step, now: nat): Turn
    requires s.Resumed?
  {
    RunEnd(b.mb, s.gen, s.outcome, s.sawCancel, s.v, s.sharing, s.queueDelay, s.resumed, now)
  }

  function Apply(b: Box, s: Step, now: nat): Box {
    match s
    case Enqueue(inv) => After(b, Push(b.mb, inv, now))
    case CancelMessage(messageId, v) => After(b, Cancel(b.mb, messageId, v, now))
    case Take(gen) => TakeStep(b, gen)
    case Refuse(gen, v) => RefuseStep(b, gen, v, now)
    case Started(gen) => StartedStep(b, gen)
    case StartFailed(gen, result, v) => StartFailedStep(b, gen, result, v, now)
    case Begin(gen) => BeginStep(b, gen)
    case Resumed(gen, began, _, _, _, _, _, _) => ResumedStep(b, gen, began, ResumeTurn(b, s, now))
    case HandoffAttempt(attempt, v) => HandoffStep(b, attempt, v, now)
    case Complete(gen, epoch) => CompleteStep(b, gen, epoch)
    case Notify(gen, epoch, sawCancel) => NotifyStep(b, gen, epoch, sawCancel)
    case SweepMailbox => SweepStep(b, now)
  }

  /** The mailbox section that a step executes. */
  function Section(m: Mailbox, s: Step, now: nat): Turn {
    match s
    case Enqueue(inv) => Push(m, inv, now)
    case CancelMessage(messageId, v) => Cancel(m, messageId, v, now)
    case Take(gen) => Turn(RunBegin(m, gen), None, [])
    case Refuse(gen, v) => FailSchedule(m, gen, v, now)
    case Started(gen) => Turn(StartOk(m, gen), None, [])
    case StartFailed(gen, result, v) => StartFail(m, gen, result, v, now)
    case Resumed(gen, _, outcome, sawCancel, v, sharing, queueDelay, resumed) =>
      RunEnd(m, gen, outcome, sawCancel, v, sharing, queueDelay, resumed, now)
    case HandoffAttempt(attempt, v) => Handoff(m, attempt, v, now)
    case Notify(gen, epoch, sawCancel) => ExternalReady(m, gen, epoch, sawCancel)
    case SweepMailbox => Sweep(m, now)
    case _ => Turn(m, None, [])
  }

  /** A step changes the mailbox exactly as its section says. */
  lemma ApplySection(b: Box, s: Step, now: nat)
    ensures Apply(b, s, now).mb == Section(b.mb, s, now).mb
    ensures Apply(b, s, now).key == b.key && Apply(b, s, now).retired == b.retired
    ensures Apply(b, s, now).swept == (b.swept || s.SweepMailbox?)
  {
  }

  predicate CanEnd(b: Box, s: Step, f: Flags)
    requires s.Resumed?
  {
    && Resuming(s.gen, s.began) in b.runners
    && ViewOk(s.v, f, b.swept) && SawOk(s.sawCancel, f, s.v, b.swept)
    && (s.outcome.Awaiting? ==> s.began && s.outcome.epoch == b.begun)
    && (s.outcome.Yielded? ==> !s.began)
  }

  predicate CanComplete(b: Box, gen: nat, epoch: nat) {
    && (gen, epoch) !in b.done && epoch >= 1 && 1 <= gen <= b.mb.generation
    && (Owns(b.mb, gen) ==> epoch <= b.begun)
  }

  /** Whether the step can be taken: its worker, ticket, operation or notification exists. */
  predicate Enabled(b: Box, s: Step, f: Flags) {
    match s
    case Enqueue(inv) => !f.stopping
    case CancelMessage(_, v) => ViewOk(v, f, b.swept) && (f.cancelling ==> b.swept)
    case Take(gen) => gen in b.tickets
    case Refuse(gen, v) => gen in b.tickets && ViewOk(v, f, b.swept)
    case Started(gen) => Starting(gen) in b.runners
    case StartFailed(gen, _, v) => Starting(gen) in b.runners && ViewOk(v, f, b.swept)
    case Begin(gen) => Resuming(gen, false) in b.runners
    case Resumed(_, _, _, _, _, _, _, _) => CanEnd(b, s, f)
    case HandoffAttempt(attempt, v) => attempt in b.owners && ViewOk(v, f, b.swept)
    case Complete(gen, epoch) => CanComplete(b, gen, epoch)
    case Notify(gen, epoch, sawCancel) =>
      (gen, epoch) in b.notices && (sawCancel ==> f.cancelling) && (b.swept ==> sawCancel)
    case SweepMailbox => f.cancelling && f.stopping && !b.swept
  }
}
