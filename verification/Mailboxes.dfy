/**
 What one critical section of the actor scheduler does to one mailbox, as functions on values.
 The classes in SchedulerObjects.dfy execute these sections in place; the protocol in Boxes.dfy and Scheduler.dfy
 interleaves them.
 */
module Mailboxes {
  import opened Wrappers
  import opened Metrics

  datatype Status = Idle | Runnable | Running | Suspended | Stopping

  datatype ActorResult = Success | Failure(code: string)

  const CANCELLED := Failure("scheduler_cancelled")
  const STOPPED := Failure("scheduler_stopped")
  const NOT_REGISTERED := Failure("actor_not_registered")
  const INVALID_SUSPENSION := Failure("actor_invalid_suspension")

  /**
   An admitted invocation. `id` is its admission number and stands for its completion handler, `registered` says
   that its actor was known when it was admitted.
   */
  datatype Invocation = Invocation(id: nat, actor: string, key: string, messageId: string, registered: bool,
                                   admittedAt: nat)

  /**
   The invocation that owns the mailbox. `taskValid` says that its coroutine frame exists, `taskEpoch` is the
   root task's I/O epoch, `ready` and `completed` are the epochs that were notified early and consumed last.
   */
  datatype Active = Active(inv: Invocation, gen: nat, taskValid: bool, taskEpoch: nat,
                           ready: nat, completed: nat, cancelAfterResume: bool, started: bool)

  datatype Mailbox = Mailbox(status: Status, claimed: bool, generation: nat,
                             pending: seq<Invocation>, active: Option<Active>, totals: Totals)

  const Fresh := Mailbox(Idle, false, 0, [], None, NoTotals)

  datatype Event = Event(inv: Invocation, result: ActorResult)

  /** What a critical section leaves behind: the mailbox, at most one schedule request, and completion events. */
  datatype Turn = Turn(mb: Mailbox, request: Option<nat>, events: seq<Event>)

  /**
   How a section sees the shutdown flags, which change while it runs: `stopping` as last loaded, and the number
   of loop iterations after which `cancelling` is first seen (None: never).
   */
  datatype View = View(stopping: bool, cancelAfter: Option<nat>)

  const CALM := View(false, None)

  /** How a resumed coroutine hands control back. */
  datatype Resumption = Done(result: ActorResult) | Yielded | Awaiting(epoch: nat) | Unsupported

  function Elapsed(inv: Invocation, now: nat): nat {
    if now < inv.admittedAt then 0 else now - inv.admittedAt
  }

  function Activate(inv: Invocation, gen: nat): Active {
    Active(inv, gen, false, 0, 0, 0, false, false)
  }

  /** The totals after one invocation ended with `result`. */
  function Count(t: Totals, inv: Invocation, result: ActorResult, cancelled: bool, now: nat): Totals {
    var t' := t.(latency := Record(t.latency, Elapsed(inv, now)));
    if cancelled then t'.(cancelled := t.cancelled + 1)
    else if result.Success? then t'.(completed := t.completed + 1)
    else t'.(failed := t.failed + 1)
  }

  /** `prepare_next_locked`: skips invocations of unregistered actors and activates the first other one. */
  function PrepareNext(m: Mailbox, v: View, now: nat): Turn
    decreases |m.pending|
  {
    if m.pending == [] || v.cancelAfter == Some(0) then
      Turn(m.(status := if v.stopping then Stopping else Idle), None, [])
    else
      var inv, rest := m.pending[0], m.(pending := m.pending[1..]);
      if inv.registered then
        var gen := m.generation + 1;
        Turn(rest.(generation := gen, active := Some(Activate(inv, gen)), status := Runnable), Some(gen), [])
      else
        var turn := PrepareNext(rest.(totals := Count(m.totals, inv, NOT_REGISTERED, false, now)), Later(v), now);
        turn.(events := [Event(inv, NOT_REGISTERED)] + turn.events)
  }

  function Later(v: View): View {
    v.(cancelAfter := if v.cancelAfter.Some? && v.cancelAfter.value > 0 then Some(v.cancelAfter.value - 1) else v.cancelAfter)
  }

  /** `complete_active_locked`. */
  function CompleteActive(m: Mailbox, result: ActorResult, cancelled: bool, v: View, now: nat): Turn {
    if m.active.None? then Turn(m, None, [])
    else
      var inv := m.active.value.inv;
      var turn := PrepareNext(m.(active := None, totals := Count(m.totals, inv, result, cancelled, now)), v, now);
      turn.(events := [Event(inv, result)] + turn.events)
  }

  /** The mailbox part of `enqueue`; admission happens while neither shutdown flag is set. */
  function Push(m: Mailbox, inv: Invocation, now: nat): Turn {
    var m' := m.(pending := m.pending + [inv]);
    if m.status == Idle && !m.claimed then PrepareNext(m', CALM, now) else Turn(m', None, [])
  }

  /** The first queued invocation carrying the message identifier, or the queue length. */
  function FindMessage(pending: seq<Invocation>, messageId: string): (i: nat)
    ensures i <= |pending|
    ensures i < |pending| ==> pending[i].messageId == messageId
    ensures forall j | 0 <= j < i :: pending[j].messageId != messageId
  {
    if pending == [] || pending[0].messageId == messageId then 0 else 1 + FindMessage(pending[1..], messageId)
  }

  /** Whether `cancel` finds the message in this mailbox. */
  predicate Knows(m: Mailbox, messageId: string) {
    || FindMessage(m.pending, messageId) < |m.pending|
    || (m.active.Some? && m.active.value.inv.messageId == messageId)
  }

  /** The mailbox part of `cancel`. */
  function Cancel(m: Mailbox, messageId: string, v: View, now: nat): Turn {
    var i := FindMessage(m.pending, messageId);
    if i < |m.pending| then
      var inv := m.pending[i];
      Turn(m.(pending := m.pending[..i] + m.pending[i + 1..], totals := Count(m.totals, inv, CANCELLED, true, now)),
           None, [Event(inv, CANCELLED)])
    else if m.active.Some? && m.active.value.inv.messageId == messageId then
      if m.status == Running then
        Turn(m.(active := Some(m.active.value.(cancelAfterResume := true))), None, [])
      else
        CompleteActive(m, CANCELLED, true, v, now)
    else Turn(m, None, [])
  }

  /** Whether the invocation that a worker was given is still the active one. */
  predicate Owns(m: Mailbox, gen: nat) {
    m.active.Some? && m.active.value.gen == gen
  }

  /** Whether a schedule ticket for `gen` still finds its invocation waiting. */
  predicate TicketCurrent(m: Mailbox, gen: nat) {
    Owns(m, gen) && m.status == Runnable
  }

  /** The first section of `run_mailbox`. */
  function RunBegin(m: Mailbox, gen: nat): Mailbox {
    if TicketCurrent(m, gen) then m.(status := Running, active := Some(m.active.value.(started := true))) else m
  }

  /** Publishing a freshly created task into the running mailbox. */
  function StartOk(m: Mailbox, gen: nat): Mailbox {
    if Owns(m, gen) then m.(active := Some(m.active.value.(taskValid := true))) else m
  }

  /** The section entered when `handle_message` throws. */
  function StartFail(m: Mailbox, gen: nat, result: ActorResult, v: View, now: nat): Turn {
    if Owns(m, gen) then CompleteActive(m, result, false, v, now) else Turn(m, None, [])
  }

  /** The section after a resume, without the idle claim. */
  function Settle(m: Mailbox, gen: nat, outcome: Resumption, sawCancel: bool, v: View, now: nat): Turn {
    if !Owns(m, gen) then Turn(m, None, [])
    else
      var a := m.active.value;
      if sawCancel || a.cancelAfterResume then CompleteActive(m, CANCELLED, true, v, now)
      else
        match outcome
        case Done(result) => CompleteActive(m, result, false, v, now)
        case Yielded =>
          Turn(m.(status := Runnable, totals := m.totals.(yielded := m.totals.yielded + 1)), Some(gen), [])
        case Awaiting(epoch) =>
          var m' := m.(totals := m.totals.(suspensions := m.totals.suspensions + 1));
          if a.ready == epoch then
            Turn(m'.(status := Runnable, active := Some(a.(taskEpoch := epoch, ready := 0, completed := epoch))),
                 Some(gen), [])
          else
            Turn(m'.(status := Suspended, active := Some(a.(taskEpoch := epoch))), None, [])
        case Unsupported => CompleteActive(m, INVALID_SUSPENSION, false, v, now)
  }

  /** Whether the worker keeps a local claim on the mailbox it has just emptied. */
  predicate Claims(turn: Turn, globalSharing: bool) {
    && !globalSharing && turn.request.None? && turn.mb.active.None?
    && turn.mb.status == Idle && turn.mb.generation > 1
  }

  /** The durations recorded after a resume; the queue delay only by the first resume of an invocation. */
  function Timed(m: Mailbox, queueDelay: Option<nat>, resumed: nat): Mailbox {
    var t := if queueDelay.Some? then m.totals.(queueDelay := Record(m.totals.queueDelay, queueDelay.value)) else m.totals;
    m.(totals := t.(resumeDuration := Record(t.resumeDuration, resumed)))
  }

  /** The whole section after a resume, with the durations that it records first. */
  function RunEnd(m: Mailbox, gen: nat, outcome: Resumption, sawCancel: bool, v: View, globalSharing: bool,
                  queueDelay: Option<nat>, resumed: nat, now: nat): Turn
  {
    var turn := Settle(Timed(m, queueDelay, resumed), gen, outcome, sawCancel, v, now);
    if Owns(m, gen) && Claims(turn, globalSharing) then turn.(mb := turn.mb.(claimed := true)) else turn
  }

  const MAX_IDLE_HANDOFF_YIELDS: nat := 4

  /** Whether an attempt of the idle handoff finds its claim gone. */
  predicate HandoffBroken(m: Mailbox) {
    m.active.Some? || m.status != Idle || !m.claimed
  }

  /** Whether the attempt releases the claim. */
  predicate HandoffFinal(m: Mailbox, attempt: nat) {
    !HandoffBroken(m) && (m.pending != [] || attempt + 1 == MAX_IDLE_HANDOFF_YIELDS)
  }

  /** One attempt of the idle handoff. */
  function Handoff(m: Mailbox, attempt: nat, v: View, now: nat): Turn {
    if HandoffFinal(m, attempt) then PrepareNext(m.(claimed := false), v, now) else Turn(m, None, [])
  }

  /** Whether `on_external_ready` counts the notification as late. */
  predicate Late(m: Mailbox, gen: nat, epoch: nat, sawCancel: bool) {
    || !Owns(m, gen) || sawCancel
    || m.active.value.completed == epoch
    || (if m.status == Running then m.active.value.ready == epoch
        else m.active.value.taskEpoch != epoch || m.status != Suspended)
  }

  /** `on_external_ready`. */
  function ExternalReady(m: Mailbox, gen: nat, epoch: nat, sawCancel: bool): Turn {
    if Late(m, gen, epoch, sawCancel) then Turn(m, None, [])
    else if m.status == Running then
      Turn(m.(active := Some(m.active.value.(ready := epoch))), None, [])
    else
      Turn(m.(status := Runnable, active := Some(m.active.value.(completed := epoch))), Some(gen), [])
  }

  /** `fail_schedule_request`, which discards the follow-up request of `complete_active_locked`. */
  function FailSchedule(m: Mailbox, gen: nat, v: View, now: nat): Turn {
    if TicketCurrent(m, gen) then CompleteActive(m, STOPPED, true, v, now) else Turn(m, None, [])
  }

  /** Cancelling every queued invocation. */
  function Flush(m: Mailbox, now: nat): Turn
    decreases |m.pending|
  {
    if m.pending == [] then Turn(m, None, [])
    else
      var inv := m.pending[0];
      var turn := Flush(m.(pending := m.pending[1..], totals := Count(m.totals, inv, CANCELLED, true, now)), now);
      turn.(events := [Event(inv, CANCELLED)] + turn.events)
  }

  /** One mailbox of the cancelling shutdown; the request of a completed invocation is discarded there. */
  function Sweep(m: Mailbox, now: nat): Turn {
    var flushed := Flush(m, now);
    if m.active.None? then flushed.(mb := flushed.mb.(claimed := false, status := Stopping))
    else if m.status == Running then
      flushed.(mb := flushed.mb.(active := Some(m.active.value.(cancelAfterResume := true))))
    else
      var turn := CompleteActive(flushed.mb, CANCELLED, true, View(true, Some(0)), now);
      Turn(turn.mb.(status := Stopping), None, flushed.events + turn.events)
  }

  /** Whether `reclaim_idle_mailbox` may drop the mailbox. */
  predicate Reclaimable(m: Mailbox) {
    m.status == Idle && m.active.None? && m.pending == [] && !m.claimed
  }
}
