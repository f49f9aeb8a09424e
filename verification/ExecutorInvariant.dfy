/** The invariant of the executor protocol, in parts that each step is shown to keep. */
module ExecutorInvariant {
  import opened Wrappers
  import opened Sums
  import opened Executor

  // ----- counters and items -----

  /** Whether a worker holds the item, from taking it to finishing it. */
  function Held(p: Worker, item: Option<nat>): nat {
    if (p.Popped? || p.Executing?) && (item.None? || item.value == p.item) then 1 else 0
  }

  /** Whether a worker has taken an item that is still counted as runnable. */
  function Window(p: Worker, item: Option<nat>): nat {
    if p.Popped? then 1 else 0
  }

  function Contents(q: seq<nat>, item: Option<nat>): nat {
    if item.None? then |q| else multiset(q)[item.value]
  }

  function Unsubtracted(c: Closer): nat {
    if c.Clearing? then c.removed else 0
  }

  predicate CountsExact(ws: seq<Worker>, qs: seq<seq<nat>>, runnable: int, active: int, c: Closer) {
    && active == Sum(ws, Held, None)
    && runnable == Sum(qs, Contents, None) + Sum(ws, Window, None) + Unsubtracted(c)
  }

  /** The number of places in which an item is. */
  function Places(s: State, x: nat): nat {
    Sum(s.queues, Contents, Some(x)) + Sum(s.workers, Held, Some(x)) + multiset(s.executed)[x] + multiset(s.cancelled)[x]
  }

  /** Every item that entered a queue is in exactly one place. */
  ghost predicate ItemsConserved(s: State) {
    forall x: nat :: Places(s, x) == if x < s.next then 1 else 0
  }

  // ----- epochs and threads -----

  function EpochOf(p: Worker): Option<nat> {
    match p
    case Captured(e) => Some(e)
    case Quiet(at) => at
    case AskedCancel(at) => at
    case AskedDrain(at) => at
    case Armed(at) => at
    case Staying(e) => Some(e)
    case Blocked(e) => Some(e)
    case _ => None
  }

  predicate EpochsPast(ws: seq<Worker>, epoch: nat) {
    forall w | 0 <= w < |ws| && EpochOf(ws[w]).Some? :: EpochOf(ws[w]).value <= epoch
  }

  predicate CallOk(p: Producer, ws: seq<Worker>) {
    && (p.call.Pushed? ==> p.call.previous >= 0)
    && (p.thread.Some? && !p.call.Returned? ==> p.thread.value < |ws| && ws[p.thread.value].Executing?)
  }

  predicate CallsOk(ps: seq<Producer>, ws: seq<Worker>) {
    forall i | 0 <= i < |ps| :: CallOk(ps[i], ws)
  }

  // ----- no lost wakeup -----

  /** About to sleep unless the epoch has moved. */
  predicate FallingAsleep(p: Worker) {
    && (p.Quiet? || p.AskedCancel? || p.AskedDrain? || p.Armed? || p.Staying?)
    && EpochOf(p).Some?
  }

  /** Asleep, or certain to fall asleep if nothing more happens. */
  predicate Drowsy(p: Worker, epoch: nat) {
    p.Blocked? || (FallingAsleep(p) && EpochOf(p) == Some(epoch))
  }

  /** Executing, or certain to look at the queues or the runnable counter again. */
  predicate Alert(p: Worker) {
    !p.Blocked? && !p.Gone? && !FallingAsleep(p)
  }

  ghost predicate SomeDrowsy(ws: seq<Worker>, epoch: nat) {
    exists w | 0 <= w < |ws| :: Drowsy(ws[w], epoch)
  }

  ghost predicate SomeAlert(ws: seq<Worker>) {
    exists w | 0 <= w < |ws| :: Alert(ws[w])
  }

  ghost predicate SomeWakeable(ws: seq<Worker>, epoch: nat) {
    exists w | 0 <= w < |ws| :: Wakeable(ws[w], epoch)
  }

  /** Still owes a notification, or the decision on one after a push onto empty queues. */
  predicate Owes(p: Producer, workers: nat)
    requires workers > 0
  {
    (p.call.Pushed? && p.call.previous == 0 && !Local(p, workers)) || p.call.WillNotify?
  }

  ghost predicate SomeOwes(ps: seq<Producer>, workers: nat)
    requires workers > 0
  {
    exists i | 0 <= i < |ps| :: Owes(ps[i], workers)
  }

  ghost predicate SomeNotified(ps: seq<Producer>) {
    exists i | 0 <= i < |ps| :: ps[i].call.Notified?
  }

  /** While something is runnable and a worker sleeps, a worker is alert or a producer still has to notify. */
  ghost predicate Lossless(ws: seq<Worker>, ps: seq<Producer>, runnable: int, epoch: nat)
    requires |ws| > 0
  {
    runnable > 0 && SomeDrowsy(ws, epoch) ==>
      SomeAlert(ws) || SomeOwes(ps, |ws|) || (SomeNotified(ps) && SomeWakeable(ws, epoch))
  }

  // ----- shutdown -----

  /** Certain to raise the epoch and wake everybody if the queues stay empty. */
  predicate Alarmed(p: Worker) {
    p == Finished(true) || p.WillNotifyAll?
  }

  predicate CloserAlarmed(c: Closer) {
    c.Requested? || c.Clearing? || c.CloserWillNotify?
  }

  ghost predicate Alarm(ws: seq<Worker>, c: Closer) {
    CloserAlarmed(c) || exists w | 0 <= w < |ws| :: Alarmed(ws[w])
  }

  ghost predicate AlarmRaised(ws: seq<Worker>, c: Closer) {
    c.CloserNotified? || exists w | 0 <= w < |ws| :: ws[w].NotifiedAll?
  }

  /** A worker that has decided not to exit and whose epoch is current, or that sleeps. */
  predicate Stuck(p: Worker, epoch: nat) {
    p.Blocked? || p == Staying(epoch)
  }

  /** After a shutdown was requested, a sleeper either has work to wait for or somebody is about to wake it. */
  ghost predicate Rescued(p: Worker, ws: seq<Worker>, c: Closer, runnable: int, active: int, epoch: nat) {
    || active > 0 || runnable > 0 || Alarm(ws, c)
    || (Wakeable(p, epoch) && AlarmRaised(ws, c))
  }

  ghost predicate NobodyStuck(ws: seq<Worker>, c: Closer, runnable: int, active: int, epoch: nat) {
    forall w | 0 <= w < |ws| && Stuck(ws[w], epoch) :: Rescued(ws[w], ws, c, runnable, active, epoch)
  }

  ghost predicate ShutdownWakes(s: State) {
    s.requested ==> NobodyStuck(s.workers, s.closer, s.runnable, s.active, s.epoch)
  }

  /** Whether the worker still re-reads the runnable counter before it exits. */
  predicate Unarmed(p: Worker) {
    !p.Gone? && !(p.Armed? && p.at.Some?)
  }

  predicate Exiting(p: Worker) {
    p.AskedCancel? || p.AskedDrain? || p.Armed? || p.Leaving? || p.Gone?
  }

  ghost predicate Outstanding(s: State, x: nat) {
    x in s.owed && Sum(s.queues, Contents, Some(x)) + Sum(s.workers, Held, Some(x)) > 0
  }

  /** In a shutdown that does not cancel, owed items keep a worker from exiting. */
  ghost predicate OwedAreSafe(s: State) {
    s.requested && !s.cancelling && (exists x :: Outstanding(s, x)) ==>
      exists w | 0 <= w < |s.workers| :: Unarmed(s.workers[w])
  }

  predicate FlagsOk(s: State) {
    && (!s.requested ==> forall w | 0 <= w < |s.workers| :: !Exiting(s.workers[w]))
    && (!s.cancelling ==> forall w | 0 <= w < |s.workers| :: !s.workers[w].AskedCancel?)
    && (s.cancelling ==> s.requested)
    && (s.closer.Clearing? ==> s.cancelling)
    && (s.closer.Requested? ==> s.requested)
    && (s.cancelled != [] ==> s.cancelling)
    && (s.joined ==> s.requested && forall w | 0 <= w < |s.workers| :: s.workers[w].Gone?)
    && (s.requested ==> !s.accepting)
    && (s.closer.Stopping? ==> !s.accepting)
  }

  predicate OwedOk(s: State) {
    && (forall x | x in s.owed :: x < s.next)
    && (!s.requested ==> forall x: nat | x < s.next :: x in s.owed)
  }

  ghost predicate Inv(s: State) {
    && Shaped(s)
    && CountsExact(s.workers, s.queues, s.runnable, s.active, s.closer)
    && ItemsConserved(s)
    && EpochsPast(s.workers, s.epoch)
    && CallsOk(s.producers, s.workers)
    && Lossless(s.workers, s.producers, s.runnable, s.epoch)
    && ShutdownWakes(s) && OwedAreSafe(s) && FlagsOk(s) && OwedOk(s)
  }

  lemma InitHolds(workers: nat)
    requires workers > 0
    ensures Inv(Init(workers))
  {
    var s := Init(workers);
    SumZero(s.workers, Window, None);
    forall item ensures Sum(s.workers, Held, item) == 0 && Sum(s.queues, Contents, item) == 0 {
      SumZero(s.workers, Held, item);
      SumZero(s.queues, Contents, item);
    }
  }
}
