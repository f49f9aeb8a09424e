/**
 The work-stealing executor as a state machine. A step is one atomic operation, or one critical section of a queue
 mutex; worker, producer and shutdown threads interleave freely. Work items are numbered in the order in which they
 enter a queue.
 */
module Executor {
  import opened Wrappers

  /**
   Where a worker thread stands. `at` is the epoch that an idle worker captured before it checks whether to exit,
   or None when it checks after having slept.
   */
  datatype Worker =
    | Scanning
    | Popped(item: nat)                  // active counted, runnable not yet lowered
    | Executing(item: nat)
    | Finished(last: bool)               // active lowered
    | WillNotifyAll
    | NotifiedAll                        // epoch raised, sleepers not yet woken
    | Captured(epoch: nat)
    | Quiet(at: Option<nat>)             // read runnable == 0 after capturing, or woke up
    | AskedCancel(at: Option<nat>)       // saw both shutdown flags
    | AskedDrain(at: Option<nat>)        // saw a shutdown that does not cancel
    | Armed(at: Option<nat>)             // then read runnable == 0
    | Leaving                            // told to exit after having slept
    | Staying(epoch: nat)                // told not to exit
    | Blocked(epoch: nat)
    | Gone

  /** Where a call of `enqueue` stands. */
  datatype Call =
    | Entered
    | Admitted
    | Pushed(previous: int)
    | WillNotify
    | Notified                           // epoch raised, sleeper not yet woken
    | Returned(ok: bool)

  /** A call of `enqueue`; `thread` is the worker that makes it while executing an item, `target` the preferred worker. */
  datatype Producer = Producer(thread: Option<nat>, internal: bool, target: Option<nat>, call: Call)

  /** Where the thread stands that performs a shutdown; `removed` items are not yet subtracted from the counter. */
  datatype Closer =
    | Free
    | Stopping(cancel: bool)
    | Requested(cancel: bool)
    | Clearing(next: nat, removed: nat)
    | CloserWillNotify
    | CloserNotified

  /**
   Queue number |workers| is the injector. `owed` are the items that a draining shutdown owes an execution:
   those queued before the shutdown was requested, and those that a running item rescheduled.
   */
  datatype State = State(workers: seq<Worker>, queues: seq<seq<nat>>, runnable: int, active: int, epoch: nat,
                         accepting: bool, requested: bool, cancelling: bool, joined: bool,
                         producers: seq<Producer>, closer: Closer,
                         next: nat, owed: set<nat>, executed: seq<nat>, cancelled: seq<nat>)

  function Init(workers: nat): State {
    State(seq(workers, i => Scanning), seq(workers + 1, i => []), 0, 0, 0, true, false, false, false,
          [], Free, 0, {}, [], [])
  }

  datatype Action =
    | Take(w: nat, q: nat)
    | Miss(w: nat)
    | Lower(w: nat)
    | Finish(w: nat)
    | Look(w: nat)
    | Yield(w: nat)
    | Wait(w: nat)
    | Wake(w: nat)
    | Enter(thread: Option<nat>, internal: bool, target: Option<nat>)
    | Check(p: nat)
    | Push(p: nat)
    | Decide(p: nat)
    | Raise(p: nat)
    | NotifyOne(p: nat, sleeper: Option<nat>)
    | Shutdown(cancel: bool)
    | Close
    | Join

  // ----- queues -----

  /** A worker takes the newest item of its own deque and the oldest of every other queue. */
  function Picked(queue: seq<nat>, own: bool): (item: nat)
    requires queue != []
  {
    if own then queue[|queue| - 1] else queue[0]
  }

  function Rest(queue: seq<nat>, own: bool): seq<nat>
    requires queue != []
  {
    if own then queue[..|queue| - 1] else queue[1..]
  }

  function QueueOf(target: Option<nat>, workers: nat): (q: nat)
    requires workers > 0
    ensures q <= workers
    ensures q == workers <==> target.None?
  {
    if target.None? then workers else target.value % workers
  }

  /** The order in which `clear_queued_work` empties the queues. */
  function ClearedQueue(k: nat, workers: nat): nat {
    if k == 0 then workers else k - 1
  }

  // ----- decisions -----

  /** Whether the flags make `enqueue` refuse. */
  predicate Refusing(cancelling: bool, accepting: bool, requested: bool, joined: bool, p: Producer) {
    cancelling || (!p.internal && !accepting) || (requested && !(p.internal && p.thread.Some?)) || joined
  }

  /** A continuation that a worker puts on its own deque. */
  predicate Local(p: Producer, workers: nat)
    requires workers > 0
  {
    p.internal && p.thread.Some? && p.target.Some? && p.target.value % workers == p.thread.value
  }

  /** Whether `enqueue` notifies after its push. */
  predicate Notifies(p: Producer, previous: int, active: int, workers: nat)
    requires workers > 0
  {
    !Local(p, workers) && previous + active < workers
  }

  /** A worker that decided to stay, and one that decided to exit. */
  function Stays(at: Option<nat>): Worker {
    if at.Some? then Staying(at.value) else Scanning
  }

  function Exits(at: Option<nat>): Worker {
    if at.Some? then Gone else Leaving
  }

  predicate Looks(p: Worker) {
    p.Finished? || p.WillNotifyAll? || p.NotifiedAll? || p.Captured? || p.Quiet? || p.AskedCancel?
    || p.AskedDrain? || p.Armed? || p.Leaving?
  }

  /** The next position of a worker that reads counters and flags. */
  function Looked(p: Worker, s: State): Worker
    requires Looks(p)
  {
    match p
    case Finished(last) => if last && s.requested && s.runnable == 0 then WillNotifyAll else Scanning
    case WillNotifyAll => NotifiedAll
    case NotifiedAll => Scanning
    case Captured(e) => if s.runnable > 0 then Scanning else Quiet(Some(e))
    case Quiet(at) => if !s.requested then Stays(at) else if s.cancelling then AskedCancel(at) else AskedDrain(at)
    case AskedCancel(at) => if s.runnable == 0 then Exits(at) else Stays(at)
    case AskedDrain(at) => if s.runnable == 0 then Armed(at) else Stays(at)
    case Armed(at) => if s.active == 0 then Exits(at) else Stays(at)
    case Leaving => if s.runnable == 0 then Gone else Scanning
  }

  /** A notification reaches the sleepers whose captured epoch is outdated. */
  predicate Wakeable(p: Worker, epoch: nat) {
    p.Blocked? && p.epoch != epoch
  }

  function Woken(p: Worker, epoch: nat): Worker {
    if Wakeable(p, epoch) then Quiet(None) else p
  }

  function WokenAll(ws: seq<Worker>, epoch: nat): (r: seq<Worker>)
    ensures |r| == |ws|
    ensures forall i | 0 <= i < |ws| :: r[i] == Woken(ws[i], epoch)
  {
    seq(|ws|, i requires 0 <= i < |ws| => Woken(ws[i], epoch))
  }

  // ----- steps -----

  function With(s: State, w: nat, p: Worker): State
    requires w < |s.workers|
  {
    s.(workers := s.workers[w := p])
  }

  function WithCall(s: State, p: nat, call: Call): State
    requires p < |s.producers|
  {
    s.(producers := s.producers[p := s.producers[p].(call := call)])
  }

  predicate Busy(ps: seq<Producer>, w: nat) {
    exists i | 0 <= i < |ps| :: ps[i].thread == Some(w) && !ps[i].call.Returned?
  }

  predicate Shaped(s: State) {
    && |s.workers| > 0 && |s.queues| == |s.workers| + 1
  }

  ghost predicate Guard(s: State, a: Action)
    requires Shaped(s)
  {
    match a
    case Take(w, q) => w < |s.workers| && s.workers[w].Scanning? && q < |s.queues| && s.queues[q] != []
    case Miss(w) => w < |s.workers| && s.workers[w].Scanning?
    case Lower(w) => w < |s.workers| && s.workers[w].Popped?
    case Finish(w) => w < |s.workers| && s.workers[w].Executing? && !Busy(s.producers, w)
    case Look(w) => w < |s.workers| && Looks(s.workers[w])
    case Yield(w) => w < |s.workers| && s.workers[w].Staying?
    case Wait(w) => w < |s.workers| && s.workers[w].Staying?
    case Wake(w) => w < |s.workers| && Wakeable(s.workers[w], s.epoch)
    case Enter(thread, _, _) =>
      thread.Some? ==>
        thread.value < |s.workers| && s.workers[thread.value].Executing? && !Busy(s.producers, thread.value)
    case Check(p) => p < |s.producers| && s.producers[p].call.Entered?
    case Push(p) => p < |s.producers| && s.producers[p].call.Admitted?
    case Decide(p) => p < |s.producers| && s.producers[p].call.Pushed?
    case Raise(p) => p < |s.producers| && s.producers[p].call.WillNotify?
    case NotifyOne(p, sleeper) =>
      && p < |s.producers| && s.producers[p].call.Notified?
      && (if sleeper.Some? then sleeper.value < |s.workers| && Wakeable(s.workers[sleeper.value], s.epoch)
          else forall w | 0 <= w < |s.workers| :: !Wakeable(s.workers[w], s.epoch))
    case Shutdown(_) => s.closer.Free? && !s.joined
    case Close => !s.closer.Free?
    case Join => s.requested && s.closer.Free? && forall w | 0 <= w < |s.workers| :: s.workers[w].Gone?
  }

  function PushStep(s: State, p: nat): State
    requires Shaped(s) && p < |s.producers|
  {
    var me := s.producers[p];
    var q := QueueOf(me.target, |s.workers|);
    WithCall(s, p, Pushed(s.runnable)).(
      queues := s.queues[q := s.queues[q] + [s.next]],
      runnable := s.runnable + 1,
      next := s.next + 1,
      owed := if !s.requested || (me.internal && me.thread.Some?) then s.owed + {s.next} else s.owed)
  }

  /** One step of a shutdown up to its notification of all workers; it then goes on to join them. */
  function CloseStep(s: State): State
    requires Shaped(s) && !s.closer.Free?
  {
    match s.closer
    case Stopping(c) => s.(requested := true, closer := Requested(c))
    case Requested(c) =>
      if c then s.(cancelling := true, closer := Clearing(0, 0)) else s.(closer := CloserWillNotify)
    case Clearing(k, removed) =>
      if k <= |s.workers| then
        var q := ClearedQueue(k, |s.workers|);
        s.(queues := s.queues[q := []], cancelled := s.cancelled + s.queues[q],
           closer := Clearing(k + 1, removed + |s.queues[q]|))
      else s.(runnable := s.runnable - removed, closer := CloserWillNotify)
    case CloserWillNotify => s.(epoch := s.epoch + 1, closer := CloserNotified)
    case CloserNotified => s.(workers := WokenAll(s.workers, s.epoch), closer := Free)
  }

  function LookStep(s: State, w: nat): State
    requires w < |s.workers| && Looks(s.workers[w])
  {
    var p := s.workers[w];
    var s' := if p.NotifiedAll? then s.(workers := WokenAll(s.workers, s.epoch))
              else if p.WillNotifyAll? then s.(epoch := s.epoch + 1)
              else s;
    With(s', w, Looked(p, s))
  }

  /** The worker that an action of a worker moves. */
  function Mover(a: Action): Option<nat> {
    match a
    case Take(w, _) => Some(w)
    case Miss(w) => Some(w)
    case Lower(w) => Some(w)
    case Finish(w) => Some(w)
    case Look(w) => Some(w)
    case Yield(w) => Some(w)
    case Wait(w) => Some(w)
    case Wake(w) => Some(w)
    case _ => None
  }

  /** The call of `enqueue` that an action continues. */
  function Caller(a: Action): Option<nat> {
    match a
    case Check(p) => Some(p)
    case Push(p) => Some(p)
    case Decide(p) => Some(p)
    case Raise(p) => Some(p)
    case NotifyOne(p, _) => Some(p)
    case _ => None
  }

  ghost function WorkerStep(s: State, a: Action): State
    requires Shaped(s) && Guard(s, a) && Mover(a).Some?
  {
    match a
    case Take(w, q) =>
      With(s, w, Popped(Picked(s.queues[q], q == w))).(
        queues := s.queues[q := Rest(s.queues[q], q == w)], active := s.active + 1)
    case Miss(w) => With(s, w, Captured(s.epoch))
    case Lower(w) => With(s, w, Executing(s.workers[w].item)).(runnable := s.runnable - 1)
    case Finish(w) =>
      With(s, w, Finished(s.active == 1)).(active := s.active - 1, executed := s.executed + [s.workers[w].item])
    case Look(w) => LookStep(s, w)
    case Yield(w) => With(s, w, Scanning)
    case Wait(w) => With(s, w, if s.workers[w].epoch == s.epoch then Blocked(s.epoch) else Quiet(None))
    case Wake(w) => With(s, w, Quiet(None))
  }

  ghost function CallStep(s: State, a: Action): State
    requires Shaped(s) && Guard(s, a) && Caller(a).Some?
  {
    match a
    case Check(p) =>
      var refused := Refusing(s.cancelling, s.accepting, s.requested, s.joined, s.producers[p]);
      WithCall(s, p, if refused then Returned(false) else Admitted)
    case Push(p) => PushStep(s, p)
    case Decide(p) =>
      var me := s.producers[p];
      WithCall(s, p, if Notifies(me, me.call.previous, s.active, |s.workers|) then WillNotify else Returned(true))
    case Raise(p) => WithCall(s, p, Notified).(epoch := s.epoch + 1)
    case NotifyOne(p, sleeper) =>
      var s' := WithCall(s, p, Returned(true));
      if sleeper.Some? then With(s', sleeper.value, Quiet(None)) else s'
  }

  ghost function Next(s: State, a: Action): State
    requires Shaped(s) && Guard(s, a)
  {
    if Mover(a).Some? then WorkerStep(s, a)
    else if Caller(a).Some? then CallStep(s, a)
    else
      match a
      case Enter(thread, internal, target) => s.(producers := s.producers + [Producer(thread, internal, target, Entered)])
      case Shutdown(cancel) => s.(accepting := false, closer := Stopping(cancel))
      case Close => CloseStep(s)
      case Join => s.(joined := true)
  }

  ghost predicate IsRun(workers: nat, states: seq<State>, actions: seq<Action>) {
    && workers > 0 && |states| == |actions| + 1 && states[0] == Init(workers)
    && forall k | 0 <= k < |actions| ::
         && Shaped(states[k]) && Guard(states[k], actions[k])
         && states[k + 1] == Next(states[k], actions[k])
  }
}
