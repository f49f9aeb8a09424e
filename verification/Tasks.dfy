/**
 What the scheduler relies on below it: a chain of nested coroutine tasks that forwards a suspension to its root, and
 the state of an asynchronous operation that notifies the scheduler.
 */
module Tasks {
  import opened Wrappers

  datatype Suspension = Initial | Running | Yielded | AwaitingIo | Completed

  /** The part of a task's promise that concerns suspensions. */
  datatype Frame = Frame(suspension: Suspension, epoch: nat)

  /** What the innermost running task does next; `Stray` suspends it outside of any supported boundary. */
  datatype Step = Call | Return | BeginIo | Yield | Stray

  /** The root sees the same suspension as the nested task that caused it. */
  predicate Agree(frames: seq<Frame>, suspension: Suspension, epoch: nat) {
    forall i | 0 <= i < |frames| :: frames[i] == Frame(suspension, epoch)
  }

  /** How a resume of a chain of `depth` tasks ends. */
  function Outcome(depth: nat, steps: seq<Step>): Suspension
    requires depth > 0
    decreases |steps|
  {
    if steps == [] then Running
    else
      match steps[0]
      case Call => Outcome(depth + 1, steps[1..])
      case Return => if depth == 1 then Completed else Outcome(depth - 1, steps[1..])
      case BeginIo => AwaitingIo
      case Yield => Yielded
      case Stray =>
        if depth == 1 then Running else if depth == 2 then Completed else Outcome(depth - 2, steps[1..])
  }

  /** How many tasks are nested after the first `k` steps: a stray suspension ends the task and fails the one above it. */
  function DepthAfter(depth: int, steps: seq<Step>, k: nat): int
    requires k <= |steps|
  {
    if k == 0 then depth
    else DepthAfter(depth, steps, k - 1) + match steps[k - 1]
                                           case Call => 1
                                           case Return => -1
                                           case Stray => -2
                                           case _ => 0
  }

  /** The resume goes on after step number `k`: no task suspends, and the root does not return. */
  predicate GoesOn(depth: nat, steps: seq<Step>, k: nat)
    requires k < |steps|
  {
    !steps[k].BeginIo? && !steps[k].Yield? && DepthAfter(depth, steps, k + 1) > 0
  }

  lemma {:induction false} DepthShifts(depth: int, steps: seq<Step>, k: nat)
    requires 1 <= k <= |steps|
    ensures DepthAfter(depth, steps, k) == DepthAfter(DepthAfter(depth, steps, 1), steps[1..], k - 1)
  {
    if k > 1 {
      DepthShifts(depth, steps, k - 1);
      assert steps[1..][k - 2] == steps[k - 1];
    }
  }

  /**
   A resume ends with the first step that does not let it go on: with the suspension that this step asks for, with the
   return of the root, or running, if the root itself strays or nothing more happens.
   */
  lemma {:induction false} ResumeEndsWith(depth: nat, steps: seq<Step>, k: nat)
    requires depth > 0 && k <= |steps| && (forall j | 0 <= j < k :: GoesOn(depth, steps, j))
    requires k < |steps| ==> !GoesOn(depth, steps, k)
    ensures Outcome(depth, steps) == if k == |steps| then Running
                                     else if steps[k].BeginIo? then AwaitingIo
                                     else if steps[k].Yield? then Yielded
                                     else if steps[k].Stray? && DepthAfter(depth, steps, k) == 1 then Running
                                     else Completed
    decreases k
  {
    if k > 0 {
      var rest, below := steps[1..], DepthAfter(depth, steps, 1);
      assert GoesOn(depth, steps, 0);
      forall j: nat | j <= |rest| ensures DepthAfter(below, rest, j) == DepthAfter(depth, steps, j + 1) {
        DepthShifts(depth, steps, j + 1);
      }
      forall j | 0 <= j < k - 1 ensures GoesOn(below, rest, j) {
        assert GoesOn(depth, steps, j + 1) && rest[j] == steps[j + 1];
      }
      ResumeEndsWith(below, rest, k - 1);
    }
  }

  /** A root task and the nested tasks that are awaited below it, innermost last. */
  class ActorTaskChain {
    var frames: seq<Frame>
    var source: nat              // the shared epoch counter

    predicate Valid()
      reads this
    {
      frames != [] && forall i | 0 <= i < |frames| :: frames[i].epoch <= source
    }

    constructor ()
      ensures Valid() && frames == [Frame(Initial, 0)] && source == 0
    {
      frames, source := [Frame(Initial, 0)], 0;
    }

    function Root(): Frame
      reads this
      requires frames != []
    {
      frames[0]
    }

    /** `begin_io_suspension` of the innermost task. */
    method BeginIoSuspension()
      requires Valid()
      modifies this
      ensures Valid() && source == old(source) + 1
      ensures frames == old(frames)[|old(frames)| - 1 := Frame(AwaitingIo, source)]
    {
      source := source + 1;
      frames := frames[|frames| - 1 := Frame(AwaitingIo, source)];
    }

    /** Every outer task in turn adopts what its nested task reports. */
    method Forward()
      requires Valid() && (frames[|frames| - 1].suspension.Yielded? || frames[|frames| - 1].suspension.AwaitingIo?)
      modifies this`frames
      ensures Valid() && |frames| == |old(frames)|
      ensures var leaf := old(frames)[|old(frames)| - 1];
              forall i | 0 <= i < |frames| ::
                && frames[i].suspension == leaf.suspension
                && (leaf.suspension.AwaitingIo? ==> frames[i].epoch == leaf.epoch)
    {
      var i := |frames| - 1;
      while i > 0
        invariant 0 <= i < |frames| == |old(frames)| && Valid()
        invariant frames[..i + 1] == old(frames)[..i] + [frames[i]]
        invariant forall k | i <= k < |frames| ::
                    && frames[k].suspension == old(frames)[|old(frames)| - 1].suspension
                    && (frames[k].suspension.AwaitingIo? ==> frames[k].epoch == old(frames)[|old(frames)| - 1].epoch)
      {
        var nested := frames[i];
        var outer := frames[i - 1];
        frames := frames[i - 1 := if nested.suspension.AwaitingIo? then Frame(AwaitingIo, nested.epoch)
                                  else outer.(suspension := Yielded)];
        i := i - 1;
      }
    }

    /** `resume` of the root runs down to the innermost task. */
    method EnterRunning()
      requires Valid()
      modifies this`frames
      ensures Valid() && |frames| == |old(frames)|
      ensures forall i | 0 <= i < |frames| :: frames[i] == old(frames)[i].(suspension := Running)
    {
      var i := 0;
      while i < |frames|
        invariant i <= |frames| == |old(frames)|
        invariant forall k | 0 <= k < i :: frames[k] == old(frames)[k].(suspension := Running)
        invariant forall k | i <= k < |frames| :: frames[k] == old(frames)[k]
      {
        frames := frames[i := frames[i].(suspension := Running)];
        i := i + 1;
      }
    }

    /**
     One resume of the root while its tasks take the given steps. It begins at most one I/O epoch; if it does, it
     ends with every task of the chain, the root included, suspended on that epoch, which is newer than all before.
     */
    method Resume(steps: seq<Step>) returns (done: bool)
      requires Valid()
      modifies this
      ensures Valid() && old(source) <= source <= old(source) + 1
      ensures source > old(source) <==> Root().suspension.AwaitingIo?
      ensures Root().suspension.AwaitingIo? ==> Agree(frames, AwaitingIo, source)
      ensures Root().suspension.Yielded? ==> forall i | 0 <= i < |frames| :: frames[i].suspension.Yielded?
      ensures Root().suspension == Outcome(|old(frames)|, steps)
      ensures done <==> Root().suspension.Completed?
    {
      EnterRunning();
      done := false;
      var k := 0;
      while k < |steps|
        invariant k <= |steps| && Valid() && source == old(source)
        invariant forall i | 0 <= i < |frames| :: frames[i].suspension.Running?
        invariant Outcome(|frames|, steps[k..]) == Outcome(|old(frames)|, steps)
      {
        assert steps[k..][1..] == steps[k + 1..];
        match steps[k] {
          case Call => frames := frames + [Frame(Running, 0)];
          case Return =>
            if |frames| == 1 {
              frames := [Frame(Completed, frames[0].epoch)];
              return true;
            }
            frames := frames[..|frames| - 1];
          case BeginIo =>
            BeginIoSuspension();
            Forward();
            return;
          case Yield =>
            frames := frames[|frames| - 1 := frames[|frames| - 1].(suspension := Yielded)];
            Forward();
            return;
          case Stray =>
            if |frames| == 1 {
              return;
            }
            frames := frames[..|frames| - 1];      // the outer task fails with actor_invalid_suspension and returns
            if |frames| == 1 {
              frames := [Frame(Completed, frames[0].epoch)];
              return true;
            }
            frames := frames[..|frames| - 1];
        }
        k := k + 1;
      }
    }
  }

  // ----- operations -----

  datatype OperationPhase = Pending | Finished | Abandoned

  datatype Taken<T> = Value(value: T) | Raised(error: string)

  const TOO_EARLY := "Asio actor operation resumed before completion"

  /** `notices` counts the calls of `make_runnable`. */
  class ActorAsioOperation<T> {
    var phase: OperationPhase
    var value: Option<T>
    var exception: Option<string>
    var attached: Option<nat>        // the epoch to notify
    ghost var notices: seq<nat>

    /** Notified once, on the attached epoch, exactly when it completed. */
    ghost predicate Valid()
      reads this
    {
      && (phase.Finished? ==> value.Some? || exception.Some?)
      && notices == if phase.Finished? && attached.Some? then [attached.value] else []
    }

    constructor ()
      ensures Valid() && phase == Pending && notices == [] && attached == None
    {
      phase, value, exception, attached := Pending, None, None, None;
      notices := [];
    }

    /** Attaching comes before the operation is started. */
    method Attach(epoch: nat)
      requires Valid() && phase.Pending? && attached.None?
      modifies this`attached
      ensures Valid() && attached == Some(epoch)
    {
      attached := Some(epoch);
    }

    /** `publish_completion`: the first to find the operation pending notifies. */
    method PublishCompletion()
      requires (phase.Finished? ==> Valid()) && (value.Some? || exception.Some?)
      requires notices == if phase.Finished? && attached.Some? then [attached.value] else []
      modifies this`phase, this`notices
      ensures Valid() && phase == (if old(phase).Pending? then Finished else old(phase))
      ensures notices == old(notices) + if old(phase).Pending? && attached.Some? then [attached.value] else []
    {
      if phase.Pending? {
        phase := Finished;
        if attached.Some? {
          notices := notices + [attached.value];
        }
      }
    }

    method Complete(result: T, error: Option<string>)
      requires Valid()
      modifies this`phase, this`value, this`exception, this`notices
      ensures Valid() && value == Some(result) && exception == error
      ensures phase == if old(phase).Pending? then Finished else old(phase)
      ensures notices == old(notices) + if old(phase).Pending? && attached.Some? then [attached.value] else []
      ensures |notices| <= 1
    {
      value := Some(result);
      exception := error;
      PublishCompletion();
    }

    method CompleteException(error: string)
      requires Valid()
      modifies this`phase, this`exception, this`notices
      ensures Valid() && exception == Some(error)
      ensures phase == if old(phase).Pending? then Finished else old(phase)
      ensures notices == old(notices) + if old(phase).Pending? && attached.Some? then [attached.value] else []
      ensures |notices| <= 1
    {
      exception := Some(error);
      PublishCompletion();
    }

    method Abandon()
      requires Valid()
      modifies this`phase
      ensures Valid() && phase == if old(phase).Pending? then Abandoned else old(phase)
    {
      if phase.Pending? {
        phase := Abandoned;
      }
    }

    /** After the notification the result is there; before it, taking it is an error. */
    method TakeResult() returns (r: Taken<T>)
      requires Valid()
      ensures notices != [] ==> phase.Finished?
      ensures phase.Finished? ==>
                if exception.Some? then r == Raised(exception.value) else value.Some? && r == Value(value.value)
      ensures !phase.Finished? ==> r == Raised(TOO_EARLY)
    {
      if !phase.Finished? {
        return Raised(TOO_EARLY);
      }
      if exception.Some? {
        return Raised(exception.value);
      }
      r := Value(value.value);
    }
  }
}
