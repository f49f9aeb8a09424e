/** The write queue and its requests as objects; each method is one atomic operation or runs while no other thread does. */
module WriteQueueObjects {
  import opened Wrappers

  class WriteRequest {
    const message: string
    var finished: bool
    var completion: seq<bool>      // what was sent to the waiting sender (true: success)

    /** Nothing is sent before the flag is set, and one completion after. */
    predicate Valid()
      reads this
    {
      |completion| == if finished then 1 else 0
    }

    constructor (message: string)
      ensures Valid() && !finished && completion == [] && this.message == message
    {
      this.message := message;
      finished, completion := false, [];
    }

    method Finish(ok: bool)
      requires Valid()
      modifies this
      ensures Valid() && finished
      ensures completion == if old(finished) then old(completion) else [ok]
    {
      if finished {
        return;
      }
      finished := true;
      completion := completion + [ok];
    }
  }

  class WebsocketWriteQueue {
    const capacity: nat
    var requests: seq<WriteRequest>
    var closed: bool
    var stopped: bool
    var failure: Option<string>
    var active: Option<WriteRequest>

    ghost predicate Valid()
      reads this, requests
    {
      && 0 < capacity && |requests| <= capacity
      && (forall i, j | 0 <= i < j < |requests| :: requests[i] != requests[j])
      && (forall i | 0 <= i < |requests| :: requests[i].Valid())
    }

    constructor (capacity: nat)
      requires capacity > 0
      ensures Valid() && requests == [] && !closed && !stopped && active == None && this.capacity == capacity
    {
      this.capacity := capacity;
      requests, closed, stopped, failure, active := [], false, false, None, None;
    }

    /** A send that does not have to wait: refused, or accepted with a fresh request. */
    method TrySend(message: string) returns (request: Option<WriteRequest>)
      requires Valid()
      modifies this`requests
      ensures Valid()
      ensures request.None? <==> old(stopped) || old(closed) || |old(requests)| == capacity
      ensures request.None? ==> requests == old(requests)
      ensures request.Some? ==>
                && requests == old(requests) + [request.value] && fresh(request.value)
                && request.value.message == message && !request.value.finished
    {
      if stopped || closed || |requests| == capacity {
        return None;
      }
      var created := new WriteRequest(message);
      requests := requests + [created];
      request := Some(created);
    }

    method SetActive(request: WriteRequest)
      modifies this`active
      ensures active == Some(request)
    {
      active := Some(request);
    }

    method ClearActive(request: WriteRequest)
      modifies this`active
      ensures active == if old(active) == Some(request) then None else old(active)
    {
      if active == Some(request) {
        active := None;
      }
    }

    /** `drain_queued`: every queued request is finished with a failure, in order, unless it was finished before. */
    method DrainQueued()
      requires Valid()
      modifies this`requests, requests
      ensures Valid() && requests == []
      ensures forall i | 0 <= i < |old(requests)| ::
                var request := old(requests)[i];
                request.finished && request.completion == if old(request.finished) then old(request.completion) else [false]
    {
      ghost var all := requests;
      var taken := 0;
      while requests != []
        invariant taken <= |all| && requests == all[taken..] && Valid()
        invariant forall i, j | 0 <= i < j < |all| :: all[i] != all[j]
        invariant forall i | 0 <= i < taken :: all[i].finished && all[i].Valid()
        invariant forall i | 0 <= i < taken ::
                    all[i].completion == if old(all[i].finished) then old(all[i].completion) else [false]
        invariant forall i | taken <= i < |all| ::
                    all[i].finished == old(all[i].finished) && all[i].completion == old(all[i].completion)
        decreases |requests|
      {
        var request := requests[0];
        assert request == all[taken];
        requests := requests[1..];
        request.Finish(false);
        taken := taken + 1;
      }
    }

    /** `stop`, when no other thread comes in between: only the first call has an effect. */
    method Stop(reason: Option<string>)
      requires Valid() && (active.Some? ==> active.value.Valid() && active.value !in requests)
      modifies this, requests, if active.Some? then {active.value} else {}
      ensures Valid() && stopped
      ensures old(stopped) ==> requests == old(requests) && failure == old(failure) && closed == old(closed)
      ensures !old(stopped) ==>
                && closed && requests == [] && (reason.Some? ==> failure == reason) && failure.Some?
                && (active.Some? ==> active.value.finished)
                && forall i | 0 <= i < |old(requests)| :: old(requests)[i].finished && |old(requests)[i].completion| == 1
    {
      if stopped {
        return;
      }
      stopped := true;
      failure := if reason.Some? then reason else Some("operation_aborted");
      var captured := active;
      closed := true;
      if captured.Some? {
        captured.value.Finish(false);
      }
      ghost var all := requests;
      assert forall i | 0 <= i < |all| :: all[i].Valid();
      DrainQueued();
    }
  }
}
