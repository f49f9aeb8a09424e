/**
 The reload controller and the route state of a generation as objects. Each method is one critical section; `s` is a
 protocol state that shows the same gate and generations, and the method is proved to move along with it.
 */
module ReloadObjects {
  import opened Wrappers
  import opened Reload

  class RuntimeGeneration {
    var accepting: bool
    var down: bool
    var inFlight: nat
    var drainWaiters: set<nat>

    predicate Valid()
      reads this
    {
      down ==> !accepting
    }

    function Value(): Generation
      reads this
    {
      Generation(!accepting, inFlight)
    }

    constructor ()
      ensures Valid() && Value() == Generation(false, 0) && drainWaiters == {}
    {
      accepting, down, inFlight, drainWaiters := true, false, 0, {};
    }

    method AdmitRoute() returns (admitted: bool)
      requires Valid()
      modifies this`inFlight
      ensures admitted <==> accepting
      ensures inFlight == old(inFlight) + if admitted then 1 else 0
    {
      admitted := accepting && !down;
      if admitted {
        inFlight := inFlight + 1;
      }
    }

    /** Returns the timers of those who wait for the last route to end. */
    method ReleaseRoute() returns (woken: set<nat>)
      modifies this`inFlight, this`drainWaiters
      ensures inFlight == if old(inFlight) == 0 then 0 else old(inFlight) - 1
      ensures old(inFlight) == 1 ==> woken == old(drainWaiters) && drainWaiters == {}
      ensures old(inFlight) != 1 ==> woken == {} && drainWaiters == old(drainWaiters)
    {
      woken := {};
      if inFlight == 0 {
        return;
      }
      inFlight := inFlight - 1;
      if inFlight != 0 {
        return;
      }
      woken := drainWaiters;
      drainWaiters := {};
    }

    /** One look of `async_wait_for_drain`: the routes are gone, or the timer is registered for the last one's end. */
    method LookForDrain(timer: nat) returns (drained: bool)
      modifies this`drainWaiters
      ensures drained <==> inFlight == 0
      ensures drainWaiters == if drained then old(drainWaiters) else old(drainWaiters) + {timer}
    {
      drained := inFlight == 0;
      if !drained {
        drainWaiters := drainWaiters + {timer};
      }
    }

    method Shutdown()
      requires Valid()
      modifies this`down, this`accepting
      ensures Valid() && down && !accepting
    {
      if down {
        return;
      }
      down := true;
      accepting := false;
    }
  }

  class ActorRuntimeReloadController {
    const gens: seq<RuntimeGeneration>
    var active: Option<nat>
    var open: bool
    var closing: bool
    var waiters: set<nat>

    ghost predicate Valid()
      reads this, gens
    {
      && (forall g, h | 0 <= g < h < |gens| :: gens[g] != gens[h])
      && (forall g | 0 <= g < |gens| :: gens[g].Valid())
      && (active.Some? ==> active.value < |gens|)
    }

    /** The object and the protocol state agree on the gate and on the generations. */
    ghost predicate Shows(s: State)
      reads this, gens
    {
      && s.active == active && s.open == open && s.closing == closing && s.waiters == waiters
      && |s.gens| == |gens| && forall g | 0 <= g < |gens| :: s.gens[g] == gens[g].Value()
    }

    /** The generations exist from the start here; the protocol adds them as they are built. */
    constructor (gens: seq<RuntimeGeneration>)
      requires |gens| > 0 && (forall g, h | 0 <= g < h < |gens| :: gens[g] != gens[h])
      requires forall g | 0 <= g < |gens| :: gens[g].Valid()
      ensures Valid() && this.gens == gens && active == Some(0) && open && !closing && waiters == {}
    {
      this.gens := gens;
      active, open, closing, waiters := Some(0), true, false, {};
    }

    /** The section of `process` under the gate mutex. */
    method PassGate(i: nat, ghost s: State) returns (call: Ingress)
      requires Valid() && Shows(s) && i < |s.ingress|
      modifies this`waiters, gens
      ensures Valid() && Shows(PassStep(s, i)) && call == PassStep(s, i).ingress[i]
      ensures closing ==> call == Refused
      ensures !closing && !open ==> call == Parked(false, false)
      ensures !closing && open ==> call == if active.Some? && gens[active.value].accepting then Routed(active.value, 1)
                                           else Refused
      ensures waiters == if !closing && !open then old(waiters) + {i} else old(waiters)
      ensures forall g | 0 <= g < |gens| ::
                && gens[g].accepting == old(gens[g].accepting)
                && gens[g].inFlight == old(gens[g].inFlight) + if call.Routed? && call.gen == g then 1 else 0
    {
      if closing {
        return Refused;
      }
      if !open {
        waiters := waiters + {i};
        return Parked(false, false);
      }
      if active.None? {
        return Refused;
      }
      var g := active.value;
      var admitted := gens[g].AdmitRoute();
      call := if admitted then Routed(g, 1) else Refused;
    }

    /** Hands out everybody who waits at the gate. */
    method TakeWaiters() returns (summoned: set<nat>)
      modifies this`waiters
      ensures waiters == {} && summoned == old(waiters)
    {
      summoned := waiters;
      waiters := {};
    }

    /** The section of `cutover` that closes the gate. */
    method CloseGate(prev: nat, ghost s: State, ghost r: nat) returns (closed: bool)
      requires Valid() && Shows(s) && r < |s.requests|
      requires s.requests[r].phase.Compared? && s.requests[r].phase.prev == prev
      modifies this`open
      ensures Valid() && Shows(EarlyStep(s, r, Succeeds))
      ensures closed <==> EarlyStep(s, r, Succeeds).requests[r].phase.Draining?
      ensures closed <==> !closing && active == Some(prev)
      ensures open == (old(open) && !closed)
    {
      closed := !closing && active == Some(prev);
      if closed {
        open := false;
      }
    }

    /** The section of `cutover` after a drain that took too long. */
    method ReopenUndrained(prev: nat, ghost s: State, ghost r: nat) returns (summoned: set<nat>)
      requires Valid() && Shows(s) && r < |s.requests|
      requires s.requests[r].phase.TimedOut? && s.requests[r].phase.prev == prev
      modifies this`open, this`waiters
      ensures Valid() && Shows(EarlyStep(s, r, Fails))
      ensures EarlyStep(s, r, Fails).summoned == s.summoned + summoned
      ensures if !closing && active == Some(prev) then open && waiters == {} && summoned == old(waiters)
              else open == old(open) && waiters == old(waiters) && summoned == {}
    {
      summoned := {};
      if !closing && active == Some(prev) {
        open := true;
        summoned := TakeWaiters();
      }
    }

    /** The section of `cutover` that makes the candidate active. */
    method Swap(cand: nat, prev: nat, ghost s: State, ghost r: nat) returns (swapped: bool)
      requires Valid() && Shows(s) && r < |s.requests| && cand < |gens|
      requires s.requests[r].phase == Drained(cand, prev)
      modifies this`active
      ensures Valid() && Shows(LateStep(s, r))
      ensures swapped <==> LateStep(s, r).requests[r].phase.Swapped?
      ensures swapped <==> !closing && old(active) == Some(prev)
      ensures active == if swapped then Some(cand) else old(active)
    {
      swapped := !closing && active == Some(prev);
      if swapped {
        active := Some(cand);
      }
    }

    method ShutGeneration(g: nat, ghost s: State)
      requires Valid() && Shows(s) && g < |gens|
      modifies gens
      ensures Valid() && Shows(Downed(s, g)) && gens[g].down
    {
      gens[g].Shutdown();
    }

    /** The section of `cutover` that opens the gate to the candidate. */
    method OpenGate(cand: nat, prev: nat, ghost s: State, ghost r: nat) returns (reopened: bool, summoned: set<nat>)
      requires Valid() && Shows(s) && r < |s.requests|
      requires s.requests[r].phase == Retired(cand, prev)
      modifies this`open, this`waiters
      ensures Valid() && Shows(LateStep(s, r))
      ensures LateStep(s, r).summoned == s.summoned + summoned
      ensures reopened <==> LateStep(s, r).requests[r].phase.status == Succeeded
      ensures reopened <==> !closing && active == Some(cand)
      ensures if reopened then open && waiters == {} && summoned == old(waiters)
              else open == old(open) && waiters == old(waiters) && summoned == {}
    {
      reopened, summoned := !closing && active == Some(cand), {};
      if reopened {
        open := true;
        summoned := TakeWaiters();
      }
    }

    method BeginShutdown(ghost s: State) returns (summoned: set<nat>)
      requires Valid() && Shows(s)
      modifies this`open, this`closing, this`waiters
      ensures Valid() && Shows(Next(s, Action.BeginShutdown))
      ensures Next(s, Action.BeginShutdown).summoned == s.summoned + summoned
      ensures closing && if old(closing) then open == old(open) && waiters == old(waiters) && summoned == {}
                         else !open && waiters == {} && summoned == old(waiters)
    {
      summoned := {};
      if closing {
        return;
      }
      closing, open := true, false;
      summoned := TakeWaiters();
    }

    /** The exchange in `shutdown`; the caller shuts down what it gets. */
    method TakeActive(ghost s: State) returns (taken: Option<nat>)
      requires Valid() && Shows(s) && s.closing
      modifies this`active
      ensures Valid() && Shows(Next(s, Exchange))
      ensures taken == old(active) && active == None
      ensures Next(s, Exchange).doomed == s.doomed + if taken.Some? then {taken.value} else {}
    {
      taken := active;
      active := None;
    }
  }
}
