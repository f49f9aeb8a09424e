/** What calls, reloads and the metrics of the reload protocol do in every run. */
module ReloadSteps {
  import opened Wrappers
  import opened Sums
  import opened Reload
  import opened ReloadInvariant
  import opened ReloadProofs
  import opened ReloadTheorems

  // ----- calls -----

  /** A call that reaches a closed gate before any shutdown is parked and registered, and nothing else happens. */
  lemma ClosedGateParks(states: seq<State>, actions: seq<Action>, k: nat, i: nat)
    requires IsRun(states, actions) && k < |actions| && actions[k] == PassGate(i)
    requires !states[k].open && !states[k].closing
    ensures var s, s' := states[k], states[k + 1];
            && i < |s'.ingress| && s'.ingress[i] == Parked(false, false) && i in s'.waiters
            && s' == s.(ingress := s'.ingress, waiters := s'.waiters)
  {
  }

  lemma CallMoves(s: State, a: Action, i: nat)
    requires Guard(s, a) && !a.Advance? && i < |s.ingress| && s.ingress[i].Parked?
    requires i < |Next(s, a).ingress| && Next(s, a).ingress[i] != s.ingress[i]
    ensures if Next(s, a).ingress[i].Parked? then a == Await(i) || a == Expire(i)
            else Next(s, a).ingress[i] == Arriving && s.ingress[i] == Parked(true, true)
  {
  }

  /** A parked call leaves the gate's queue only to try again, after it was told. */
  lemma ParkedCallsTryAgain(states: seq<State>, actions: seq<Action>, k: nat, i: nat)
    requires IsRun(states, actions) && k < |actions| && i < |states[k].ingress| && states[k].ingress[i].Parked?
    requires i < |states[k + 1].ingress| && states[k + 1].ingress[i] != states[k].ingress[i]
    ensures if states[k + 1].ingress[i].Parked? then actions[k] == Await(i) || actions[k] == Expire(i)
            else states[k + 1].ingress[i] == Arriving && states[k].ingress[i] == Parked(true, true)
  {
    if actions[k].Advance? {
      RunHolds(states, actions, k);
      AdvanceStepped(states[k], actions[k].r, actions[k].choice);
    } else {
      CallMoves(states[k], actions[k], i);
    }
  }

  predicate RefusedOnlyClosing(s: State) {
    forall i | 0 <= i < |s.ingress| && s.ingress[i].Refused? :: s.closing
  }

  lemma PassRefuses(s: State, i: nat)
    requires Inv(s) && Guard(s, PassGate(i)) && RefusedOnlyClosing(s)
    ensures RefusedOnlyClosing(PassStep(s, i))
  {
  }

  lemma StepRefuses(s: State, a: Action)
    requires Inv(s) && Guard(s, a) && RefusedOnlyClosing(s)
    ensures RefusedOnlyClosing(Next(s, a))
  {
    if a.PassGate? {
      PassRefuses(s, a.i);
    } else if a.Advance? {
      AdvanceStepped(s, a.r, a.choice);
    } else {
      OtherRefuses(s, a);
    }
  }

  lemma OtherRefuses(s: State, a: Action)
    requires Guard(s, a) && !a.PassGate? && !a.Advance? && RefusedOnlyClosing(s)
    ensures RefusedOnlyClosing(Next(s, a))
  {
  }

  lemma {:induction false} RefusalsHold(states: seq<State>, actions: seq<Action>, n: nat)
    requires IsRun(states, actions) && n < |states|
    ensures RefusedOnlyClosing(states[n])
  {
    if n > 0 {
      RefusalsHold(states, actions, n - 1);
      RunHolds(states, actions, n - 1);
      StepRefuses(states[n - 1], actions[n - 1]);
    }
  }

  /** No reload ever costs a message: a call is refused only if a shutdown has begun. */
  lemma RefusedMeansClosing(states: seq<State>, actions: seq<Action>, n: nat, i: nat)
    requires IsRun(states, actions) && n < |states| && i < |states[n].ingress| && states[n].ingress[i].Refused?
    ensures states[n].closing
  {
    RefusalsHold(states, actions, n);
  }

  /** The calls that hold a route of the generation. */
  function Routes(ingress: seq<Ingress>, g: nat): nat {
    if ingress == [] then 0
    else (if ingress[0].Routed? && ingress[0].holders > 0 && ingress[0].gen == g then 1 else 0) + Routes(ingress[1..], g)
  }

  lemma {:induction false} RoutesAreLeases(ingress: seq<Ingress>, g: nat)
    ensures Routes(ingress, g) == Sum(ingress, Lease, Some(g))
  {
    if ingress != [] {
      RoutesAreLeases(ingress[1..], g);
    }
  }

  /** The in-flight count of a generation is the number of calls that still hold a route of it. */
  lemma FlightsAreRoutes(states: seq<State>, actions: seq<Action>, n: nat, g: nat)
    requires IsRun(states, actions) && n < |states| && g < |states[n].gens|
    ensures states[n].gens[g].inFlight == Routes(states[n].ingress, g)
  {
    RunHolds(states, actions, n);
    RoutesAreLeases(states[n].ingress, g);
  }

  // ----- a reload from the slot to its result -----

  /** A stretch of steps that all advance one request. */
  ghost predicate Stretch(states: seq<State>, r: nat, choices: seq<Choice>) {
    && |states| == |choices| + 1
    && forall k | 0 <= k < |choices| ::
         Guard(states[k], Advance(r, choices[k])) && states[k + 1] == Next(states[k], Advance(r, choices[k]))
  }

  /** Where a request stands, and what it finds. */
  predicate At(s: State, r: nat, phase: Phase, active: nat, open: bool) {
    && r < |s.requests| && s.requests[r].phase == phase && s.active == Some(active) && s.open == open && !s.closing
    && active < |s.gens|
  }

  lemma CandidateReady(s: State, r: nat, prev: nat)
    requires At(s, r, Preparing, prev, true)
    ensures var s' := Next(s, Advance(r, Succeeds));
            && Guard(s, Advance(r, Succeeds)) && At(s', r, Chosen(|s.gens|), prev, true)
            && s'.gens == s.gens + [Generation(false, 0)] && s'.counters == s.counters && s'.slot == s.slot
  {
  }

  lemma GateCloses(s: State, r: nat, cand: nat, prev: nat) returns (states: seq<State>)
    requires At(s, r, Chosen(cand), prev, true)
    ensures Stretch(states, r, [Succeeds, Succeeds]) && states[0] == s
    ensures At(states[2], r, Draining(cand, prev), prev, false) && states[2].gens == s.gens
    ensures states[2].counters == s.counters && states[2].slot == s.slot
  {
    var s1 := Next(s, Advance(r, Succeeds));
    assert At(s1, r, Compared(cand, prev), prev, true);
    states := [s, s1, Next(s1, Advance(r, Succeeds))];
  }

  lemma DrainEnds(s: State, r: nat, cand: nat, prev: nat) returns (states: seq<State>)
    requires At(s, r, Draining(cand, prev), prev, false) && s.gens[prev].inFlight == 0 && cand < |s.gens|
    ensures Stretch(states, r, [Succeeds, Succeeds]) && states[0] == s
    ensures At(states[2], r, Swapped(cand, prev), cand, false)
    ensures states[2] == s.(requests := states[2].requests, active := Some(cand))
  {
    var s1 := Next(s, Advance(r, Succeeds));
    assert At(s1, r, Drained(cand, prev), prev, false);
    states := [s, s1, Next(s1, Advance(r, Succeeds))];
  }

  lemma GateOpens(s: State, r: nat, cand: nat, prev: nat) returns (states: seq<State>)
    requires At(s, r, Swapped(cand, prev), cand, false) && prev < |s.gens|
    ensures Stretch(states, r, [Succeeds, Succeeds]) && states[0] == s
    ensures At(states[2], r, Outcome(Succeeded, false, Some(cand)), cand, true)
    ensures states[2] == s.(requests := states[2].requests, open := true, waiters := {},
                            summoned := s.summoned + s.waiters, retired := s.retired + {prev},
                            gens := s.gens[prev := s.gens[prev].(down := true)])
  {
    var s1 := Next(s, Advance(r, Succeeds));
    assert At(s1, r, Retired(cand, prev), cand, false);
    states := [s, s1, Next(s1, Advance(r, Succeeds))];
  }

  lemma Cutover(s: State, r: nat, cand: nat, prev: nat) returns (states: seq<State>)
    requires At(s, r, Draining(cand, prev), prev, false) && s.gens[prev].inFlight == 0 && cand < |s.gens|
    ensures Stretch(states, r, [Succeeds, Succeeds, Succeeds, Succeeds]) && states[0] == s
    ensures At(states[4], r, Outcome(Succeeded, false, Some(cand)), cand, true)
    ensures states[4].gens == s.gens[prev := s.gens[prev].(down := true)] && prev in states[4].retired
    ensures states[4].waiters == {} && states[4].summoned == s.summoned + s.waiters
    ensures states[4].counters == s.counters && states[4].slot == s.slot
  {
    var draining := DrainEnds(s, r, cand, prev);
    var opening := GateOpens(draining[2], r, cand, prev);
    Joined(draining, [Succeeds, Succeeds], opening, [Succeeds, Succeeds], r);
    states := draining + opening[1..];
    assert [Succeeds, Succeeds] + [Succeeds, Succeeds] == [Succeeds, Succeeds, Succeeds, Succeeds];
  }

  /** Recording counts the result once and then gives the slot back. */
  lemma Recorded(s: State, r: nat, status: Status, timeout: bool, active: Option<nat>) returns (states: seq<State>)
    requires r < |s.requests| && s.requests[r].phase == Outcome(status, timeout, active)
    ensures Stretch(states, r, [Succeeds, Succeeds]) && states[0] == s
    ensures var s', c, c' := states[2], s.counters, states[2].counters;
            && s' == s.(requests := s'.requests, counters := c', slot := false)
            && r < |s'.requests| && s'.requests[r].phase == Finished(status)
            && c'.requests == c.requests && c'.accepted == c.accepted
            && c'.succeeded == c.succeeded + (if status == Succeeded then 1 else 0)
            && c'.busy == c.busy + (if status == Busy then 1 else 0)
            && c'.failed == c.failed + (if status == Failed || status == Shutdown then 1 else 0)
            && c'.timeouts == c.timeouts + (if timeout && (status == Failed || status == Shutdown) then 1 else 0)
  {
    var s1 := Next(s, Advance(r, Succeeds));
    states := [s, s1, Next(s1, Advance(r, Succeeds))];
  }

  lemma Joined(a: seq<State>, p: seq<Choice>, b: seq<State>, q: seq<Choice>, r: nat)
    requires Stretch(a, r, p) && Stretch(b, r, q) && a[|p|] == b[0]
    ensures Stretch(a + b[1..], r, p + q)
    ensures (a + b[1..])[0] == a[0] && (a + b[1..])[|p + q|] == b[|q|]
  {
    var states, choices := a + b[1..], p + q;
    forall k | 0 <= k < |choices|
      ensures Guard(states[k], Advance(r, choices[k])) && states[k + 1] == Next(states[k], Advance(r, choices[k]))
    {
      if k >= |p| {
        assert states[k] == b[k - |p|] && states[k + 1] == b[k - |p| + 1] && choices[k] == q[k - |p|];
      } else {
        assert states[k] == a[k] && states[k + 1] == a[k + 1];
      }
    }
  }

  const SWITCHING: seq<Choice> := [Succeeds, Succeeds, Succeeds, Succeeds, Succeeds, Succeeds, Succeeds]

  /** From the claimed slot to the outcome. */
  lemma ReloadSwitches(s: State, r: nat, prev: nat) returns (states: seq<State>)
    requires At(s, r, Preparing, prev, true) && s.gens[prev].inFlight == 0
    ensures Stretch(states, r, SWITCHING) && states[0] == s
    ensures var s', cand := states[|SWITCHING|], |s.gens|;
            && At(s', r, Outcome(Succeeded, false, Some(cand)), cand, true)
            && s'.gens == s.gens[prev := s.gens[prev].(down := true)] + [Generation(false, 0)]
            && s'.waiters == {} && s'.counters == s.counters
  {
    CandidateReady(s, r, prev);
    var ready := Next(s, Advance(r, Succeeds));
    var closing := GateCloses(ready, r, |s.gens|, prev);
    Joined([s, ready], [Succeeds], closing, [Succeeds, Succeeds], r);
    var switching := Cutover(closing[2], r, |s.gens|, prev);
    Joined([s, ready] + closing[1..], [Succeeds] + [Succeeds, Succeeds], switching,
           [Succeeds, Succeeds, Succeeds, Succeeds], r);
    states := [s, ready] + closing[1..] + switching[1..];
    assert [Succeeds] + [Succeeds, Succeeds] + [Succeeds, Succeeds, Succeeds, Succeeds] == SWITCHING;
  }

  /**
   A reload whose candidate can be prepared, and that finds no route left, goes through when nobody disturbs it: the
   candidate is then active behind an open gate, the previous generation is shut down, nobody waits at the gate, the
   success is counted and the slot is free.
   */
  lemma ReloadGoesThrough(s: State, r: nat) returns (states: seq<State>)
    requires Inv(s) && !s.closing && r < |s.requests| && s.requests[r].phase.Preparing?
    requires s.active.Some? && s.active.value < |s.gens| && s.gens[s.active.value].inFlight == 0
    ensures Stretch(states, r, SWITCHING + [Succeeds, Succeeds]) && states[0] == s
    ensures var s', prev := states[|SWITCHING| + 2], s.active.value;
            && s'.active == Some(|s.gens|) && s'.open && !s'.closing && !s'.slot && s'.waiters == {}
            && s'.gens == s.gens[prev := s.gens[prev].(down := true)] + [Generation(false, 0)]
            && r < |s'.requests| && s'.requests[r].phase == Finished(Succeeded)
            && s'.counters == s.counters.(succeeded := s.counters.succeeded + 1)
  {
    assert OwnOk(s, r);
    var switching := ReloadSwitches(s, r, s.active.value);
    var recording := Recorded(switching[|SWITCHING|], r, Succeeded, false, Some(|s.gens|));
    Joined(switching, SWITCHING, recording, [Succeeds, Succeeds], r);
    states := switching + recording[1..];
  }

  lemma DrainFails(s: State, r: nat, cand: nat, prev: nat) returns (states: seq<State>)
    requires At(s, r, Draining(cand, prev), prev, false) && cand < |s.gens|
    ensures Stretch(states, r, [Fails, Succeeds, Succeeds]) && states[0] == s
    ensures states[3] == s.(requests := states[3].requests, open := true, waiters := {},
                            summoned := s.summoned + s.waiters, gens := s.gens[cand := s.gens[cand].(down := true)])
    ensures r < |states[3].requests| && states[3].requests[r].phase == Outcome(Failed, true, Some(prev))
  {
    var s1 := Next(s, Advance(r, Fails));
    assert At(s1, r, TimedOut(cand, prev), prev, false);
    var s2 := Next(s1, Advance(r, Succeeds));
    assert At(s2, r, Discarding(cand, Failed, true), prev, true);
    var s3 := Next(s2, Advance(r, Succeeds));
    assert s3 == s.(requests := s3.requests, open := true, waiters := {}, summoned := s.summoned + s.waiters,
                    gens := s.gens[cand := s.gens[cand].(down := true)]);
    states := [s, s1, s2, s3];
  }

  /**
   A drain that takes too long ends the reload as failed: the candidate is shut down, the gate is open again to the
   generation that stayed active, everybody who waited is being told, and failure and timeout are counted.
   */
  lemma TimeoutReopens(s: State, r: nat, cand: nat, prev: nat) returns (states: seq<State>)
    requires At(s, r, Draining(cand, prev), prev, false) && cand < |s.gens|
    ensures Stretch(states, r, [Fails, Succeeds, Succeeds] + [Succeeds, Succeeds]) && states[0] == s
    ensures var s' := states[5];
            && s'.active == Some(prev) && s'.open && !s'.slot && s'.gens == s.gens[cand := s.gens[cand].(down := true)]
            && s'.waiters == {} && s'.summoned == s.summoned + s.waiters
            && r < |s'.requests| && s'.requests[r].phase == Finished(Failed)
            && s'.counters == s.counters.(failed := s.counters.failed + 1, timeouts := s.counters.timeouts + 1)
  {
    var failing := DrainFails(s, r, cand, prev);
    var recording := Recorded(failing[3], r, Failed, true, Some(prev));
    Joined(failing, [Fails, Succeeds, Succeeds], recording, [Succeeds, Succeeds], r);
    states := failing + recording[1..];
  }

  // ----- metrics -----

  /** The requests whose result was recorded with this status. */
  function EndedWith(requests: seq<Request>, status: Status): nat {
    if requests == [] then 0
    else
      var p := requests[0].phase;
      (if (p.Recorded? || p.Finished?) && p.status == status then 1 else 0) + EndedWith(requests[1..], status)
  }

  lemma {:induction false} EndsAreSums(requests: seq<Request>)
    ensures EndedWith(requests, Succeeded) == Sum(requests, EndedAs, Some(0))
    ensures EndedWith(requests, Busy) == Sum(requests, EndedAs, Some(1))
    ensures EndedWith(requests, Failed) + EndedWith(requests, Shutdown) == Sum(requests, EndedAs, Some(2))
  {
    if requests != [] {
      EndsAreSums(requests[1..]);
    }
  }

  /** Every counter counts the requests that ended so; a reload that a shutdown stopped counts as failed. */
  lemma CountersCountResults(states: seq<State>, actions: seq<Action>, n: nat)
    requires IsRun(states, actions) && n < |states|
    ensures var s, c := states[n], states[n].counters;
            && c.requests == |s.requests|
            && c.succeeded == EndedWith(s.requests, Succeeded) && c.busy == EndedWith(s.requests, Busy)
            && c.failed == EndedWith(s.requests, Failed) + EndedWith(s.requests, Shutdown)
  {
    RunHolds(states, actions, n);
    EndsAreSums(states[n].requests);
  }

  /** How often the slot was taken in the first `n` steps. */
  function Claims(states: seq<State>, n: nat): nat
    requires n < |states|
  {
    if n == 0 then 0 else Claims(states, n - 1) + if !states[n - 1].slot && states[n].slot then 1 else 0
  }

  lemma AdvanceAccepts(s: State, r: nat, choice: Choice)
    requires SlotExact(s) && Guard(s, Advance(r, choice))
    ensures var s' := AdvanceStep(s, r, choice);
            s'.counters.accepted == s.counters.accepted + if !s.slot && s'.slot then 1 else 0
  {
    var p := s.requests[r].phase;
    if Early(p) {
      EarlyGoes(s, r, choice);
      EarlySlot(s, r, choice);
    } else if Late(p) {
      LateGoes(s, r);
      LateSlot(s, r);
    } else {
      OtherAccepts(s, r, choice);
    }
  }

  lemma OtherAccepts(s: State, r: nat, choice: Choice)
    requires Guard(s, Advance(r, choice)) && !Early(s.requests[r].phase) && !Late(s.requests[r].phase)
    ensures var s' := AdvanceStep(s, r, choice);
            s'.counters.accepted == s.counters.accepted + if !s.slot && s'.slot then 1 else 0
  {
  }

  lemma EarlySlot(s: State, r: nat, choice: Choice)
    requires r < |s.requests| && Early(s.requests[r].phase)
    ensures EarlyStep(s, r, choice).slot == s.slot
  {
  }

  lemma LateSlot(s: State, r: nat)
    requires r < |s.requests| && Late(s.requests[r].phase)
    ensures LateStep(s, r).slot == s.slot
  {
  }

  lemma NextAccepts(s: State, a: Action)
    requires SlotExact(s) && Guard(s, a)
    ensures Next(s, a).counters.accepted == s.counters.accepted + if !s.slot && Next(s, a).slot then 1 else 0
  {
    if a.Advance? {
      AdvanceAccepts(s, a.r, a.choice);
    }
  }

  /** `accepted` counts the requests that took the slot. */
  lemma {:induction false} AcceptedCountsClaims(states: seq<State>, actions: seq<Action>, n: nat)
    requires IsRun(states, actions) && n < |states|
    ensures states[n].counters.accepted == Claims(states, n)
  {
    if n > 0 {
      AcceptedCountsClaims(states, actions, n - 1);
      RunHolds(states, actions, n - 1);
      NextAccepts(states[n - 1], actions[n - 1]);
    }
  }
}
