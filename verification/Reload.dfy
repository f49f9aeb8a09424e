/**
 Hot reload as a state machine: ingress messages, reload requests and a shutdown interleave, one critical section of
 the gate or of a generation's route state, or one atomic operation, at a time. Generations are numbered in the order
 in which they were built.
 */
module Reload {
  import opened Wrappers

  /** A runtime generation: whether it has been shut down, and how many admitted routes still hold their lease. */
  datatype Generation = Generation(down: bool, inFlight: nat)

  /**
   One call of `process`. A parked call owns a timer: `waiting` says that its wait was initiated, `expired` that
   the timer's deadline was moved into the past. `holders` counts the coroutines of an admitted route, posted
   terminal stages included, that share its lease.
   */
  datatype Ingress =
    | Arriving
    | Parked(waiting: bool, expired: bool)
    | Routed(gen: nat, holders: nat)
    | Refused

  datatype Status = Succeeded | Failed | Busy | Shutdown

  /** Where a reload request stands; `cand` is its candidate, `prev` the generation that it replaces. */
  datatype Phase =
    | Counted
    | Confirmed                                               // start_reload saw an active generation
    | Turned(status: Status)                                  // refused without taking the slot
    | Preparing
    | Chosen(cand: nat)                                       // entered the cutover
    | Compared(cand: nat, prev: nat)
    | Draining(cand: nat, prev: nat)
    | TimedOut(cand: nat, prev: nat)
    | Drained(cand: nat, prev: nat)
    | Swapped(cand: nat, prev: nat)
    | Retired(cand: nat, prev: nat)
    | Discarding(cand: nat, status: Status, timeout: bool)    // about to shut the candidate down
    | Outcome(status: Status, timeout: bool, active: Option<nat>)
    | Recorded(status: Status)
    | Finished(status: Status)
    | Escaped                                                 // left by an exception, unrecorded

  /** How a reload is asked for; `reload_to` comes with its candidate, the other two prepare one. */
  datatype Origin = FromReload | FromReloadTo | FromStartReload

  /** `base` is the generation that was active when the request took the slot. */
  datatype Request = Request(origin: Origin, base: Option<nat>, phase: Phase)

  datatype Counters = Counters(requests: nat, accepted: nat, succeeded: nat, failed: nat, busy: nat, timeouts: nat)

  /**
   `waiters` are the parked calls registered in the gate, `summoned` those that were taken out of it and whose timer
   is about to be expired; `doomed` are generations taken out by `shutdown`, `retired` those replaced by a reload.
   */
  datatype State = State(gens: seq<Generation>, active: Option<nat>, open: bool, closing: bool,
                         waiters: set<nat>, summoned: set<nat>, ingress: seq<Ingress>,
                         requests: seq<Request>, slot: bool, doomed: set<nat>, retired: set<nat>, counters: Counters)

  const Init := State([Generation(false, 0)], Some(0), true, false, {}, {}, [], [], false, {}, {},
                      Counters(0, 0, 0, 0, 0, 0))

  /** How the parts of a reload that the model leaves out turn out. */
  datatype Choice = Missing | Fails | Throws | Succeeds

  datatype Action =
    | Arrive
    | PassGate(i: nat)
    | Await(i: nat)
    | Resume(i: nat)
    | Fork(i: nat)
    | Drop(i: nat)
    | Expire(i: nat)
    | Ask(origin: Origin)
    | Advance(r: nat, choice: Choice)
    | BeginShutdown
    | Exchange
    | ShutDoomed(g: nat)

  // ----- sections of the gate and of a generation -----

  /** `admit_route`. */
  predicate Admits(g: Generation) {
    !g.down
  }

  /** The section of `process` under the gate mutex. */
  function PassStep(s: State, i: nat): State
    requires i < |s.ingress| && (s.active.Some? ==> s.active.value < |s.gens|)
  {
    if s.closing then s.(ingress := s.ingress[i := Refused])
    else if s.open then
      if s.active.None? || !Admits(s.gens[s.active.value]) then s.(ingress := s.ingress[i := Refused])
      else
        var g := s.active.value;
        s.(ingress := s.ingress[i := Routed(g, 1)],
           gens := s.gens[g := s.gens[g].(inFlight := s.gens[g].inFlight + 1)])
    else s.(ingress := s.ingress[i := Parked(false, false)], waiters := s.waiters + {i})
  }

  /** A coroutine of a route ends; the last one releases the lease. */
  function DropStep(s: State, i: nat): State
    requires i < |s.ingress| && s.ingress[i].Routed? && s.ingress[i].holders > 0 && s.ingress[i].gen < |s.gens|
  {
    var g, holders := s.ingress[i].gen, s.ingress[i].holders - 1;
    var s' := s.(ingress := s.ingress[i := Routed(g, holders)]);
    if holders > 0 || s.gens[g].inFlight == 0 then s'
    else s'.(gens := s.gens[g := s.gens[g].(inFlight := s.gens[g].inFlight - 1)])
  }

  function Opened(s: State): State {
    s.(open := true, summoned := s.summoned + s.waiters, waiters := {})
  }

  function Downed(s: State, g: nat): State
    requires g < |s.gens|
  {
    s.(gens := s.gens[g := s.gens[g].(down := true)])
  }

  // ----- requests -----

  function Moved(s: State, r: nat, phase: Phase): State
    requires r < |s.requests|
  {
    s.(requests := s.requests[r := s.requests[r].(phase := phase)])
  }

  /** `record_result`. */
  function Count(c: Counters, status: Status, timeout: bool): Counters {
    match status
    case Succeeded => c.(succeeded := c.succeeded + 1)
    case Busy => c.(busy := c.busy + 1)
    case _ => c.(failed := c.failed + 1, timeouts := c.timeouts + if timeout then 1 else 0)
  }

  /** A candidate that comes with the request may be missing but is not prepared; a drain succeeds only at in-flight zero. */
  predicate Advances(q: Request, choice: Choice, s: State) {
    var p := q.phase;
    && !p.Finished? && !p.Escaped?
    && (p.Preparing? && q.origin.FromReloadTo? ==> choice.Missing? || choice.Succeeds?)
    && (p.Draining? && choice.Succeeds? ==> p.prev < |s.gens| && s.gens[p.prev].inFlight == 0)
  }

  /** Whether the generation that a cutover started from is still in charge. */
  predicate InCharge(s: State, g: nat) {
    !s.closing && s.active == Some(g)
  }

  // A request waits for the slot, obtains its candidate, goes through the two halves of `cutover` and is recorded.

  predicate Waits(p: Phase) {
    p.Counted? || p.Confirmed?
  }

  predicate Early(p: Phase) {
    p.Chosen? || p.Compared? || p.Draining? || p.TimedOut?
  }

  predicate Late(p: Phase) {
    p.Drained? || p.Swapped? || p.Retired? || p.Discarding?
  }

  predicate Recording(p: Phase) {
    p.Turned? || p.Outcome? || p.Recorded?
  }

  /** The claim of the reload slot. */
  function ClaimStep(s: State, r: nat): State
    requires r < |s.requests|
  {
    if s.slot then Moved(s, r, Turned(Busy))
    else
      s.(slot := true, counters := s.counters.(accepted := s.counters.accepted + 1),
         requests := s.requests[r := s.requests[r].(base := s.active, phase := Preparing)])
  }

  /** `start_reload` first looks for an active generation, the other two claim at once. */
  function WaitingStep(s: State, r: nat): State
    requires r < |s.requests| && Waits(s.requests[r].phase)
  {
    if s.requests[r].phase.Confirmed? || !s.requests[r].origin.FromStartReload? then ClaimStep(s, r)
    else Moved(s, r, if s.active.None? then Turned(Shutdown) else Confirmed)
  }

  /** Obtaining a candidate: it is missing, it is ready, or, unless it was given, its preparation fails or throws. */
  function PreparingStep(s: State, r: nat, choice: Choice): State
    requires r < |s.requests| && s.requests[r].phase.Preparing?
  {
    match choice
    case Throws =>
      if s.requests[r].origin.FromStartReload? then Moved(s, r, Outcome(Failed, false, s.active))
      else Moved(s, r, Escaped).(slot := false)
    case Missing => Moved(s, r, Outcome(Failed, false, s.active))
    case Fails => Moved(s, r, Outcome(if s.active.None? then Shutdown else Failed, false, s.active))
    case Succeeds => Moved(s, r, Chosen(|s.gens|)).(gens := s.gens + [Generation(false, 0)])
  }

  /** The sections of `cutover` up to the end of the drain. */
  function EarlyStep(s: State, r: nat, choice: Choice): State
    requires r < |s.requests| && Early(s.requests[r].phase)
  {
    var p := s.requests[r].phase;
    match p
    case Chosen(cand) =>
      Moved(s, r, if s.active.None? then Discarding(cand, Shutdown, false) else Compared(cand, s.active.value))
    case Compared(cand, prev) =>
      if !choice.Succeeds? then Moved(s, r, Discarding(cand, Failed, false))
      else if !InCharge(s, prev) then Moved(s, r, Discarding(cand, Shutdown, false))
      else Moved(s, r, Draining(cand, prev)).(open := false)
    case Draining(cand, prev) => Moved(s, r, if choice.Succeeds? then Drained(cand, prev) else TimedOut(cand, prev))
    case TimedOut(cand, prev) =>
      Moved(if InCharge(s, prev) then Opened(s) else s, r, Discarding(cand, Failed, true))
  }

  /** The sections of `cutover` after a drain, and the end of a candidate that is not activated. */
  function LateStep(s: State, r: nat): State
    requires r < |s.requests| && Late(s.requests[r].phase)
  {
    var p := s.requests[r].phase;
    match p
    case Drained(cand, prev) =>
      if !InCharge(s, prev) then Moved(s, r, Discarding(cand, Shutdown, false))
      else Moved(s, r, Swapped(cand, prev)).(active := Some(cand))
    case Swapped(cand, prev) =>
      if prev < |s.gens| then Moved(Downed(s, prev), r, Retired(cand, prev)).(retired := s.retired + {prev}) else s
    case Retired(cand, prev) =>
      if !InCharge(s, cand) then Moved(s, r, Outcome(Shutdown, false, None))
      else Moved(Opened(s), r, Outcome(Succeeded, false, Some(cand)))
    case Discarding(cand, status, timeout) =>
      if cand < |s.gens| then Moved(Downed(s, cand), r, Outcome(status, timeout, s.active)) else s
  }

  /** `record_result`, and the release of the slot. */
  function RecordingStep(s: State, r: nat): State
    requires r < |s.requests| && Recording(s.requests[r].phase)
  {
    var p := s.requests[r].phase;
    match p
    case Turned(status) => Moved(s, r, Finished(status)).(counters := Count(s.counters, status, false))
    case Outcome(status, timeout, _) => Moved(s, r, Recorded(status)).(counters := Count(s.counters, status, timeout))
    case Recorded(status) => Moved(s, r, Finished(status)).(slot := false)
  }

  function AdvanceStep(s: State, r: nat, choice: Choice): State
    requires r < |s.requests|
  {
    var p := s.requests[r].phase;
    if Waits(p) then WaitingStep(s, r)
    else if p.Preparing? then PreparingStep(s, r, choice)
    else if Early(p) then EarlyStep(s, r, choice)
    else if Late(p) then LateStep(s, r)
    else if Recording(p) then RecordingStep(s, r)
    else s
  }

  // ----- steps -----

  predicate Guard(s: State, a: Action) {
    match a
    case Arrive => true
    case PassGate(i) =>
      i < |s.ingress| && s.ingress[i].Arriving? && (s.active.Some? ==> s.active.value < |s.gens|)
    case Await(i) => i < |s.ingress| && s.ingress[i].Parked? && !s.ingress[i].waiting
    case Resume(i) => i < |s.ingress| && s.ingress[i].Parked? && s.ingress[i].waiting && s.ingress[i].expired
    case Fork(i) => i < |s.ingress| && s.ingress[i].Routed? && s.ingress[i].holders > 0
    case Drop(i) =>
      i < |s.ingress| && s.ingress[i].Routed? && s.ingress[i].holders > 0 && s.ingress[i].gen < |s.gens|
    case Expire(i) => i in s.summoned && i < |s.ingress|
    case Ask(_) => true
    case Advance(r, choice) => r < |s.requests| && Advances(s.requests[r], choice, s)
    case BeginShutdown => true
    case Exchange => s.closing
    case ShutDoomed(g) => g in s.doomed && g < |s.gens|
  }

  function Next(s: State, a: Action): State
    requires Guard(s, a)
  {
    match a
    case Arrive => s.(ingress := s.ingress + [Arriving])
    case PassGate(i) => PassStep(s, i)
    case Await(i) => s.(ingress := s.ingress[i := Parked(true, s.ingress[i].expired)])
    case Resume(i) => s.(ingress := s.ingress[i := Arriving])
    case Fork(i) => s.(ingress := s.ingress[i := Routed(s.ingress[i].gen, s.ingress[i].holders + 1)])
    case Drop(i) => DropStep(s, i)
    case Expire(i) =>
      var s' := s.(summoned := s.summoned - {i});
      if s.ingress[i].Parked? then s'.(ingress := s.ingress[i := Parked(s.ingress[i].waiting, true)]) else s'
    case Ask(origin) =>
      s.(requests := s.requests + [Request(origin, None, Counted)],
         counters := s.counters.(requests := s.counters.requests + 1))
    case Advance(r, choice) => AdvanceStep(s, r, choice)
    case BeginShutdown =>
      if s.closing then s
      else s.(closing := true, open := false, summoned := s.summoned + s.waiters, waiters := {})
    case Exchange => s.(active := None, doomed := if s.active.Some? then s.doomed + {s.active.value} else s.doomed)
    case ShutDoomed(g) => Downed(s, g).(doomed := s.doomed - {g})
  }

  ghost predicate IsRun(states: seq<State>, actions: seq<Action>) {
    && |states| == |actions| + 1 && states[0] == Init
    && forall k | 0 <= k < |actions| :: Guard(states[k], actions[k]) && states[k + 1] == Next(states[k], actions[k])
  }
}
