/** The invariant of the reload protocol. */
module ReloadInvariant {
  import opened Wrappers
  import opened Sums
  import opened Reload

  // ----- leases -----

  /** Whether the call's route holds a lease of the generation `gen`. */
  function Lease(c: Ingress, gen: Option<nat>): nat {
    if c.Routed? && c.holders > 0 && gen == Some(c.gen) then 1 else 0
  }

  predicate LeasesExact(s: State) {
    && (forall g: nat | g < |s.gens| :: s.gens[g].inFlight == Sum(s.ingress, Lease, Some(g)))
    && (forall i | 0 <= i < |s.ingress| && s.ingress[i].Routed? :: s.ingress[i].gen < |s.gens|)
  }

  // ----- the gate -----

  predicate GateOk(s: State) {
    && (s.open || s.closing ==> s.waiters == {})
    && (s.closing ==> !s.open)
    && (s.active.None? ==> s.closing)
  }

  /** A parked call is registered, about to be told, or told; only such calls are. */
  predicate Heard(c: Ingress, i: nat, waiters: set<nat>, summoned: set<nat>) {
    && (i in waiters ==> i !in summoned)
    && (i in waiters || i in summoned <==> c.Parked? && !c.expired)
  }

  predicate NobodyForgotten(s: State) {
    forall i | 0 <= i < |s.ingress| :: Heard(s.ingress[i], i, s.waiters, s.summoned)
  }

  predicate WaitersExist(s: State) {
    forall i | i in s.waiters + s.summoned :: i < |s.ingress|
  }

  // ----- requests -----

  function HoldsSlot(q: Request, key: Option<nat>): nat {
    var p := q.phase;
    if Waits(p) || p.Turned? || p.Finished? || p.Escaped? then 0 else 1
  }

  predicate SlotExact(s: State) {
    Sum(s.requests, HoldsSlot, None) == if s.slot then 1 else 0
  }

  /** Whether the request keeps the gate closed. */
  predicate Closes(p: Phase) {
    p.Draining? || p.TimedOut? || p.Drained? || p.Swapped? || p.Retired?
  }

  ghost predicate SomebodyCloses(s: State) {
    exists r | 0 <= r < |s.requests| :: Closes(s.requests[r].phase)
  }

  /** Generations that a request is going to activate or to shut down. */
  predicate Owns(p: Phase, g: nat) {
    match p
    case Chosen(cand) => g == cand
    case Compared(cand, _) => g == cand
    case Draining(cand, _) => g == cand
    case TimedOut(cand, _) => g == cand
    case Drained(cand, _) => g == cand
    case Discarding(cand, _, _) => g == cand
    case Swapped(_, prev) => g == prev
    case _ => false
  }

  predicate Candidate(p: Phase) {
    p.Chosen? || p.Compared? || p.Draining? || p.TimedOut? || p.Drained? || p.Discarding?
  }

  /** Where the gate and the active generation are while a request is in a phase. */
  predicate PhaseOk(q: Request, active: Option<nat>, open: bool, closing: bool) {
    match q.phase
    case Preparing => !closing ==> open && active == q.base
    case Chosen(_) => !closing ==> open && active == q.base
    case Compared(_, prev) => !closing ==> open && active == q.base == Some(prev)
    case Draining(_, prev) => !open && (!closing ==> active == q.base == Some(prev))
    case TimedOut(_, prev) => !open && (!closing ==> active == q.base == Some(prev))
    case Drained(_, prev) => !open && (!closing ==> active == q.base == Some(prev))
    case Swapped(cand, prev) => !open && active != Some(prev) && (!closing ==> active == Some(cand)) && q.base == Some(prev)
    case Retired(cand, prev) => !open && (!closing ==> active == Some(cand)) && q.base == Some(prev)
    case Discarding(_, status, _) => !closing ==> open && active == q.base && status == Failed
    case Outcome(status, _, reported) =>
      !closing ==> open && active == reported && (status == Succeeded || (status == Failed && active == q.base))
    case Recorded(status) => !closing ==> open
    case _ => true
  }

  predicate PhasesOk(s: State) {
    forall r | 0 <= r < |s.requests| :: PhaseOk(s.requests[r], s.active, s.open, s.closing)
  }

  /** What a request knows of its candidate and of the generation that it replaces. */
  predicate KnowsGens(p: Phase, gens: seq<Generation>, active: Option<nat>, doomed: set<nat>) {
    && (Candidate(p) ==> p.cand < |gens| && !gens[p.cand].down && active != Some(p.cand) && p.cand !in doomed)
    && (p.Compared? || Closes(p) ==> p.prev < |gens|)
    && (p.Drained? || p.Swapped? ==> gens[p.prev].inFlight == 0)
    && (p.Swapped? ==> !gens[p.prev].down && p.prev !in doomed)
  }

  predicate RequestsKnowGens(s: State) {
    forall r | 0 <= r < |s.requests| :: KnowsGens(s.requests[r].phase, s.gens, s.active, s.doomed)
  }

  ghost predicate SomebodyOwns(requests: seq<Request>, g: nat) {
    exists r | 0 <= r < |requests| :: Owns(requests[r].phase, g)
  }

  // ----- generations -----

  ghost predicate Settled(s: State, g: nat)
    requires g < |s.gens|
  {
    s.gens[g].down || s.active == Some(g) || g in s.doomed || SomebodyOwns(s.requests, g)
  }

  ghost predicate GenerationsSettled(s: State) {
    forall g: nat | g < |s.gens| :: Settled(s, g)
  }

  predicate ActiveOk(s: State) {
    && (s.active.Some? ==> s.active.value < |s.gens| && !s.gens[s.active.value].down && s.active.value !in s.doomed)
    && (forall g | g in s.doomed :: g < |s.gens| && !s.gens[g].down)
    && (forall g | g in s.retired :: g < |s.gens| && s.gens[g].down && s.gens[g].inFlight == 0)
    && (s.doomed != {} ==> s.closing)
  }

  // ----- metrics -----

  function Lost(q: Request, key: Option<nat>): nat {
    if q.phase.Escaped? then 1 else 0
  }

  function Running(q: Request, key: Option<nat>): nat {
    if q.phase.Recorded? || q.phase.Finished? || q.phase.Escaped? then 0 else 1
  }

  /** Encodes a status as a key of the sums. */
  function KeyOf(status: Status): nat {
    match status
    case Succeeded => 0
    case Busy => 1
    case _ => 2
  }

  function EndedAs(q: Request, key: Option<nat>): nat {
    if (q.phase.Recorded? || q.phase.Finished?) && key == Some(KeyOf(q.phase.status)) then 1 else 0
  }

  predicate MetricsExact(requests: seq<Request>, c: Counters) {
    && c.requests == |requests|
    && c.succeeded == Sum(requests, EndedAs, Some(0))
    && c.busy == Sum(requests, EndedAs, Some(1))
    && c.failed == Sum(requests, EndedAs, Some(2))
    && c.timeouts <= c.failed
  }

  ghost predicate Inv(s: State) {
    && LeasesExact(s) && GateOk(s) && NobodyForgotten(s) && WaitersExist(s)
    && SlotExact(s) && PhasesOk(s) && RequestsKnowGens(s)
    && (!s.open && !s.closing ==> SomebodyCloses(s))
    && GenerationsSettled(s) && ActiveOk(s)
    && MetricsExact(s.requests, s.counters)
  }
}
