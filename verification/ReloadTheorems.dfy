/** The reload invariant holds in every run, and what follows from it. */
module ReloadTheorems {
  import opened Wrappers
  import opened Sums
  import opened Reload
  import opened ReloadInvariant
  import opened ReloadProofs

  // ----- metrics -----

  lemma CountedMetrics(requests: seq<Request>, c: Counters, r: nat, q: Request, timeout: bool)
    requires MetricsExact(requests, c) && r < |requests|
    requires !requests[r].phase.Recorded? && !requests[r].phase.Finished? && (q.phase.Recorded? || q.phase.Finished?)
    ensures MetricsExact(requests[r := q], Count(c, q.phase.status, timeout))
  {
    SumUpdate(requests, r, q, EndedAs, Some(0));
    SumUpdate(requests, r, q, EndedAs, Some(1));
    SumUpdate(requests, r, q, EndedAs, Some(2));
  }

  lemma RecordingMetrics(s: State, r: nat)
    requires MetricsExact(s.requests, s.counters) && r < |s.requests|
    requires s.requests[r].phase.Turned? || s.requests[r].phase.Outcome?
    ensures var s' := RecordingStep(s, r); MetricsExact(s'.requests, s'.counters)
  {
    var p := s.requests[r].phase;
    if p.Turned? {
      CountedMetrics(s.requests, s.counters, r, s.requests[r].(phase := Finished(p.status)), false);
    } else {
      CountedMetrics(s.requests, s.counters, r, s.requests[r].(phase := Recorded(p.status)), p.timeout);
    }
  }

  lemma OtherMetrics(s: State, r: nat, choice: Choice)
    requires MetricsExact(s.requests, s.counters) && Guard(s, Advance(r, choice))
    requires !s.requests[r].phase.Turned? && !s.requests[r].phase.Outcome?
    requires var s' := AdvanceStep(s, r, choice);
             r < |s'.requests| && s'.requests == s.requests[r := s'.requests[r]]
    ensures var s' := AdvanceStep(s, r, choice); MetricsExact(s'.requests, s'.counters)
  {
    var q := AdvanceStep(s, r, choice).requests[r];
    SumUpdate(s.requests, r, q, EndedAs, Some(0));
    SumUpdate(s.requests, r, q, EndedAs, Some(1));
    SumUpdate(s.requests, r, q, EndedAs, Some(2));
    SilentStep(s, r, choice);
  }

  predicate Silent(s: State, s': State, r: nat)
    requires r < |s.requests|
  {
    && s'.counters == s.counters.(accepted := s'.counters.accepted)
    && |s'.requests| == |s.requests|
    && !s'.requests[r].phase.Recorded?
    && (s'.requests[r].phase.Finished? <==> s.requests[r].phase.Finished?)
    && !s.requests[r].phase.Recorded?
  }

  lemma SilentStep(s: State, r: nat, choice: Choice)
    requires Guard(s, Advance(r, choice))
    requires !s.requests[r].phase.Turned? && !s.requests[r].phase.Outcome?
    ensures var s' := AdvanceStep(s, r, choice);
            && s'.counters == s.counters.(accepted := s'.counters.accepted)
            && |s'.requests| == |s.requests|
            && forall key :: EndedAs(s'.requests[r], key) == EndedAs(s.requests[r], key)
  {
    var p := s.requests[r].phase;
    if Early(p) {
      SilentEarly(s, r, choice);
    } else if Late(p) {
      SilentLate(s, r);
    } else if !p.Recorded? {
      SilentStart(s, r, choice);
    }
  }

  lemma SilentStart(s: State, r: nat, choice: Choice)
    requires r < |s.requests| && (Waits(s.requests[r].phase) || s.requests[r].phase.Preparing?)
    ensures Silent(s, AdvanceStep(s, r, choice), r)
  {
  }

  lemma SilentEarly(s: State, r: nat, choice: Choice)
    requires r < |s.requests| && Early(s.requests[r].phase)
    ensures Silent(s, EarlyStep(s, r, choice), r)
  {
    EarlyGoes(s, r, choice);
  }

  lemma SilentLate(s: State, r: nat)
    requires r < |s.requests| && Late(s.requests[r].phase)
    ensures Silent(s, LateStep(s, r), r)
  {
    LateGoes(s, r);
  }

  lemma {:induction false} SumAppended(requests: seq<Request>, q: Request, f: (Request, Option<nat>) -> nat, key: Option<nat>)
    ensures Sum(requests + [q], f, key) == Sum(requests, f, key) + f(q, key)
  {
    if requests != [] {
      assert (requests + [q])[1..] == requests[1..] + [q];
      SumAppended(requests[1..], q, f, key);
    }
  }

  lemma NextMetrics(s: State, a: Action)
    requires MetricsExact(s.requests, s.counters) && SlotExact(s) && Guard(s, a)
    ensures MetricsExact(Next(s, a).requests, Next(s, a).counters)
  {
    if a.Advance? {
      AdvanceStepped(s, a.r, a.choice);
      var p := s.requests[a.r].phase;
      if p.Turned? || p.Outcome? {
        RecordingMetrics(s, a.r);
      } else {
        OtherMetrics(s, a.r, a.choice);
      }
    } else if a.Ask? {
      AskMetrics(s, a.origin);
    }
  }

  lemma AskMetrics(s: State, origin: Origin)
    requires MetricsExact(s.requests, s.counters)
    ensures var s' := Next(s, Ask(origin)); MetricsExact(s'.requests, s'.counters)
  {
    var q := Request(origin, None, Counted);
    SumAppended(s.requests, q, EndedAs, Some(0));
    SumAppended(s.requests, q, EndedAs, Some(1));
    SumAppended(s.requests, q, EndedAs, Some(2));
  }

  // ----- steps of calls and of the shutdown -----

  predicate FlagsKept(s: State, s': State) {
    && s'.requests == s.requests && s'.slot == s.slot && s'.retired == s.retired
    && (s.closing ==> s'.closing) && (s'.open ==> s.open)
    && (!s'.closing ==> s'.open == s.open && s'.active == s.active)
    && (s'.active == s.active || s'.active == None)
  }

  predicate GensKept(s: State, s': State) {
    && |s'.gens| == |s.gens|
    && (forall g | 0 <= g < |s.gens| ::
          && (s.gens[g].down ==> s'.gens[g].down)
          && (s'.gens[g].down ==> s.gens[g].down || g in s.doomed)
          && (s'.gens[g].inFlight <= s.gens[g].inFlight || (s.open && s.active == Some(g) && !s.gens[g].down)))
  }

  predicate DoomedKept(s: State, s': State)
    requires |s'.gens| == |s.gens|
  {
    && (forall g | g in s'.doomed :: g in s.doomed || s.active == Some(g))
    && (forall g | g in s.doomed :: g in s'.doomed || (g < |s.gens| && s'.gens[g].down))
    && (s.active.Some? ==> s'.active == s.active || s.active.value in s'.doomed)
  }

  /** A step of a call or of the shutdown, as requests see it. */
  predicate Bystander(s: State, s': State) {
    FlagsKept(s, s') && GensKept(s, s') && DoomedKept(s, s')
  }

  predicate ByCall(a: Action) {
    !a.Advance? && !a.Ask?
  }

  lemma PassBystander(s: State, i: nat)
    requires ActiveOk(s) && GateOk(s) && Guard(s, PassGate(i))
    ensures Bystander(s, PassStep(s, i))
  {
  }

  lemma DropBystander(s: State, i: nat)
    requires Guard(s, Drop(i))
    ensures Bystander(s, DropStep(s, i))
  {
  }

  lemma IngressBystander(s: State, a: Action)
    requires Guard(s, a) && (a.Arrive? || a.Await? || a.Resume? || a.Fork? || a.Expire?)
    ensures Bystander(s, Next(s, a))
  {
  }

  lemma ShutdownBystander(s: State, a: Action)
    requires ActiveOk(s) && GateOk(s) && Guard(s, a) && (a.BeginShutdown? || a.Exchange? || a.ShutDoomed?)
    ensures Bystander(s, Next(s, a))
  {
  }

  lemma CallBystander(s: State, a: Action)
    requires ActiveOk(s) && GateOk(s) && Guard(s, a) && ByCall(a)
    ensures Bystander(s, Next(s, a))
  {
    if a.BeginShutdown? || a.Exchange? || a.ShutDoomed? {
      ShutdownBystander(s, a);
    } else if a.PassGate? {
      PassBystander(s, a.i);
    } else if a.Drop? {
      DropBystander(s, a.i);
    } else {
      IngressBystander(s, a);
    }
  }

  lemma BystanderPhases(s: State, s': State)
    requires RequestsOk(s) && Bystander(s, s') && GateOk(s')
    ensures PhasesOk(s') && RequestsKnowGens(s')
  {
    forall r | 0 <= r < |s'.requests| ensures PhaseOk(s'.requests[r], s'.active, s'.open, s'.closing) {
      assert OwnOk(s, r);
    }
    forall r | 0 <= r < |s'.requests| ensures KnowsGens(s'.requests[r].phase, s'.gens, s'.active, s'.doomed) {
      assert OwnOk(s, r);
    }
  }

  lemma BystanderSettled(s: State, s': State)
    requires GenerationsSettled(s) && Bystander(s, s')
    ensures GenerationsSettled(s')
  {
    forall g: nat | g < |s'.gens| ensures Settled(s', g) {
      assert Settled(s, g);
    }
  }

  lemma CallActive(s: State, a: Action)
    requires ActiveOk(s) && GateOk(s) && LeasesExact(s) && Guard(s, a) && ByCall(a)
    ensures ActiveOk(Next(s, a))
  {
    CallBystander(s, a);
    var s' := Next(s, a);
    forall g | g in s'.retired ensures g < |s'.gens| && s'.gens[g].down && s'.gens[g].inFlight == 0 {
      assert g < |s.gens| && s.gens[g].down;
    }
  }

  lemma CallRequests(s: State, a: Action)
    requires RequestsOk(s) && GenerationsSettled(s) && LeasesExact(s) && Guard(s, a) && ByCall(a)
    requires GateOk(Next(s, a))
    ensures RequestsOk(Next(s, a)) && GenerationsSettled(Next(s, a))
  {
    var s' := Next(s, a);
    CallBystander(s, a);
    BystanderPhases(s, s');
    BystanderSettled(s, s');
    CallActive(s, a);
    if !s'.open && !s'.closing {
      var r :| 0 <= r < |s.requests| && Closes(s.requests[r].phase);
      assert Closes(s'.requests[r].phase);
    }
  }

  /** The state once another request has arrived. */
  predicate Joined(s: State, s': State, q: Request) {
    && q.phase == Counted && s'.requests == s.requests + [q] && s'.slot == s.slot && s'.retired == s.retired
    && s'.active == s.active && s'.open == s.open && s'.closing == s.closing && s'.gens == s.gens
    && s'.doomed == s.doomed && s'.waiters == s.waiters
  }

  lemma JoinedSettled(s: State, s': State, q: Request)
    requires GenerationsSettled(s) && Joined(s, s', q)
    ensures GenerationsSettled(s')
  {
    forall g: nat | g < |s'.gens| ensures Settled(s', g) {
      assert Settled(s, g);
      if SomebodyOwns(s.requests, g) {
        var r :| 0 <= r < |s.requests| && Owns(s.requests[r].phase, g);
        assert Owns(s'.requests[r].phase, g);
      }
    }
  }

  lemma JoinedPhases(s: State, s': State, q: Request)
    requires PhasesOk(s) && RequestsKnowGens(s) && Joined(s, s', q)
    ensures PhasesOk(s') && RequestsKnowGens(s')
  {
  }

  lemma JoinedRequests(s: State, s': State, q: Request)
    requires RequestsOk(s) && Joined(s, s', q)
    ensures RequestsOk(s')
  {
    SumAppended(s.requests, q, HoldsSlot, None);
    JoinedPhases(s, s', q);
    if !s'.open && !s'.closing {
      var r :| 0 <= r < |s.requests| && Closes(s.requests[r].phase);
      assert Closes(s'.requests[r].phase);
    }
  }

  lemma AskRequests(s: State, origin: Origin)
    requires RequestsOk(s) && GenerationsSettled(s)
    ensures RequestsOk(Next(s, Ask(origin))) && GenerationsSettled(Next(s, Ask(origin)))
  {
    var q := Request(origin, None, Counted);
    JoinedRequests(s, Next(s, Ask(origin)), q);
    JoinedSettled(s, Next(s, Ask(origin)), q);
  }

  lemma AdvanceAll(s: State, r: nat, choice: Choice)
    requires RequestsOk(s) && GenerationsSettled(s) && Guard(s, Advance(r, choice))
    requires GateOk(AdvanceStep(s, r, choice))
    ensures RequestsOk(AdvanceStep(s, r, choice)) && GenerationsSettled(AdvanceStep(s, r, choice))
  {
    NextSlot(s, r, choice);
    AdvancePhases(s, r, choice);
    AdvanceCloses(s, r, choice);
    AdvanceActive(s, r, choice);
    AdvanceSettled(s, r, choice);
  }

  lemma NextKeeps(s: State, a: Action)
    requires Inv(s) && Guard(s, a)
    ensures Inv(Next(s, a))
  {
    NextLeases(s, a);
    NextGate(s, a);
    NextWaitersExist(s, a);
    NextMetrics(s, a);
    NextRequests(s, a);
  }

  lemma NextRequests(s: State, a: Action)
    requires RequestsOk(s) && GenerationsSettled(s) && LeasesExact(s) && Guard(s, a) && GateOk(Next(s, a))
    ensures RequestsOk(Next(s, a)) && GenerationsSettled(Next(s, a))
  {
    match a
    case Advance(r, choice) => AdvanceAll(s, r, choice);
    case Ask(origin) => AskRequests(s, origin);
    case _ => CallRequests(s, a);
  }

  lemma {:induction false} RunHolds(states: seq<State>, actions: seq<Action>, n: nat)
    requires IsRun(states, actions) && n < |states|
    ensures Inv(states[n])
  {
    if n > 0 {
      RunHolds(states, actions, n - 1);
      NextKeeps(states[n - 1], actions[n - 1]);
    }
  }

  // ----- admission -----

  /**
   With the gate open and no shutdown begun, nobody waits, and the next call to pass is admitted to the active
   generation.
   */
  lemma OpenGateAdmits(states: seq<State>, actions: seq<Action>, n: nat, i: nat)
    requires IsRun(states, actions) && n < |states| && states[n].open && Guard(states[n], PassGate(i))
    ensures var s := states[n];
            && !s.closing && s.waiters == {} && s.active.Some?
            && Next(s, PassGate(i)).ingress[i] == Routed(s.active.value, 1)
  {
    RunHolds(states, actions, n);
  }

  /** Waiting calls are never forgotten: once the gate is open or closing, each has been told or is about to be. */
  lemma WaitersAreTold(states: seq<State>, actions: seq<Action>, n: nat, i: nat)
    requires IsRun(states, actions) && n < |states| && i < |states[n].ingress| && states[n].ingress[i].Parked?
    ensures var s := states[n];
            && (s.ingress[i].expired || i in s.summoned || i in s.waiters)
            && (s.open || s.closing ==> s.ingress[i].expired || i in s.summoned)
            && (i in s.summoned ==> Guard(s, Expire(i)))
  {
    RunHolds(states, actions, n);
    assert Heard(states[n].ingress[i], i, states[n].waiters, states[n].summoned);
  }

  /** The number of routes of a generation that exists does not rise. */
  predicate Falls(s: State, s': State, g: nat) {
    g < |s.gens| ==> g < |s'.gens| && s'.gens[g].inFlight <= s.gens[g].inFlight
  }

  lemma {:induction false} Falling(states: seq<State>, m: nat, n: nat, g: nat)
    requires m <= n < |states| && forall k: nat | m <= k < n :: Falls(states[k], states[k + 1], g)
    ensures Falls(states[m], states[n], g)
  {
    if m < n {
      Falling(states, m, n - 1, g);
      assert Falls(states[n - 1], states[n - 1 + 1], g);
    }
  }

  /** While the gate stays closed, no generation's number of routes rises. */
  lemma FlightsFallWhileClosed(states: seq<State>, actions: seq<Action>, m: nat, n: nat, g: nat)
    requires IsRun(states, actions) && m <= n < |states| && g < |states[m].gens|
    requires forall k | m <= k < n :: !states[k].open
    ensures g < |states[n].gens| && states[n].gens[g].inFlight <= states[m].gens[g].inFlight
  {
    forall k: nat | m <= k < n ensures Falls(states[k], states[k + 1], g) {
      RunHolds(states, actions, k);
      if g < |states[k].gens| {
        ClosedStep(states[k], actions[k], g);
      }
    }
    Falling(states, m, n, g);
  }

  lemma ClosedStep(s: State, a: Action, g: nat)
    requires Inv(s) && Guard(s, a) && !s.open && g < |s.gens|
    ensures g < |Next(s, a).gens| && Next(s, a).gens[g].inFlight <= s.gens[g].inFlight
  {
    if a.Advance? {
      AdvanceFlights(s, a.r, a.choice);
    } else if !a.Ask? {
      CallBystander(s, a);
    }
  }

  // ----- cutover -----

  /** A reload shuts the previous generation down only when none of its routes is left, and none ever comes back. */
  lemma RetiredAreIdle(states: seq<State>, actions: seq<Action>, n: nat, g: nat)
    requires IsRun(states, actions) && n < |states| && g in states[n].retired
    ensures var s := states[n];
            && g < |s.gens| && s.gens[g].down && s.gens[g].inFlight == 0 && s.active != Some(g)
            && forall i | 0 <= i < |s.ingress| && s.ingress[i].Routed? && s.ingress[i].gen == g :: s.ingress[i].holders == 0
  {
    RunHolds(states, actions, n);
    var s := states[n];
    forall i | 0 <= i < |s.ingress| && s.ingress[i].Routed? && s.ingress[i].gen == g ensures s.ingress[i].holders == 0 {
      SumAtLeast(s.ingress, i, Lease, Some(g));
    }
  }

  lemma DownedAtZero(states: seq<State>, actions: seq<Action>, n: nat, r: nat)
    requires IsRun(states, actions) && n < |states| && r < |states[n].requests| && states[n].requests[r].phase.Swapped?
    ensures var s, p := states[n], states[n].requests[r].phase;
            && p.prev < |s.gens| && s.gens[p.prev].inFlight == 0 && s.active != Some(p.prev)
            && (!s.closing ==> s.active == Some(p.cand))
  {
    RunHolds(states, actions, n);
    assert OwnOk(states[n], r);
  }

  /** A route that still runs, terminal stages included, keeps its generation from being retired by a reload. */
  lemma StagesRunUnderLease(states: seq<State>, actions: seq<Action>, n: nat, i: nat)
    requires IsRun(states, actions) && n < |states| && i < |states[n].ingress|
    requires states[n].ingress[i].Routed? && states[n].ingress[i].holders > 0
    ensures var s, g := states[n], states[n].ingress[i].gen;
            && g < |s.gens| && s.gens[g].inFlight > 0 && g !in s.retired
            && forall r | 0 <= r < |s.requests| && (s.requests[r].phase.Drained? || s.requests[r].phase.Swapped?) ::
                 s.requests[r].phase.prev != g
  {
    RunHolds(states, actions, n);
    var s, g := states[n], states[n].ingress[i].gen;
    SumAtLeast(s.ingress, i, Lease, Some(g));
    forall r | 0 <= r < |s.requests| && (s.requests[r].phase.Drained? || s.requests[r].phase.Swapped?)
      ensures s.requests[r].phase.prev != g
    {
      assert OwnOk(s, r);
    }
  }

  // ----- requests -----

  /** At most one reload is under way. */
  lemma OneReload(states: seq<State>, actions: seq<Action>, n: nat, r: nat, other: nat)
    requires IsRun(states, actions) && n < |states| && r < |states[n].requests| && other < |states[n].requests|
    requires HoldsSlot(states[n].requests[r], None) == 1 && HoldsSlot(states[n].requests[other], None) == 1
    ensures r == other && states[n].slot
  {
    RunHolds(states, actions, n);
    SumAtLeast(states[n].requests, r, HoldsSlot, None);
    if r != other {
      OthersIdle(states[n], r, other);
    }
  }

  /** The active generation that a request recorded, once it has taken the slot or was turned away. */
  predicate HasBase(s: State, r: nat, base: Option<nat>) {
    r < |s.requests| && !Waits(s.requests[r].phase) && s.requests[r].base == base
  }

  lemma {:induction false} BaseCarried(states: seq<State>, m: nat, n: nat, r: nat, base: Option<nat>)
    requires m <= n < |states| && HasBase(states[m], r, base)
    requires forall k: nat | m <= k < n :: HasBase(states[k], r, base) ==> HasBase(states[k + 1], r, base)
    ensures HasBase(states[n], r, base)
  {
    if m < n {
      BaseCarried(states, m, n - 1, r, base);
      assert HasBase(states[n - 1 + 1], r, base);
    }
  }

  /** It stays on record. */
  lemma BaseStays(states: seq<State>, actions: seq<Action>, m: nat, n: nat, r: nat, base: Option<nat>)
    requires IsRun(states, actions) && m <= n < |states| && HasBase(states[m], r, base)
    ensures HasBase(states[n], r, base)
  {
    forall k: nat | m <= k < n && HasBase(states[k], r, base) ensures HasBase(states[k + 1], r, base) {
      RunHolds(states, actions, k);
      BaseStep(states[k], actions[k], r, base);
    }
    BaseCarried(states, m, n, r, base);
  }

  lemma BaseStep(s: State, a: Action, r: nat, base: Option<nat>)
    requires SlotExact(s) && Guard(s, a) && HasBase(s, r, base)
    ensures HasBase(Next(s, a), r, base)
  {
    if a.Advance? {
      AdvanceStepped(s, a.r, a.choice);
      if a.r == r {
        OwnBase(s, r, a.choice);
      }
    }
  }

  predicate SameBase(s: State, s': State, r: nat)
    requires r < |s.requests|
  {
    r < |s'.requests| && !Waits(s'.requests[r].phase) && s'.requests[r].base == s.requests[r].base
  }

  lemma OwnBase(s: State, r: nat, choice: Choice)
    requires Guard(s, Advance(r, choice)) && !Waits(s.requests[r].phase)
    ensures SameBase(s, AdvanceStep(s, r, choice), r)
  {
    var p := s.requests[r].phase;
    if p.Preparing? {
      assert SameBase(s, PreparingStep(s, r, choice), r);
    } else if Early(p) {
      EarlyBase(s, r, choice);
    } else if Late(p) {
      LateBase(s, r);
    } else {
      assert SameBase(s, RecordingStep(s, r), r);
    }
  }

  lemma EarlyBase(s: State, r: nat, choice: Choice)
    requires r < |s.requests| && Early(s.requests[r].phase)
    ensures SameBase(s, EarlyStep(s, r, choice), r)
  {
    EarlyGoes(s, r, choice);
  }

  lemma LateBase(s: State, r: nat)
    requires r < |s.requests| && Late(s.requests[r].phase)
    ensures SameBase(s, LateStep(s, r), r)
  {
    LateGoes(s, r);
  }

  // ----- the candidate of a request -----

  /** The candidate that a request works on, or that it reports as active. */
  function CandOf(p: Phase): Option<nat> {
    match p
    case Chosen(cand) => Some(cand)
    case Compared(cand, _) => Some(cand)
    case Draining(cand, _) => Some(cand)
    case TimedOut(cand, _) => Some(cand)
    case Drained(cand, _) => Some(cand)
    case Swapped(cand, _) => Some(cand)
    case Retired(cand, _) => Some(cand)
    case Discarding(cand, _, _) => Some(cand)
    case Outcome(status, _, active) => if status == Succeeded then active else None
    case _ => None
  }

  /** Whether the step with number `j` is the one in which request `r` builds generation `c`. */
  ghost predicate Builds(states: seq<State>, actions: seq<Action>, j: nat, r: nat, c: nat) {
    && j < |actions| && j < |states| && r < |states[j].requests|
    && actions[j] == Advance(r, Choice.Succeeds) && states[j].requests[r].phase.Preparing? && c == |states[j].gens|
  }

  predicate KeepsCand(p: Phase, p': Phase) {
    CandOf(p').Some? ==> CandOf(p') == CandOf(p)
  }

  lemma EarlyCand(s: State, r: nat, choice: Choice)
    requires r < |s.requests| && Early(s.requests[r].phase)
    ensures var s' := EarlyStep(s, r, choice);
            r < |s'.requests| && KeepsCand(s.requests[r].phase, s'.requests[r].phase)
  {
    EarlyGoes(s, r, choice);
  }

  lemma LateCand(s: State, r: nat)
    requires RequestsOk(s) && r < |s.requests| && !s.closing && Late(s.requests[r].phase)
    ensures var s' := LateStep(s, r);
            r < |s'.requests| && KeepsCand(s.requests[r].phase, s'.requests[r].phase)
  {
    assert OwnOk(s, r);
    LateGoes(s, r);
  }

  lemma OwnCand(s: State, r: nat, choice: Choice, c: nat)
    requires RequestsOk(s) && Guard(s, Advance(r, choice)) && !s.closing
    requires r < |AdvanceStep(s, r, choice).requests|
    requires CandOf(AdvanceStep(s, r, choice).requests[r].phase) == Some(c)
    ensures CandOf(s.requests[r].phase) == Some(c)
            || (s.requests[r].phase.Preparing? && choice.Succeeds? && c == |s.gens|)
  {
    var p := s.requests[r].phase;
    if Early(p) {
      EarlyCand(s, r, choice);
    } else if Late(p) {
      LateCand(s, r);
    } else if p.Preparing? {
      PreparingCand(s, r, choice);
    } else {
      NoCand(s, r, choice);
    }
  }

  lemma PreparingCand(s: State, r: nat, choice: Choice)
    requires r < |s.requests| && s.requests[r].phase.Preparing?
    ensures var s' := PreparingStep(s, r, choice);
            && r < |s'.requests|
            && (CandOf(s'.requests[r].phase).Some? ==> choice.Succeeds? && CandOf(s'.requests[r].phase) == Some(|s.gens|))
  {
  }

  lemma NoCand(s: State, r: nat, choice: Choice)
    requires r < |s.requests| && (Waits(s.requests[r].phase) || Recording(s.requests[r].phase))
    ensures var s' := AdvanceStep(s, r, choice); r < |s'.requests| && CandOf(s'.requests[r].phase).None?
  {
    if Waits(s.requests[r].phase) {
      assert WaitingStep(s, r).requests[r].phase == Preparing || Waits(WaitingStep(s, r).requests[r].phase)
             || WaitingStep(s, r).requests[r].phase.Turned?;
    } else {
      assert RecordingStep(s, r).requests[r].phase.Recorded? || RecordingStep(s, r).requests[r].phase.Finished?;
    }
  }

  lemma StepCand(s: State, a: Action, r: nat, c: nat)
    requires RequestsOk(s) && Guard(s, a) && !s.closing && r < |Next(s, a).requests|
    requires CandOf(Next(s, a).requests[r].phase) == Some(c)
    ensures r < |s.requests|
    ensures CandOf(s.requests[r].phase) == Some(c)
            || (a == Advance(r, Choice.Succeeds) && s.requests[r].phase.Preparing? && c == |s.gens|)
  {
    if a.Advance? {
      AdvanceStepped(s, a.r, a.choice);
      if a.r == r {
        OwnCand(s, r, a.choice, c);
      }
    }
  }

  lemma ClosingStays(s: State, a: Action)
    requires SlotExact(s) && Guard(s, a) && s.closing
    ensures Next(s, a).closing
  {
    if a.Advance? {
      AdvanceStepped(s, a.r, a.choice);
    }
  }

  lemma RunCand(states: seq<State>, actions: seq<Action>, n: nat, r: nat, c: nat)
    requires IsRun(states, actions) && n + 1 < |states| && !states[n + 1].closing
    requires r < |states[n + 1].requests| && CandOf(states[n + 1].requests[r].phase) == Some(c)
    ensures !states[n].closing && r < |states[n].requests|
    ensures CandOf(states[n].requests[r].phase) == Some(c) || Builds(states, actions, n, r, c)
  {
    RunHolds(states, actions, n);
    if states[n].closing {
      ClosingStays(states[n], actions[n]);
    }
    StepCand(states[n], actions[n], r, c);
  }

  /** Step number `i` gives request `r` the candidate `c` only if it had it already, or the step built it. */
  ghost predicate Tracked(states: seq<State>, actions: seq<Action>, i: nat, r: nat, c: nat)
    requires i + 1 < |states|
  {
    HasCand(states[i + 1], r, c) ==> HasCand(states[i], r, c) || Builds(states, actions, i, r, c)
  }

  predicate HasCand(s: State, r: nat, c: nat) {
    !s.closing && r < |s.requests| && CandOf(s.requests[r].phase) == Some(c)
  }

  lemma {:induction false} FirstBuild(states: seq<State>, actions: seq<Action>, k: nat, n: nat, r: nat, c: nat)
    requires k <= n < |states| && forall i: nat | k <= i < n :: Tracked(states, actions, i, r, c)
    requires HasCand(states[n], r, c) && !HasCand(states[k], r, c)
    ensures exists j: nat :: k <= j < n && Builds(states, actions, j, r, c)
  {
    if n > k {
      assert Tracked(states, actions, n - 1, r, c);
      if !Builds(states, actions, n - 1, r, c) {
        FirstBuild(states, actions, k, n - 1, r, c);
      }
    }
  }

  /** A candidate was built by the request that works on it, after the request took the slot. */
  lemma CandidateIsOwn(states: seq<State>, actions: seq<Action>, k: nat, n: nat, r: nat, c: nat)
    requires IsRun(states, actions) && k <= n < |states| && HasCand(states[n], r, c)
    requires r < |states[k].requests| && Waits(states[k].requests[r].phase)
    ensures exists j: nat :: k < j < n && Builds(states, actions, j, r, c)
  {
    forall i: nat | k <= i < n ensures Tracked(states, actions, i, r, c) {
      if HasCand(states[i + 1], r, c) {
        RunCand(states, actions, i, r, c);
      }
    }
    FirstBuild(states, actions, k, n, r, c);
    var j: nat :| k <= j < n && Builds(states, actions, j, r, c);
    assert j != k;
  }

  lemma GenerationsStay(states: seq<State>, actions: seq<Action>, m: nat, n: nat)
    requires IsRun(states, actions) && m <= n < |states|
    ensures |states[m].gens| <= |states[n].gens|
  {
    var sizes := seq(|states|, k requires 0 <= k < |states| => |states[k].gens|);
    forall k | 0 <= k < |sizes| - 1 ensures sizes[k] <= sizes[k + 1] {
      RunGenerations(states, actions, k);
    }
    Ascending(sizes, m, n);
  }

  lemma RunGenerations(states: seq<State>, actions: seq<Action>, k: nat)
    requires IsRun(states, actions) && k + 1 < |states|
    ensures |states[k].gens| <= |states[k + 1].gens|
  {
    StepGenerations(states[k], actions[k]);
  }

  lemma {:induction false} Ascending(sizes: seq<nat>, m: nat, n: nat)
    requires forall k | 0 <= k < |sizes| - 1 :: sizes[k] <= sizes[k + 1]
    requires m <= n < |sizes|
    ensures sizes[m] <= sizes[n]
  {
    if m < n {
      Ascending(sizes, m, n - 1);
      assert sizes[n - 1] <= sizes[n - 1 + 1];
    }
  }

  lemma StepGenerations(s: State, a: Action)
    requires Guard(s, a)
    ensures |s.gens| <= |Next(s, a).gens|
  {
    if a.Advance? {
      AdvanceFlights(s, a.r, a.choice);
    }
  }

  /**
   Unless a shutdown has begun, a reload that fails leaves the gate open and the same generation active as when it
   took the slot, and a reload that succeeds leaves the gate open and active the candidate which it built itself,
   a generation that did not exist when it took the slot.
   */
  lemma OutcomeIsTrue(states: seq<State>, actions: seq<Action>, k: nat, n: nat, r: nat)
    requires IsRun(states, actions) && k < n < |states| && r < |states[k].requests|
    requires Waits(states[k].requests[r].phase)
    requires r < |states[k + 1].requests| && states[k + 1].requests[r].phase.Preparing?
    requires r < |states[n].requests| && states[n].requests[r].phase.Outcome? && !states[n].closing
    ensures var s, p := states[n], states[n].requests[r].phase;
            && s.open && s.waiters == {}
            && (p.status == Failed || p.status == Succeeded)
            && (p.status == Failed ==> s.active == states[k].active)
            && (p.status == Succeeded ==>
                  && s.active.Some? && s.active.value >= |states[k].gens| && s.active != states[k].active
                  && exists j: nat :: k < j < n && Builds(states, actions, j, r, s.active.value))
  {
    RunHolds(states, actions, k);
    RunHolds(states, actions, n);
    RunTakesSlot(states, actions, k, r);
    BaseStays(states, actions, k + 1, n, r, states[k].active);
    OutcomeOk(states[n], r);
    if states[n].requests[r].phase.status == Succeeded {
      SuccessIsOwn(states, actions, k, n, r);
    }
  }

  lemma SuccessIsOwn(states: seq<State>, actions: seq<Action>, k: nat, n: nat, r: nat)
    requires IsRun(states, actions) && k < n < |states| && Inv(states[k]) && Inv(states[n]) && !states[n].closing
    requires r < |states[k].requests| && Waits(states[k].requests[r].phase)
    requires r < |states[n].requests| && states[n].requests[r].phase.Outcome?
    requires states[n].requests[r].phase.status == Succeeded && states[n].active == states[n].requests[r].phase.active
    ensures var active := states[n].active;
            && active.Some? && active.value >= |states[k].gens| && active != states[k].active
            && exists j: nat :: k < j < n && Builds(states, actions, j, r, active.value)
  {
    var c := states[n].active.value;
    CandidateIsOwn(states, actions, k, n, r, c);
    var j: nat :| k < j < n && Builds(states, actions, j, r, c);
    GenerationsStay(states, actions, k, j);
  }

  lemma OutcomeOk(s: State, r: nat)
    requires RequestsOk(s) && r < |s.requests| && s.requests[r].phase.Outcome? && !s.closing
    ensures var p := s.requests[r].phase;
            && s.open && s.waiters == {} && s.active == p.active
            && (p.status == Failed ==> s.active == s.requests[r].base)
            && (p.status == Failed || p.status == Succeeded)
  {
    assert OwnOk(s, r);
  }

  lemma RunTakesSlot(states: seq<State>, actions: seq<Action>, k: nat, r: nat)
    requires IsRun(states, actions) && k < |actions|
    requires r < |states[k].requests| && Waits(states[k].requests[r].phase)
    requires r < |states[k + 1].requests| && states[k + 1].requests[r].phase.Preparing?
    ensures states[k + 1].requests[r].base == states[k].active
  {
    RunHolds(states, actions, k);
    TakesSlot(states[k], actions[k], r);
  }

  lemma TakesSlot(s: State, a: Action, r: nat)
    requires SlotExact(s) && Guard(s, a) && r < |s.requests| && Waits(s.requests[r].phase)
    requires r < |Next(s, a).requests| && Next(s, a).requests[r].phase.Preparing?
    ensures Next(s, a).requests[r].base == s.active
  {
    if a.Advance? {
      AdvanceStepped(s, a.r, a.choice);
    }
  }

  /** When no reload is under way, every generation but the active one has been shut down, or is about to be. */
  lemma CandidatesEndActiveOrDown(states: seq<State>, actions: seq<Action>, n: nat, g: nat)
    requires IsRun(states, actions) && n < |states| && !states[n].slot && g < |states[n].gens|
    ensures var s := states[n]; s.active == Some(g) || s.gens[g].down || g in s.doomed
  {
    RunHolds(states, actions, n);
    var s := states[n];
    assert Settled(s, g);
    if SomebodyOwns(s.requests, g) {
      var r :| 0 <= r < |s.requests| && Owns(s.requests[r].phase, g);
      SumAtLeast(s.requests, r, HoldsSlot, None);
    }
  }

  // ----- accounting -----

  lemma {:induction false} RequestsPartition(requests: seq<Request>)
    ensures |requests| == Sum(requests, EndedAs, Some(0)) + Sum(requests, EndedAs, Some(1)) + Sum(requests, EndedAs, Some(2))
                          + Sum(requests, Running, None) + Sum(requests, Lost, None)
  {
    if requests != [] {
      RequestsPartition(requests[1..]);
    }
  }

  /** Whether a step lets an exception out of a coroutine started with `reload`. */
  predicate Throwing(s: State, a: Action) {
    && a.Advance? && a.choice.Throws? && a.r < |s.requests|
    && s.requests[a.r].phase.Preparing? && s.requests[a.r].origin.FromReload?
  }

  ghost predicate SomethingThrew(states: seq<State>, actions: seq<Action>, n: nat) {
    exists k :: 0 <= k < n && k < |actions| && k < |states| && Throwing(states[k], actions[k])
  }

  predicate SomebodyEscaped(requests: seq<Request>) {
    exists r | 0 <= r < |requests| :: requests[r].phase.Escaped?
  }

  lemma OwnEscape(s: State, r: nat, choice: Choice)
    requires Guard(s, Advance(r, choice))
    requires r < |AdvanceStep(s, r, choice).requests|
    ensures AdvanceStep(s, r, choice).requests[r].phase.Escaped? <==> Throwing(s, Advance(r, choice))
  {
    var p := s.requests[r].phase;
    if Early(p) {
      EarlyHolds(s, r, choice);
    } else if Late(p) {
      LateHolds(s, r);
    } else if !p.Preparing? {
      QuietEscape(s, r, choice);
    }
  }

  lemma QuietEscape(s: State, r: nat, choice: Choice)
    requires r < |s.requests| && (Waits(s.requests[r].phase) || Recording(s.requests[r].phase))
    ensures r < |AdvanceStep(s, r, choice).requests| && !AdvanceStep(s, r, choice).requests[r].phase.Escaped?
  {
  }

  lemma StepEscape(s: State, a: Action)
    requires SlotExact(s) && Guard(s, a)
    ensures SomebodyEscaped(Next(s, a).requests) <==> SomebodyEscaped(s.requests) || Throwing(s, a)
  {
    var s' := Next(s, a);
    if a.Advance? {
      AdvanceStepped(s, a.r, a.choice);
      OwnEscape(s, a.r, a.choice);
      assert forall r | 0 <= r < |s.requests| && r != a.r :: s'.requests[r] == s.requests[r];
    } else if a.Ask? {
      assert forall r | 0 <= r < |s.requests| :: s'.requests[r] == s.requests[r];
    }
  }

  /** A request has escaped exactly when an exception was let out on the way. */
  lemma {:induction false} EscapedIffThrown(states: seq<State>, actions: seq<Action>, n: nat)
    requires IsRun(states, actions) && n < |states|
    ensures SomebodyEscaped(states[n].requests) <==> SomethingThrew(states, actions, n)
  {
    if n > 0 {
      EscapedIffThrown(states, actions, n - 1);
      RunHolds(states, actions, n - 1);
      StepEscape(states[n - 1], actions[n - 1]);
      if SomethingThrew(states, actions, n - 1) {
        var k :| 0 <= k < n - 1 && k < |actions| && k < |states| && Throwing(states[k], actions[k]);
        assert Throwing(states[k], actions[k]);
      }
    }
  }

  /**
   Every request is recorded once, is under way, or has left through an exception. The requests that are recorded or
   under way are all there are exactly if no `reload` threw while it prepared its candidate.
   */
  lemma RequestsAccountedFor(states: seq<State>, actions: seq<Action>, n: nat)
    requires IsRun(states, actions) && n < |states|
    ensures var s, c := states[n], states[n].counters;
            && c.requests == c.succeeded + c.failed + c.busy + Sum(s.requests, Running, None) + Sum(s.requests, Lost, None)
            && c.timeouts <= c.failed
            && (c.requests == c.succeeded + c.failed + c.busy + Sum(s.requests, Running, None)
                <==> !SomethingThrew(states, actions, n))
  {
    RunHolds(states, actions, n);
    var s := states[n];
    RequestsPartition(s.requests);
    EscapedIffThrown(states, actions, n);
    if r :| 0 <= r < |s.requests| && s.requests[r].phase.Escaped? {
      SumAtLeast(s.requests, r, Lost, None);
    } else {
      SumZero(s.requests, Lost, None);
    }
  }

  /** An exception from a coroutine started with `reload` escapes the accounting. */
  lemma EscapedRequestIsUncounted() returns (states: seq<State>, actions: seq<Action>)
    ensures IsRun(states, actions)
    ensures var s := states[|actions|];
            s.counters == Counters(1, 1, 0, 0, 0, 0) && Sum(s.requests, Running, None) == 0 && !s.slot
  {
    var s1 := Next(Init, Ask(FromReload));
    var s2 := Next(s1, Advance(0, Succeeds));
    var s3 := Next(s2, Advance(0, Throws));
    states, actions := [Init, s1, s2, s3], [Ask(FromReload), Advance(0, Succeeds), Advance(0, Throws)];
    assert s3.requests == [Request(FromReload, Some(0), Escaped)];
    SumZero(s3.requests, Running, None);
  }
}
