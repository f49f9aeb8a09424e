/** Every step of the reload protocol keeps its invariant. */
module ReloadProofs {
  import opened Wrappers
  import opened Sums
  import opened Reload
  import opened ReloadInvariant

  // ----- the halves of `cutover` -----

  /** Of the requests, only the phase of one changes. */
  predicate OnlyMoved(s: State, s': State, r: nat)
    requires r < |s.requests|
  {
    && |s'.requests| == |s.requests|
    && s'.requests == s.requests[r := s.requests[r].(phase := s'.requests[r].phase)]
  }

  /** The generations, and which one is active, stay as they are. */
  predicate SameGens(s: State, s': State) {
    && s'.active == s.active && s'.gens == s.gens && s'.doomed == s.doomed && s'.retired == s.retired
    && s'.closing == s.closing
  }

  /** Up to the end of the drain, a request keeps its candidate and leaves the generations alone. */
  lemma EarlyGoes(s: State, r: nat, choice: Choice)
    requires r < |s.requests| && Early(s.requests[r].phase)
    ensures var s' := EarlyStep(s, r, choice);
            && OnlyMoved(s, s', r) && SameGens(s, s') && s'.counters == s.counters
            && var p' := s'.requests[r].phase;
            && Candidate(p') && p'.cand == s.requests[r].phase.cand
  {
  }

  /** After the drain, a request keeps its candidate until its outcome, which names no other generation. */
  predicate Switches(s: State, s': State, r: nat)
    requires r < |s.requests| && Late(s.requests[r].phase)
  {
    && OnlyMoved(s, s', r) && s'.counters == s.counters && |s'.gens| == |s.gens|
    && var p, p' := s.requests[r].phase, s'.requests[r].phase;
    && (p'.Outcome? || (Late(p') && p'.cand == p.cand))
    && (p'.Outcome? && p'.status == Succeeded ==>
          if p.Retired? then p'.active == Some(p.cand) else p.Discarding? && p.status == Succeeded)
  }

  lemma SwapGoes(s: State, r: nat)
    requires r < |s.requests| && (s.requests[r].phase.Drained? || s.requests[r].phase.Swapped?)
    ensures Switches(s, LateStep(s, r), r)
  {
  }

  lemma EndGoes(s: State, r: nat)
    requires r < |s.requests| && (s.requests[r].phase.Retired? || s.requests[r].phase.Discarding?)
    ensures Switches(s, LateStep(s, r), r)
  {
  }

  lemma LateGoes(s: State, r: nat)
    requires r < |s.requests| && Late(s.requests[r].phase)
    ensures Switches(s, LateStep(s, r), r)
  {
    if s.requests[r].phase.Drained? || s.requests[r].phase.Swapped? {
      SwapGoes(s, r);
    } else {
      EndGoes(s, r);
    }
  }

  // ----- leases -----

  lemma LeasesReplaced(ingress: seq<Ingress>, i: nat, c: Ingress, g: nat)
    requires i < |ingress|
    ensures Sum(ingress[i := c], Lease, Some(g)) + Lease(ingress[i], Some(g)) == Sum(ingress, Lease, Some(g)) + Lease(c, Some(g))
  {
    SumUpdate(ingress, i, c, Lease, Some(g));
  }

  lemma {:induction false} LeasesAppended(ingress: seq<Ingress>, g: nat)
    ensures Sum(ingress + [Arriving], Lease, Some(g)) == Sum(ingress, Lease, Some(g))
  {
    if ingress != [] {
      assert (ingress + [Arriving])[1..] == ingress[1..] + [Arriving];
      LeasesAppended(ingress[1..], g);
    }
  }

  /** A call that keeps its lease, or has none. */
  lemma SameLeases(s: State, s': State, i: nat, c: Ingress)
    requires LeasesExact(s) && i < |s.ingress| && s'.gens == s.gens && s'.ingress == s.ingress[i := c]
    requires c.Routed? ==> c.gen < |s.gens|
    requires forall g: nat {:trigger Lease(c, Some(g))} :: Lease(c, Some(g)) == Lease(s.ingress[i], Some(g))
    ensures LeasesExact(s')
  {
    forall g: nat | g < |s.gens| ensures s'.gens[g].inFlight == Sum(s'.ingress, Lease, Some(g)) {
      LeasesReplaced(s.ingress, i, c, g);
      assert Lease(c, Some(g)) == Lease(s.ingress[i], Some(g));
    }
  }

  lemma PassLeases(s: State, i: nat)
    requires LeasesExact(s) && Guard(s, PassGate(i))
    ensures LeasesExact(PassStep(s, i))
  {
    var s' := PassStep(s, i);
    forall g: nat | g < |s.gens| ensures s'.gens[g].inFlight == Sum(s'.ingress, Lease, Some(g)) {
      LeasesReplaced(s.ingress, i, s'.ingress[i], g);
    }
  }

  /** The last coroutine of a route gives its lease back. */
  lemma ReturnedLeases(gens: seq<Generation>, ingress: seq<Ingress>, i: nat, c: Ingress, g: nat)
    requires i < |ingress| && ingress[i].Routed? && ingress[i].holders == 1 && ingress[i].gen < |gens| && g < |gens|
    requires gens[g].inFlight == Sum(ingress, Lease, Some(g)) && c == Routed(ingress[i].gen, 0)
    ensures Sum(ingress[i := c], Lease, Some(g)) + (if g == ingress[i].gen then 1 else 0) == gens[g].inFlight
  {
    LeasesReplaced(ingress, i, c, g);
  }

  lemma DropLeases(s: State, i: nat)
    requires LeasesExact(s) && Guard(s, Drop(i))
    ensures LeasesExact(DropStep(s, i))
  {
    var s' := DropStep(s, i);
    if s.ingress[i].holders > 1 {
      SameLeases(s, s', i, s'.ingress[i]);
    } else {
      forall g: nat | g < |s.gens| ensures s'.gens[g].inFlight == Sum(s'.ingress, Lease, Some(g)) {
        ReturnedLeases(s.gens, s.ingress, i, s'.ingress[i], s.ingress[i].gen);
        ReturnedLeases(s.gens, s.ingress, i, s'.ingress[i], g);
      }
    }
  }

  lemma NewGeneration(s: State)
    requires LeasesExact(s)
    ensures Sum(s.ingress, Lease, Some(|s.gens|)) == 0
  {
    SumZero(s.ingress, Lease, Some(|s.gens|));
  }

  /** Requests change neither the calls nor the number of leases of a generation. */
  predicate SameFlights(gens: seq<Generation>, gens': seq<Generation>) {
    && |gens| <= |gens'| <= |gens| + 1
    && (forall g | 0 <= g < |gens| :: gens'[g].inFlight == gens[g].inFlight)
    && (|gens'| > |gens| ==> gens'[|gens|] == Generation(false, 0))
  }

  predicate Flies(s: State, s': State) {
    SameFlights(s.gens, s'.gens) && s'.ingress == s.ingress
  }

  lemma AdvanceFlights(s: State, r: nat, choice: Choice)
    requires Guard(s, Advance(r, choice))
    ensures Flies(s, AdvanceStep(s, r, choice))
  {
    var p := s.requests[r].phase;
    if Early(p) {
      EarlyFlights(s, r, choice);
    } else if Late(p) {
      LateFlights(s, r);
    } else {
      assert Flies(s, AdvanceStep(s, r, choice));
    }
  }

  lemma EarlyFlights(s: State, r: nat, choice: Choice)
    requires r < |s.requests| && Early(s.requests[r].phase)
    ensures Flies(s, EarlyStep(s, r, choice))
  {
  }

  lemma LateFlights(s: State, r: nat)
    requires r < |s.requests| && Late(s.requests[r].phase)
    ensures Flies(s, LateStep(s, r))
  {
  }

  lemma FlightLeases(s: State, s': State)
    requires LeasesExact(s) && s'.ingress == s.ingress && SameFlights(s.gens, s'.gens)
    ensures LeasesExact(s')
  {
    NewGeneration(s);
  }

  lemma NextLeases(s: State, a: Action)
    requires LeasesExact(s) && Guard(s, a)
    ensures LeasesExact(Next(s, a))
  {
    var s' := Next(s, a);
    match a
    case Arrive =>
      forall g: nat | g < |s.gens| ensures s'.gens[g].inFlight == Sum(s'.ingress, Lease, Some(g)) {
        LeasesAppended(s.ingress, g);
      }
    case PassGate(i) => PassLeases(s, i);
    case Await(i) => SameLeases(s, s', i, s'.ingress[i]);
    case Resume(i) => SameLeases(s, s', i, s'.ingress[i]);
    case Fork(i) => SameLeases(s, s', i, s'.ingress[i]);
    case Drop(i) => DropLeases(s, i);
    case Expire(i) => SameLeases(s, s', i, s'.ingress[i]);
    case Advance(r, choice) =>
      AdvanceFlights(s, r, choice);
      FlightLeases(s, s');
    case _ => FlightLeases(s, s');
  }

  // ----- the gate and its waiters -----

  /** What a request may do to the gate: keep it or close it, or open it and summon every waiter. */
  predicate GateMoved(s: State, s': State) {
    && s'.ingress == s.ingress && s'.closing == s.closing
    && (s'.active.None? ==> s.active.None?)
    && (|| (s'.waiters == s.waiters && s'.summoned == s.summoned && (s'.open ==> s.open))
        || (!s.closing && s'.open && s'.waiters == {} && s'.summoned == s.summoned + s.waiters))
  }

  /** What a request may do in one step: to the gate, and to no other request. */
  predicate Stepped(s: State, s': State, r: nat)
    requires r < |s.requests|
  {
    && GateMoved(s, s')
    && |s'.requests| == |s.requests| && s'.requests == s.requests[r := s'.requests[r]]
    && (if s'.slot then 1 else 0) - (if s.slot then 1 else 0)
       == HoldsSlot(s'.requests[r], None) - HoldsSlot(s.requests[r], None)
  }

  lemma PreparingStepped(s: State, r: nat, choice: Choice)
    requires r < |s.requests| && s.requests[r].phase.Preparing? && s.slot
    ensures Stepped(s, PreparingStep(s, r, choice), r)
  {
  }

  lemma EarlyStepped(s: State, r: nat, choice: Choice)
    requires r < |s.requests| && s.slot
    requires Early(s.requests[r].phase)
    ensures Stepped(s, EarlyStep(s, r, choice), r)
  {
  }

  lemma LateStepped(s: State, r: nat)
    requires r < |s.requests| && s.slot
    requires Late(s.requests[r].phase)
    ensures Stepped(s, LateStep(s, r), r)
  {
  }

  lemma AdvanceStepped(s: State, r: nat, choice: Choice)
    requires Guard(s, Advance(r, choice)) && SlotExact(s)
    ensures Stepped(s, AdvanceStep(s, r, choice), r)
  {
    SumAtLeast(s.requests, r, HoldsSlot, None);
    var p := s.requests[r].phase;
    if Waits(p) {
      WaitingStepped(s, r);
    } else if p.Preparing? {
      PreparingStepped(s, r, choice);
    } else if Early(p) {
      EarlyStepped(s, r, choice);
    } else if Late(p) {
      LateStepped(s, r);
    } else {
      RecordingStepped(s, r);
    }
  }

  lemma WaitingStepped(s: State, r: nat)
    requires r < |s.requests| && Waits(s.requests[r].phase)
    ensures Stepped(s, WaitingStep(s, r), r)
  {
  }

  lemma RecordingStepped(s: State, r: nat)
    requires r < |s.requests| && Recording(s.requests[r].phase)
    requires s.requests[r].phase.Turned? || s.slot
    ensures Stepped(s, RecordingStep(s, r), r)
  {
  }

  lemma MovedGate(s: State, s': State)
    requires GateOk(s) && NobodyForgotten(s) && GateMoved(s, s')
    ensures GateOk(s') && NobodyForgotten(s')
  {
    forall i | 0 <= i < |s'.ingress| ensures Heard(s'.ingress[i], i, s'.waiters, s'.summoned) {
      assert Heard(s.ingress[i], i, s.waiters, s.summoned);
    }
  }

  lemma HeardReplaced(s: State, s': State, i: nat)
    requires NobodyForgotten(s) && i < |s.ingress|
    requires |s'.ingress| == |s.ingress| && s'.ingress == s.ingress[i := s'.ingress[i]]
    requires forall j {:trigger j in s'.waiters} {:trigger j in s'.summoned} | j != i ::
               (j in s'.waiters <==> j in s.waiters) && (j in s'.summoned <==> j in s.summoned)
    requires Heard(s'.ingress[i], i, s'.waiters, s'.summoned)
    ensures NobodyForgotten(s')
  {
    forall j | 0 <= j < |s'.ingress| ensures Heard(s'.ingress[j], j, s'.waiters, s'.summoned) {
      assert Heard(s.ingress[j], j, s.waiters, s.summoned);
    }
  }

  lemma ArriveHeard(s: State)
    requires NobodyForgotten(s) && WaitersExist(s)
    ensures NobodyForgotten(Next(s, Arrive))
  {
    var s' := Next(s, Arrive);
    forall i | 0 <= i < |s'.ingress| ensures Heard(s'.ingress[i], i, s'.waiters, s'.summoned) {
      assert i in s.waiters + s.summoned ==> i < |s.ingress|;
      if i < |s.ingress| {
        assert Heard(s.ingress[i], i, s.waiters, s.summoned);
      }
    }
  }

  lemma CallGate(s: State, a: Action, i: nat)
    requires GateOk(s) && NobodyForgotten(s) && Guard(s, a)
    requires a == PassGate(i) || a == Await(i) || a == Resume(i) || a == Fork(i) || a == Drop(i) || a == Expire(i)
    ensures GateOk(Next(s, a)) && NobodyForgotten(Next(s, a))
  {
    assert Heard(s.ingress[i], i, s.waiters, s.summoned);
    HeardReplaced(s, Next(s, a), i);
  }

  lemma NextGate(s: State, a: Action)
    requires GateOk(s) && NobodyForgotten(s) && WaitersExist(s) && SlotExact(s) && Guard(s, a)
    ensures GateOk(Next(s, a)) && NobodyForgotten(Next(s, a))
  {
    match a
    case Arrive => ArriveHeard(s);
    case PassGate(i) => CallGate(s, a, i);
    case Await(i) => CallGate(s, a, i);
    case Resume(i) => CallGate(s, a, i);
    case Fork(i) => CallGate(s, a, i);
    case Drop(i) => CallGate(s, a, i);
    case Expire(i) => CallGate(s, a, i);
    case Ask(_) => MovedGate(s, Next(s, a));
    case Advance(r, choice) =>
      AdvanceStepped(s, r, choice);
      MovedGate(s, Next(s, a));
    case BeginShutdown => ClosingHeard(s);
    case Exchange => SameHeard(s, Next(s, a));
    case ShutDoomed(_) => MovedGate(s, Next(s, a));
  }

  lemma SameHeard(s: State, s': State)
    requires NobodyForgotten(s) && s'.ingress == s.ingress && s'.waiters == s.waiters && s'.summoned == s.summoned
    ensures NobodyForgotten(s')
  {
  }

  lemma ClosingHeard(s: State)
    requires GateOk(s) && NobodyForgotten(s)
    ensures GateOk(Next(s, BeginShutdown)) && NobodyForgotten(Next(s, BeginShutdown))
  {
    var s' := Next(s, BeginShutdown);
    forall i | 0 <= i < |s'.ingress| ensures Heard(s'.ingress[i], i, s'.waiters, s'.summoned) {
      assert Heard(s.ingress[i], i, s.waiters, s.summoned);
    }
  }

  lemma NextWaitersExist(s: State, a: Action)
    requires WaitersExist(s) && SlotExact(s) && Guard(s, a)
    ensures WaitersExist(Next(s, a))
  {
    var s' := Next(s, a);
    if a.Advance? {
      AdvanceStepped(s, a.r, a.choice);
    }
    assert |s'.ingress| >= |s.ingress|;
    forall i | i in s'.waiters + s'.summoned ensures i < |s'.ingress| {
      assert i in s.waiters + s.summoned || a == PassGate(i);
    }
  }

  // ----- the slot -----

  lemma SlotReplaced(requests: seq<Request>, r: nat, q: Request)
    requires r < |requests|
    ensures Sum(requests[r := q], HoldsSlot, None) + HoldsSlot(requests[r], None)
            == Sum(requests, HoldsSlot, None) + HoldsSlot(q, None)
  {
    SumUpdate(requests, r, q, HoldsSlot, None);
  }

  /** Only one request is under way. */
  lemma OthersIdle(s: State, r: nat, other: nat)
    requires SlotExact(s) && r < |s.requests| && other < |s.requests| && r != other
    requires HoldsSlot(s.requests[r], None) == 1
    ensures HoldsSlot(s.requests[other], None) == 0
  {
    var idle := s.requests[r].(phase := Counted);
    SlotReplaced(s.requests, r, idle);
    assert s.requests[r := idle][other] == s.requests[other];
    SumAtLeast(s.requests[r := idle], other, HoldsSlot, None);
  }

  lemma NextSlot(s: State, r: nat, choice: Choice)
    requires SlotExact(s) && Guard(s, Advance(r, choice))
    ensures SlotExact(AdvanceStep(s, r, choice))
  {
    AdvanceStepped(s, r, choice);
    SlotReplaced(s.requests, r, AdvanceStep(s, r, choice).requests[r]);
  }

  // ----- phases of the running request -----

  ghost predicate RequestsOk(s: State) {
    && SlotExact(s) && PhasesOk(s) && RequestsKnowGens(s) && ActiveOk(s) && GateOk(s)
    && (!s.open && !s.closing ==> SomebodyCloses(s))
  }

  predicate OwnOk(s: State, r: nat) {
    && r < |s.requests|
    && PhaseOk(s.requests[r], s.active, s.open, s.closing)
    && KnowsGens(s.requests[r].phase, s.gens, s.active, s.doomed)
  }

  lemma ClaimOwn(s: State, r: nat)
    requires RequestsOk(s) && r < |s.requests| && Waits(s.requests[r].phase)
    ensures OwnOk(ClaimStep(s, r), r)
  {
    if !s.slot && !s.open && !s.closing {
      var c :| 0 <= c < |s.requests| && Closes(s.requests[c].phase);
      SumAtLeast(s.requests, c, HoldsSlot, None);
    }
  }

  lemma PreparingOwn(s: State, r: nat, choice: Choice)
    requires RequestsOk(s) && r < |s.requests| && s.requests[r].phase.Preparing?
    ensures OwnOk(PreparingStep(s, r, choice), r)
  {
    assert OwnOk(s, r);
  }

  lemma EarlyGate(s: State, r: nat, choice: Choice)
    requires r < |s.requests| && Early(s.requests[r].phase)
    requires PhaseOk(s.requests[r], s.active, s.open, s.closing) && GateOk(s)
    ensures var s' := EarlyStep(s, r, choice);
            r < |s'.requests| && PhaseOk(s'.requests[r], s'.active, s'.open, s'.closing)
  {
  }

  lemma EarlyKnows(s: State, r: nat, choice: Choice)
    requires Guard(s, Advance(r, choice)) && Early(s.requests[r].phase) && ActiveOk(s)
    requires KnowsGens(s.requests[r].phase, s.gens, s.active, s.doomed)
    ensures var s' := EarlyStep(s, r, choice);
            r < |s'.requests| && KnowsGens(s'.requests[r].phase, s'.gens, s'.active, s'.doomed)
  {
    EarlyGoes(s, r, choice);
  }

  lemma EarlyOwn(s: State, r: nat, choice: Choice)
    requires RequestsOk(s) && Guard(s, Advance(r, choice)) && Early(s.requests[r].phase)
    ensures OwnOk(EarlyStep(s, r, choice), r)
  {
    assert OwnOk(s, r);
    EarlyGate(s, r, choice);
    EarlyKnows(s, r, choice);
  }

  lemma LateGate(s: State, r: nat)
    requires OwnOk(s, r) && Late(s.requests[r].phase) && GateOk(s)
    ensures var s' := LateStep(s, r);
            r < |s'.requests| && PhaseOk(s'.requests[r], s'.active, s'.open, s'.closing)
  {
  }

  lemma LateKnows(s: State, r: nat)
    requires OwnOk(s, r) && Late(s.requests[r].phase) && ActiveOk(s)
    ensures var s' := LateStep(s, r);
            r < |s'.requests| && KnowsGens(s'.requests[r].phase, s'.gens, s'.active, s'.doomed)
  {
  }

  lemma LateOwn(s: State, r: nat)
    requires RequestsOk(s) && r < |s.requests| && Late(s.requests[r].phase)
    ensures OwnOk(LateStep(s, r), r)
  {
    assert OwnOk(s, r);
    LateGate(s, r);
    LateKnows(s, r);
  }

  lemma RecordingOwn(s: State, r: nat)
    requires RequestsOk(s) && r < |s.requests| && Recording(s.requests[r].phase)
    ensures OwnOk(RecordingStep(s, r), r)
  {
    assert OwnOk(s, r);
  }

  lemma WaitingOwn(s: State, r: nat)
    requires RequestsOk(s) && r < |s.requests| && Waits(s.requests[r].phase)
    ensures OwnOk(WaitingStep(s, r), r)
  {
    ClaimOwn(s, r);
  }

  lemma AdvanceOwn(s: State, r: nat, choice: Choice)
    requires RequestsOk(s) && Guard(s, Advance(r, choice))
    ensures OwnOk(AdvanceStep(s, r, choice), r)
  {
    var p := s.requests[r].phase;
    if Waits(p) {
      WaitingOwn(s, r);
    } else if p.Preparing? {
      PreparingOwn(s, r, choice);
    } else if Early(p) {
      EarlyOwn(s, r, choice);
    } else if Late(p) {
      LateOwn(s, r);
    } else {
      RecordingOwn(s, r);
    }
  }

  /** A request that does not hold the slot leaves gate and generations alone. */
  lemma IdleChangesNothing(s: State, r: nat, choice: Choice)
    requires Guard(s, Advance(r, choice)) && HoldsSlot(s.requests[r], None) == 0
    ensures var s' := AdvanceStep(s, r, choice);
            s'.active == s.active && s'.open == s.open && s'.closing == s.closing && s'.gens == s.gens
            && s'.doomed == s.doomed && s'.retired == s.retired
    ensures !Closes(s.requests[r].phase)
  {
  }

  /** Nothing that another request goes by has changed. */
  lemma SameSurroundings(s: State, s': State, other: nat)
    requires OwnOk(s, other) && other < |s'.requests| && s'.requests[other] == s.requests[other]
    requires s'.active == s.active && s'.open == s.open && s'.closing == s.closing && s'.gens == s.gens
    requires s'.doomed == s.doomed
    ensures OwnOk(s', other)
  {
  }

  /** A request that does not hold the slot goes by nothing. */
  lemma IdleOwn(s: State, other: nat)
    requires other < |s.requests| && HoldsSlot(s.requests[other], None) == 0
    ensures OwnOk(s, other)
  {
  }

  lemma AdvanceOthers(s: State, r: nat, choice: Choice, other: nat)
    requires RequestsOk(s) && Guard(s, Advance(r, choice)) && other < |s.requests| && other != r
    ensures var s' := AdvanceStep(s, r, choice);
            |s'.requests| == |s.requests| && s'.requests[other] == s.requests[other] && OwnOk(s', other)
  {
    AdvanceStepped(s, r, choice);
    var s' := AdvanceStep(s, r, choice);
    if HoldsSlot(s.requests[r], None) == 1 {
      OthersIdle(s, r, other);
      IdleOwn(s', other);
    } else {
      assert OwnOk(s, other);
      IdleChangesNothing(s, r, choice);
      SameSurroundings(s, s', other);
    }
  }

  lemma AdvancePhases(s: State, r: nat, choice: Choice)
    requires RequestsOk(s) && Guard(s, Advance(r, choice))
    ensures var s' := AdvanceStep(s, r, choice); PhasesOk(s') && RequestsKnowGens(s')
  {
    AdvanceStepped(s, r, choice);
    var s' := AdvanceStep(s, r, choice);
    forall i | 0 <= i < |s'.requests| ensures PhaseOk(s'.requests[i], s'.active, s'.open, s'.closing) {
      AdvanceEach(s, r, choice, i);
    }
    forall i | 0 <= i < |s'.requests| ensures KnowsGens(s'.requests[i].phase, s'.gens, s'.active, s'.doomed) {
      AdvanceEach(s, r, choice, i);
    }
  }

  lemma AdvanceEach(s: State, r: nat, choice: Choice, i: nat)
    requires RequestsOk(s) && Guard(s, Advance(r, choice)) && i < |s.requests|
    ensures |AdvanceStep(s, r, choice).requests| == |s.requests| && OwnOk(AdvanceStep(s, r, choice), i)
  {
    AdvanceStepped(s, r, choice);
    if i == r {
      AdvanceOwn(s, r, choice);
    } else {
      AdvanceOthers(s, r, choice, i);
    }
  }

  lemma AdvanceCloses(s: State, r: nat, choice: Choice)
    requires RequestsOk(s) && Guard(s, Advance(r, choice))
    ensures var s' := AdvanceStep(s, r, choice); !s'.open && !s'.closing ==> SomebodyCloses(s')
  {
    AdvanceStepped(s, r, choice);
    AdvanceOwn(s, r, choice);
    var s' := AdvanceStep(s, r, choice);
    if !s'.open && !s'.closing && !Closes(s'.requests[r].phase) {
      if HoldsSlot(s.requests[r], None) == 0 {
        IdleChangesNothing(s, r, choice);
        var c :| 0 <= c < |s.requests| && Closes(s.requests[c].phase);
        assert Closes(s'.requests[c].phase);
      } else {
        assert OwnOk(s, r);
        EndingPhases(s, r, choice);
        if s.requests[r].phase.Preparing? || s.requests[r].phase.Recorded? {
          EndsOpen(s, r, choice);
        } else {
          LeavesOpen(s, s', r);
        }
      }
    }
  }

  lemma LeavesOpen(s: State, s': State, r: nat)
    requires OwnOk(s', r) && HoldsSlot(s'.requests[r], None) == 1 && !Closes(s'.requests[r].phase)
    ensures s'.open || s'.closing
  {
  }

  /** A request that ends found the gate open. */
  lemma EndsOpen(s: State, r: nat, choice: Choice)
    requires OwnOk(s, r) && Guard(s, Advance(r, choice))
    requires s.requests[r].phase.Preparing? || s.requests[r].phase.Recorded?
    ensures AdvanceStep(s, r, choice).open || AdvanceStep(s, r, choice).closing
  {
  }

  lemma EndingPhases(s: State, r: nat, choice: Choice)
    requires Guard(s, Advance(r, choice)) && HoldsSlot(s.requests[r], None) == 1
    requires Stepped(s, AdvanceStep(s, r, choice), r)
    ensures s.requests[r].phase.Preparing? || s.requests[r].phase.Recorded?
            || HoldsSlot(AdvanceStep(s, r, choice).requests[r], None) == 1
  {
    if Early(s.requests[r].phase) {
      EarlyHolds(s, r, choice);
    } else if Late(s.requests[r].phase) {
      LateHolds(s, r);
    }
  }

  lemma EarlyHolds(s: State, r: nat, choice: Choice)
    requires r < |s.requests| && Early(s.requests[r].phase)
    ensures r < |EarlyStep(s, r, choice).requests| && HoldsSlot(EarlyStep(s, r, choice).requests[r], None) == 1
  {
    EarlyGoes(s, r, choice);
  }

  lemma LateHolds(s: State, r: nat)
    requires r < |s.requests| && Late(s.requests[r].phase)
    ensures r < |LateStep(s, r).requests| && HoldsSlot(LateStep(s, r).requests[r], None) == 1
  {
    LateGoes(s, r);
  }

  // ----- generations -----

  lemma LateActive(s: State, r: nat)
    requires RequestsOk(s) && r < |s.requests| && Late(s.requests[r].phase)
    ensures ActiveOk(LateStep(s, r))
  {
    assert OwnOk(s, r);
  }

  lemma WaitingGens(s: State, r: nat)
    requires r < |s.requests| && Waits(s.requests[r].phase)
    ensures SameGens(s, WaitingStep(s, r))
  {
  }

  lemma RecordingGens(s: State, r: nat)
    requires r < |s.requests| && Recording(s.requests[r].phase)
    ensures SameGens(s, RecordingStep(s, r))
  {
  }

  lemma SameActive(s: State, s': State)
    requires ActiveOk(s) && SameGens(s, s')
    ensures ActiveOk(s')
  {
  }

  lemma AdvanceActive(s: State, r: nat, choice: Choice)
    requires RequestsOk(s) && Guard(s, Advance(r, choice))
    ensures ActiveOk(AdvanceStep(s, r, choice))
  {
    var p := s.requests[r].phase;
    if p.Preparing? {
      PreparingActive(s, r, choice);
    } else if Late(p) {
      LateActive(s, r);
    } else {
      OtherGens(s, r, choice);
      SameActive(s, AdvanceStep(s, r, choice));
    }
  }

  lemma OtherGens(s: State, r: nat, choice: Choice)
    requires Guard(s, Advance(r, choice)) && !s.requests[r].phase.Preparing? && !Late(s.requests[r].phase)
    ensures SameGens(s, AdvanceStep(s, r, choice))
  {
    var p := s.requests[r].phase;
    if Waits(p) {
      WaitingGens(s, r);
    } else if Early(p) {
      EarlyGoes(s, r, choice);
    } else {
      RecordingGens(s, r);
    }
  }

  lemma PreparingActive(s: State, r: nat, choice: Choice)
    requires ActiveOk(s) && r < |s.requests| && s.requests[r].phase.Preparing?
    ensures ActiveOk(PreparingStep(s, r, choice))
  {
  }

  /** A step of request `r` hands no generation over to nobody. */
  lemma SettledKeeps(s: State, s': State, r: nat, g: nat)
    requires r < |s.requests| && |s'.requests| == |s.requests| && s'.requests == s.requests[r := s'.requests[r]]
    requires g < |s.gens| <= |s'.gens| && Settled(s, g)
    requires s.gens[g].down ==> s'.gens[g].down
    requires g in s.doomed ==> g in s'.doomed
    requires s.active == Some(g) ==> s'.active == Some(g) || Owns(s'.requests[r].phase, g)
    requires Owns(s.requests[r].phase, g) ==>
               Owns(s'.requests[r].phase, g) || s'.gens[g].down || s'.active == Some(g)
    ensures Settled(s', g)
  {
    if SomebodyOwns(s.requests, g) {
      var c :| 0 <= c < |s.requests| && Owns(s.requests[c].phase, g);
      assert c != r ==> Owns(s'.requests[c].phase, g);
    }
  }

  /** What happens to one generation when a request moves. */
  predicate Handed(s: State, s': State, r: nat, g: nat)
    requires g < |s.gens| <= |s'.gens| && r < |s.requests| && r < |s'.requests|
  {
    && (s.gens[g].down ==> s'.gens[g].down)
    && (g in s.doomed ==> g in s'.doomed)
    && (s.active == Some(g) ==> s'.active == Some(g) || Owns(s'.requests[r].phase, g))
    && (Owns(s.requests[r].phase, g) ==> Owns(s'.requests[r].phase, g) || s'.gens[g].down || s'.active == Some(g))
  }

  lemma EarlyHanded(s: State, r: nat, choice: Choice, g: nat)
    requires RequestsOk(s) && Guard(s, Advance(r, choice)) && g < |s.gens|
    requires Early(s.requests[r].phase)
    ensures |EarlyStep(s, r, choice).requests| == |s.requests| && Handed(s, EarlyStep(s, r, choice), r, g)
  {
    EarlyGoes(s, r, choice);
  }

  lemma LateHanded(s: State, r: nat, g: nat)
    requires RequestsOk(s) && r < |s.requests| && g < |s.gens| && Late(s.requests[r].phase)
    ensures |LateStep(s, r).requests| == |s.requests| && Handed(s, LateStep(s, r), r, g)
  {
    assert OwnOk(s, r);
  }

  lemma AdvanceSettled(s: State, r: nat, choice: Choice)
    requires RequestsOk(s) && GenerationsSettled(s) && Guard(s, Advance(r, choice))
    ensures GenerationsSettled(AdvanceStep(s, r, choice))
  {
    AdvanceStepped(s, r, choice);
    AdvanceFlights(s, r, choice);
    var s' := AdvanceStep(s, r, choice);
    forall g: nat | g < |s'.gens| ensures Settled(s', g) {
      if g < |s.gens| {
        var p := s.requests[r].phase;
        if Early(p) {
          EarlyHanded(s, r, choice, g);
        } else if Late(p) {
          LateHanded(s, r, g);
        } else {
          OtherHanded(s, r, choice, g);
        }
        SettledKeeps(s, s', r, g);
      } else {
        NewIsOwned(s, r, choice);
      }
    }
  }

  lemma OtherHanded(s: State, r: nat, choice: Choice, g: nat)
    requires Guard(s, Advance(r, choice)) && g < |s.gens|
    requires var p := s.requests[r].phase; Waits(p) || p.Preparing? || Recording(p)
    ensures var s' := AdvanceStep(s, r, choice);
            |s'.requests| == |s.requests| && |s'.gens| >= |s.gens| && Handed(s, s', r, g)
  {
  }

  lemma NewIsOwned(s: State, r: nat, choice: Choice)
    requires Guard(s, Advance(r, choice)) && |AdvanceStep(s, r, choice).gens| > |s.gens|
    ensures var s' := AdvanceStep(s, r, choice); r < |s'.requests| && Owns(s'.requests[r].phase, |s.gens|)
  {
    var p := s.requests[r].phase;
    if !p.Preparing? {
      NothingNew(s, r, choice);
    }
  }

  lemma NothingNew(s: State, r: nat, choice: Choice)
    requires Guard(s, Advance(r, choice)) && !s.requests[r].phase.Preparing?
    ensures |AdvanceStep(s, r, choice).gens| == |s.gens|
  {
    if Early(s.requests[r].phase) {
      EarlyGoes(s, r, choice);
    } else if Late(s.requests[r].phase) {
      LateGoes(s, r);
    }
  }
}
