/**
 Cancellation of an actor task: registrations of callbacks race with the request. Every registration is a number; one
 step is one atomic exchange, one section under the mutex, or one invocation of a callback.
 */
module Cancellation {
  /** Where a registration stands; `Listed` is in the state's list, `Late` found the request already made. */
  datatype Registrar = Started | Listed | Late | Returned

  /** `armed`: the callback has not been removed; `calls`: how often it was invoked. */
  datatype Registration = Registration(registrar: Registrar, armed: bool, calls: nat)

  /** The thread that made the request: it takes the whole list and then notifies it one by one. */
  datatype Requester = Nobody | Exchanged | Notifying(todo: seq<nat>) | Done

  datatype State = State(requested: bool, requester: Requester, callbacks: seq<nat>, registrations: seq<Registration>)

  const Init := State(false, Nobody, [], [])

  datatype Action =
    | Register              // construct the registration
    | Enlist(r: nat)        // the section of register_callback under the mutex
    | NotifyLate(r: nat)    // its notification after the section
    | Request               // the exchange of request_cancellation; a second request returns at once
    | TakeList              // the swap under the mutex
    | NotifyNext
    | Deactivate(r: nat)

  /** `notify`: the callback runs if it is still there. */
  function Notified(g: Registration): Registration {
    if g.armed then g.(calls := g.calls + 1) else g
  }

  predicate Guard(s: State, a: Action) {
    match a
    case Register => true
    case Enlist(r) => r < |s.registrations| && s.registrations[r].registrar.Started?
    case NotifyLate(r) => r < |s.registrations| && s.registrations[r].registrar.Late?
    case Request => true
    case TakeList => s.requester.Exchanged?
    case NotifyNext => s.requester.Notifying?
    case Deactivate(r) => r < |s.registrations|
  }

  function Next(s: State, a: Action): State
    requires Guard(s, a)
  {
    match a
    case Register => s.(registrations := s.registrations + [Registration(Started, true, 0)])
    case Enlist(r) =>
      if s.requested then s.(registrations := s.registrations[r := s.registrations[r].(registrar := Late)])
      else s.(callbacks := s.callbacks + [r], registrations := s.registrations[r := s.registrations[r].(registrar := Listed)])
    case NotifyLate(r) => s.(registrations := s.registrations[r := Notified(s.registrations[r]).(registrar := Returned)])
    case Request => if s.requested then s else s.(requested := true, requester := Exchanged)
    case TakeList => s.(requester := Notifying(s.callbacks), callbacks := [])
    case NotifyNext =>
      var todo := s.requester.todo;
      if todo == [] then s.(requester := Done)
      else if todo[0] >= |s.registrations| then s.(requester := Notifying(todo[1..]))
      else s.(requester := Notifying(todo[1..]),
              registrations := s.registrations[todo[0] := Notified(s.registrations[todo[0]])])
    case Deactivate(r) => s.(registrations := s.registrations[r := s.registrations[r].(armed := false)])
  }

  ghost predicate IsRun(states: seq<State>, actions: seq<Action>) {
    && |states| == |actions| + 1 && states[0] == Init
    && forall k | 0 <= k < |actions| :: Guard(states[k], actions[k]) && states[k + 1] == Next(states[k], actions[k])
  }

  // ----- invariant -----

  /** Who is still going to notify a registration. */
  function Queued(s: State): seq<nat> {
    s.callbacks + if s.requester.Notifying? then s.requester.todo else []
  }

  /** A registration that somebody is going to notify was not called; any other listed one was called once if live. */
  predicate Told(g: Registration, queued: bool) {
    && g.calls <= 1
    && (g.registrar.Started? || g.registrar.Late? || queued ==> g.calls == 0)
    && (queued ==> g.registrar.Listed?)
    && ((g.registrar.Returned? || (g.registrar.Listed? && !queued)) && g.armed ==> g.calls == 1)
  }

  predicate NoRepeats(q: seq<nat>) {
    forall i, j | 0 <= i < j < |q| :: q[i] != q[j]
  }

  predicate Inv(s: State) {
    && NoRepeats(Queued(s))
    && (forall r | r in Queued(s) :: r < |s.registrations|)
    && (forall r | 0 <= r < |s.registrations| :: Told(s.registrations[r], r in Queued(s)))
    && (s.requested <==> !s.requester.Nobody?)
    && (s.requester.Notifying? || s.requester.Done? ==> s.callbacks == [])
    && (!s.requested ==> forall r | 0 <= r < |s.registrations| ::
          s.registrations[r].calls == 0 && (s.registrations[r].registrar.Started? || s.registrations[r].registrar.Listed?))
  }

  lemma NextKeeps(s: State, a: Action)
    requires Inv(s) && Guard(s, a)
    ensures Inv(Next(s, a))
  {
    var s' := Next(s, a);
    match a
    case Enlist(r) =>
      assert r !in Queued(s);
      if !s.requested {
        assert Queued(s') == Queued(s) + [r];
      } else {
        assert Queued(s') == Queued(s);
      }
    case TakeList => assert Queued(s') == Queued(s);
    case NotifyNext => NotifyKeeps(s);
    case _ => assert Queued(s') == Queued(s);
  }

  lemma NotifyKeeps(s: State)
    requires Inv(s) && s.requester.Notifying?
    ensures Inv(Next(s, NotifyNext))
  {
    var s', todo := Next(s, NotifyNext), s.requester.todo;
    assert Queued(s) == todo;
    if todo == [] {
      assert Queued(s') == [];
    } else {
      var first, rest := todo[0], todo[1..];
      assert first in Queued(s);
      assert Queued(s') == rest;
      HeadLeaves(todo);
      forall r | 0 <= r < |s'.registrations| ensures Told(s'.registrations[r], r in Queued(s')) {
        assert Told(s.registrations[r], r in Queued(s));
      }
    }
  }

  lemma HeadLeaves(todo: seq<nat>)
    requires todo != [] && NoRepeats(todo)
    ensures NoRepeats(todo[1..])
    ensures forall r :: r in todo[1..] <==> r in todo && r != todo[0]
  {
    assert todo == [todo[0]] + todo[1..];
  }

  lemma {:induction false} RunHolds(states: seq<State>, actions: seq<Action>, n: nat)
    requires IsRun(states, actions) && n < |states|
    ensures Inv(states[n])
  {
    if n > 0 {
      RunHolds(states, actions, n - 1);
      NextKeeps(states[n - 1], actions[n - 1]);
    }
  }

  // ----- what follows -----

  /** No callback runs before cancellation is requested, and none ever runs twice. */
  lemma NeverEarlyNeverTwice(states: seq<State>, actions: seq<Action>, n: nat, r: nat)
    requires IsRun(states, actions) && n < |states| && r < |states[n].registrations|
    ensures states[n].registrations[r].calls <= 1
    ensures !states[n].requested ==> states[n].registrations[r].calls == 0
  {
    RunHolds(states, actions, n);
    assert Told(states[n].registrations[r], r in Queued(states[n]));
  }

  /** A callback that was never removed has run exactly once when both the request and the registration are over. */
  lemma LiveCallbacksRunOnce(states: seq<State>, actions: seq<Action>, n: nat, r: nat)
    requires IsRun(states, actions) && n < |states| && r < |states[n].registrations|
    requires states[n].requester.Done? && states[n].registrations[r].armed
    requires states[n].registrations[r].registrar.Listed? || states[n].registrations[r].registrar.Returned?
    ensures states[n].registrations[r].calls == 1
  {
    RunHolds(states, actions, n);
    assert Told(states[n].registrations[r], r in Queued(states[n]));
  }

  /** Once removed, a callback does not run any more. */
  lemma {:induction false} RemovedStaysSilent(states: seq<State>, actions: seq<Action>, m: nat, n: nat, r: nat)
    requires IsRun(states, actions) && m <= n < |states|
    requires r < |states[m].registrations| && !states[m].registrations[r].armed
    ensures r < |states[n].registrations| && !states[n].registrations[r].armed
    ensures states[n].registrations[r].calls == states[m].registrations[r].calls
  {
    if m < n {
      RemovedStaysSilent(states, actions, m, n - 1, r);
    }
  }

  /** The notifications that the requester still owes, once it has taken the list. */
  function Left(s: State): nat {
    if s.requester.Notifying? then |s.requester.todo| + 1 else 0
  }

  /** Every notification brings the requester nearer to its end. */
  lemma NotifyingEnds(s: State)
    requires Guard(s, NotifyNext)
    ensures Left(Next(s, NotifyNext)) == Left(s) - 1
    ensures Left(Next(s, NotifyNext)) == 0 ==> Next(s, NotifyNext).requester.Done?
  {
  }

  /** A registration that comes before the request is in the list that the requester takes; a later one notifies itself. */
  lemma EnlistingDecides(states: seq<State>, actions: seq<Action>, k: nat, r: nat)
    requires IsRun(states, actions) && k < |actions| && actions[k] == Enlist(r)
    ensures var s, s' := states[k], states[k + 1];
            && r < |s.registrations| == |s'.registrations| && s'.requester == s.requester
            && (if s.requested then s'.registrations[r].registrar.Late? && s'.callbacks == s.callbacks
                else s'.registrations[r].registrar.Listed? && s'.callbacks == s.callbacks + [r])
            && s'.registrations[r].armed == s.registrations[r].armed && s'.registrations[r].calls == s.registrations[r].calls
  {
  }

  // ----- the object -----

  /** The state's flag and list; each method is one atomic exchange or one section under the mutex. */
  class ActorCancellationState {
    var requested: bool
    var callbacks: seq<nat>

    constructor ()
      ensures !requested && callbacks == []
    {
      requested, callbacks := false, [];
    }

    ghost predicate Shows(s: State)
      reads this
    {
      s.requested == requested && s.callbacks == callbacks
    }

    /** Returns whether this is the first request, which goes on to notify. */
    method Exchange(ghost s: State) returns (first: bool)
      requires Shows(s)
      modifies this`requested
      ensures Shows(Next(s, Request)) && (first <==> Next(s, Request) != s)
      ensures requested && first == !old(requested)
    {
      first := !requested;
      requested := true;
    }

    method SwapList(ghost s: State) returns (taken: seq<nat>)
      requires Shows(s) && s.requester.Exchanged?
      modifies this`callbacks
      ensures Shows(Next(s, TakeList)) && Next(s, TakeList).requester == Notifying(taken)
      ensures taken == old(callbacks) && callbacks == []
    {
      taken := callbacks;
      callbacks := [];
    }

    /** Returns whether the registration has to notify itself. */
    method List(r: nat, ghost s: State) returns (late: bool)
      requires Shows(s) && Guard(s, Enlist(r))
      modifies this`callbacks
      ensures Shows(Next(s, Enlist(r)))
      ensures late <==> Next(s, Enlist(r)).registrations[r].registrar.Late?
      ensures late == requested && callbacks == if late then old(callbacks) else old(callbacks) + [r]
    {
      late := requested;
      if !late {
        callbacks := callbacks + [r];
      }
    }
  }
}
