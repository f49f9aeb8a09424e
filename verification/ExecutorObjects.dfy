/**
 The executor's queues and counters as an object. Each method runs one critical section, or the chain of them that
 one thread performs when no other thread comes in between; the functions of Executor.dfy say what each one does.
 */
module ExecutorObjects {
  import opened Wrappers
  import opened Sums
  import opened Executor
  import opened ExecutorInvariant

  class ActorWorkStealingExecutor {
    const deques: array<seq<nat>>
    var injector: seq<nat>
    var runnable: int
    var active: int
    var epoch: nat
    var accepting: bool
    var requested: bool
    var cancelling: bool
    var joined: bool

    ghost predicate Valid()
      reads this
    {
      deques.Length > 0
    }

    function Queues(): (r: seq<seq<nat>>)
      reads this, deques
      ensures |r| == deques.Length + 1
    {
      deques[..] + [injector]
    }

    constructor (workers: nat)
      requires workers > 0
      ensures Valid() && fresh(deques) && deques.Length == workers
      ensures Queues() == Init(workers).queues && runnable == 0 && active == 0 && epoch == 0
      ensures accepting && !requested && !cancelling && !joined
    {
      deques := new seq<nat>[workers](i => []);
      injector, runnable, active, epoch := [], 0, 0, 0;
      accepting, requested, cancelling, joined := true, false, false, false;
    }

    method TryPopLocal(worker: nat) returns (item: Option<nat>)
      requires Valid() && worker < deques.Length
      modifies this`active, this`runnable, deques
      ensures Took(old(Queues()), Queues(), worker, true, item)
      ensures var queue := old(deques[worker]);
              if queue == [] then item == None && Queues() == old(Queues())
              else item == Some(queue[|queue| - 1]) && Queues() == old(Queues())[worker := queue[..|queue| - 1]]
      ensures active == old(active) + Claimed(item) && runnable == old(runnable) - Claimed(item)
    {
      var queue := deques[worker];
      if queue == [] {
        return None;
      }
      item := Some(queue[|queue| - 1]);
      deques[worker] := queue[..|queue| - 1];
      active := active + 1;
      runnable := runnable - 1;
    }

    method TryPopInjector() returns (item: Option<nat>)
      requires Valid()
      modifies this`active, this`runnable, this`injector
      ensures Took(old(Queues()), Queues(), deques.Length, false, item)
      ensures if old(injector) == [] then item == None && Queues() == old(Queues())
              else item == Some(old(injector)[0]) && Queues() == old(Queues())[deques.Length := old(injector)[1..]]
      ensures active == old(active) + Claimed(item) && runnable == old(runnable) - Claimed(item)
    {
      if injector == [] {
        return None;
      }
      item := Some(injector[0]);
      injector := injector[1..];
      active := active + 1;
      runnable := runnable - 1;
    }

    /**
     Takes the oldest item of the first non-empty deque of another worker, in ring order from `start`; `offset` is
     the number of deques passed over, or that of all deques.
     */
    method TrySteal(worker: nat, start: nat) returns (item: Option<nat>, offset: nat)
      requires Valid() && worker < deques.Length && start < deques.Length
      modifies this`active, this`runnable, deques
      ensures offset <= deques.Length && (item.None? <==> offset == deques.Length)
      ensures forall o | 0 <= o < offset ::
                Ring(start, o, deques.Length) == worker || old(Queues())[Ring(start, o, deques.Length)] == []
      ensures item.None? ==> Queues() == old(Queues())
      ensures item.Some? ==>
                && Ring(start, offset, deques.Length) != worker
                && Took(old(Queues()), Queues(), Ring(start, offset, deques.Length), false, item)
                && var victim, queue := Ring(start, offset, deques.Length), old(Queues())[Ring(start, offset, deques.Length)];
                && queue != [] && item.value == queue[0] && Queues() == old(Queues())[victim := queue[1..]]
      ensures active == old(active) + Claimed(item) && runnable == old(runnable) - Claimed(item)
    {
      item, offset := None, 0;
      ghost var before := Queues();
      while offset < deques.Length
        invariant offset <= deques.Length
        invariant forall o | 0 <= o < offset ::
                    Ring(start, o, deques.Length) == worker || deques[Ring(start, o, deques.Length)] == []
        invariant Queues() == before
      {
        var victim := Ring(start, offset, deques.Length);
        if victim != worker && deques[victim] != [] {
          item := Some(deques[victim][0]);
          deques[victim] := deques[victim][1..];
          active := active + 1;
          runnable := runnable - 1;
          return;
        }
        offset := offset + 1;
      }
    }

    /** Own deque, then injector, then the other deques; `from` is the queue that gave the item. */
    method TryTakeWork(worker: nat, start: nat) returns (item: Option<nat>, from: nat)
      requires Valid() && worker < deques.Length && start < deques.Length
      modifies this`active, this`runnable, this`injector, deques
      ensures item.None? ==> Queues() == old(Queues())
      ensures item.None? ==> runnable == 0 || forall q | 0 <= q < |Queues()| :: Queues()[q] == []
      ensures item.Some? ==>
                && from < |Queues()|
                && var queue := old(Queues())[from];
                && queue != []
                && (if from == worker then
                      item.value == queue[|queue| - 1] && Queues() == old(Queues())[from := queue[..|queue| - 1]]
                    else item.value == queue[0] && Queues() == old(Queues())[from := queue[1..]])
      ensures item.Some? && from != worker ==> old(Queues())[worker] == []
      ensures item.Some? && from != worker && from != deques.Length ==> old(Queues())[deques.Length] == []
      ensures active == old(active) + Claimed(item) && runnable == old(runnable) - Claimed(item)
    {
      from := worker;
      item := TryPopLocal(worker);
      if item.Some? {
        return;
      }
      from := deques.Length;
      item := TryPopInjector();
      if item.Some? {
        return;
      }
      if runnable == 0 {
        return;
      }
      var offset;
      item, offset := TrySteal(worker, start);
      from := Ring(start, offset, deques.Length);
      if item.None? {
        forall q | 0 <= q < |Queues()| ensures Queues()[q] == [] {
          if q < deques.Length {
            var o := RingReaches(start, q, deques.Length);
          }
        }
      }
    }

    /** The part of `enqueue` under the mutex of the chosen queue, and the decision whether to notify. */
    method Enqueue(item: nat, p: Producer) returns (ok: bool, notify: bool)
      requires Valid()
      modifies this`injector, this`runnable, deques
      ensures ok <==> && !cancelling && !joined && (p.internal || accepting)
                      && (requested ==> p.internal && p.thread.Some?)
      ensures var q := if p.target.None? then deques.Length else p.target.value % deques.Length;
              Queues() == if ok then old(Queues())[q := old(Queues()[q]) + [item]] else old(Queues())
      ensures runnable == old(runnable) + if ok then 1 else 0
      ensures notify <==> && ok && old(runnable) + active < deques.Length
                          && !(p.internal && p.thread.Some? && p.target.Some?
                               && p.target.value % deques.Length == p.thread.value)
    {
      ok := !Refusing(cancelling, accepting, requested, joined, p);
      if !ok {
        return false, false;
      }
      var previous := runnable;
      if p.target.None? {
        injector := injector + [item];
      } else {
        var preferred := p.target.value % deques.Length;
        deques[preferred] := deques[preferred] + [item];
      }
      runnable := runnable + 1;
      notify := Notifies(p, previous, active, deques.Length);
    }

    /** `clear_queued_work`. */
    method ClearQueuedWork() returns (removed: seq<nat>)
      requires Valid()
      modifies this`injector, this`runnable, deques
      ensures forall q | 0 <= q < |Queues()| :: Queues()[q] == []
      ensures forall x :: multiset(removed)[x] == Sum(old(Queues()), Contents, Some(x))
      ensures |removed| == Sum(old(Queues()), Contents, None)
      ensures runnable == old(runnable) - |removed|
    {
      removed := injector;
      ghost var before := Queues();
      injector := [];
      var i := 0;
      SumAppend(deques[..], before[deques.Length]);
      while i < deques.Length
        invariant i <= deques.Length
        invariant runnable == old(runnable) && injector == [] && forall j | 0 <= j < i :: deques[j] == []
        invariant forall j | i <= j < deques.Length :: deques[j] == before[j]
        invariant forall key :: Sum(before, Contents, key) == Contents(removed, key) + Sum(deques[..], Contents, key)
      {
        RemoveOne(before, removed, deques[..], i);
        removed := removed + deques[i];
        ghost var was := deques[..];
        deques[i] := [];
        assert deques[..] == was[i := []];
        i := i + 1;
      }
      forall key ensures Sum(deques[..], Contents, key) == 0 {
        SumZero(deques[..], Contents, key);
      }
      forall x ensures multiset(removed)[x] == Sum(before, Contents, Some(x)) {
        assert Contents(removed, Some(x)) == multiset(removed)[x];
      }
      assert Contents(removed, None) == |removed|;
      runnable := runnable - |removed|;
    }
  }

  /** What a worker does to the queues when it looks into queue `q` for an item. */
  predicate Took(before: seq<seq<nat>>, after: seq<seq<nat>>, q: nat, own: bool, item: Option<nat>) {
    && q < |before|
    && (if before[q] == [] then item == None && after == before
        else item == Some(Picked(before[q], own)) && after == before[q := Rest(before[q], own)])
  }

  function Claimed(item: Option<nat>): nat {
    if item.Some? then 1 else 0
  }

  /** The position `offset` steps after `start` in a ring of `n`. */
  function Ring(start: nat, offset: nat, n: nat): (r: nat)
    requires n > 0
    ensures r < n
  {
    (start + offset) % n
  }

  /** The walk around the ring visits every position. */
  lemma RingReaches(start: nat, v: nat, n: nat) returns (o: nat)
    requires start < n && v < n
    ensures o < n && Ring(start, o, n) == v
  {
    o := if start <= v then v - start else v + n - start;
    WrapOnce(start + o, n);
  }

  lemma WrapOnce(i: nat, n: nat)
    requires i < 2 * n
    ensures i % n == if i < n then i else i - n
  {
  }

  lemma {:induction false} SumAppend(qs: seq<seq<nat>>, last: seq<nat>)
    ensures forall key :: Sum(qs + [last], Contents, key) == Sum(qs, Contents, key) + Contents(last, key)
  {
    forall key ensures Sum(qs + [last], Contents, key) == Sum(qs, Contents, key) + Contents(last, key) {
      if qs != [] {
        assert (qs + [last])[1..] == qs[1..] + [last];
        SumAppend(qs[1..], last);
      }
    }
  }

  lemma RemoveOne(before: seq<seq<nat>>, removed: seq<nat>, qs: seq<seq<nat>>, i: nat)
    requires i < |qs|
    requires forall key :: Sum(before, Contents, key) == Contents(removed, key) + Sum(qs, Contents, key)
    ensures forall key :: Sum(before, Contents, key) == Contents(removed + qs[i], key) + Sum(qs[i := []], Contents, key)
  {
    forall key ensures Sum(before, Contents, key) == Contents(removed + qs[i], key) + Sum(qs[i := []], Contents, key) {
      SumUpdate(qs, i, [], Contents, key);
    }
  }

  /** The object takes items the way the protocol's workers do. */
  lemma TookIsTake(s: State, w: nat, q: nat, after: seq<seq<nat>>, item: Option<nat>)
    requires Shaped(s) && w < |s.workers| && s.workers[w].Scanning? && item.Some?
    requires Took(s.queues, after, q, q == w, item)
    ensures Guard(s, Take(w, q))
    ensures Next(s, Take(w, q)).queues == after && Next(s, Take(w, q)).workers[w] == Popped(item.value)
  {
  }
}
