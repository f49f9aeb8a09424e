/** Every step of the executor keeps every part of its invariant. */
module ExecutorProofs {
  import opened Wrappers
  import opened Sums
  import opened Executor
  import opened ExecutorInvariant

  // ----- counters and items -----

  lemma WorkerSums(ws: seq<Worker>, w: nat, p: Worker)
    requires w < |ws|
    ensures Sum(ws[w := p], Window, None) + Window(ws[w], None) == Sum(ws, Window, None) + Window(p, None)
    ensures forall x {:trigger Sum(ws[w := p], Held, x)} ::
              Sum(ws[w := p], Held, x) + Held(ws[w], x) == Sum(ws, Held, x) + Held(p, x)
  {
    SumUpdate(ws, w, p, Window, None);
    forall x ensures Sum(ws[w := p], Held, x) + Held(ws[w], x) == Sum(ws, Held, x) + Held(p, x) {
      SumUpdate(ws, w, p, Held, x);
    }
  }

  lemma QueueSums(qs: seq<seq<nat>>, q: nat, queue: seq<nat>)
    requires q < |qs|
    ensures forall x {:trigger Sum(qs[q := queue], Contents, x)} ::
              Sum(qs[q := queue], Contents, x) + Contents(qs[q], x) == Sum(qs, Contents, x) + Contents(queue, x)
  {
    forall x ensures Sum(qs[q := queue], Contents, x) + Contents(qs[q], x) == Sum(qs, Contents, x) + Contents(queue, x) {
      SumUpdate(qs, q, queue, Contents, x);
    }
  }

  lemma PickedContents(queue: seq<nat>, own: bool, x: Option<nat>)
    requires queue != []
    ensures Contents(queue, x) == Contents(Rest(queue, own), x) + Held(Popped(Picked(queue, own)), x)
  {
    if own {
      assert queue == Rest(queue, own) + [Picked(queue, own)];
    } else {
      assert queue == [Picked(queue, own)] + Rest(queue, own);
    }
  }

  ghost predicate Tallied(s: State) {
    && CountsExact(s.workers, s.queues, s.runnable, s.active, s.closer)
    && ItemsConserved(s)
  }

  lemma TakeTallied(s: State, w: nat, q: nat)
    requires Shaped(s) && Tallied(s) && Guard(s, Take(w, q))
    ensures Tallied(Next(s, Take(w, q)))
  {
    var queue, own := s.queues[q], q == w;
    WorkerSums(s.workers, w, Popped(Picked(queue, own)));
    QueueSums(s.queues, q, Rest(queue, own));
    var s' := Next(s, Take(w, q));
    forall x: nat ensures Places(s', x) == Places(s, x) {
      PickedContents(queue, own, Some(x));
    }
  }

  lemma LowerTallied(s: State, w: nat)
    requires Shaped(s) && Tallied(s) && Guard(s, Lower(w))
    ensures Tallied(Next(s, Lower(w)))
  {
    WorkerSums(s.workers, w, Executing(s.workers[w].item));
    var s' := Next(s, Lower(w));
    forall x: nat ensures Places(s', x) == Places(s, x) {
    }
  }

  lemma FinishTallied(s: State, w: nat)
    requires Shaped(s) && Tallied(s) && Guard(s, Finish(w))
    ensures Tallied(Next(s, Finish(w)))
  {
    WorkerSums(s.workers, w, Finished(s.active == 1));
    var s' := Next(s, Finish(w));
    assert multiset(s'.executed) == multiset(s.executed) + multiset{s'.executed[|s.executed|]};
    forall x: nat ensures Places(s', x) == Places(s, x) {
    }
  }

  lemma PushTallied(s: State, p: nat)
    requires Shaped(s) && Tallied(s) && Guard(s, Push(p))
    ensures Tallied(Next(s, Push(p)))
  {
    var q := QueueOf(s.producers[p].target, |s.workers|);
    QueueSums(s.queues, q, s.queues[q] + [s.next]);
    var s' := Next(s, Push(p));
    forall x: nat ensures Places(s', x) == Places(s, x) + if x == s.next then 1 else 0 {
    }
  }

  lemma ClearTallied(s: State)
    requires Shaped(s) && Tallied(s) && s.closer.Clearing? && s.closer.next <= |s.workers|
    ensures Tallied(CloseStep(s))
  {
    var q := ClearedQueue(s.closer.next, |s.workers|);
    QueueSums(s.queues, q, []);
    var s' := CloseStep(s);
    forall x: nat ensures Places(s', x) == Places(s, x) {
    }
  }

  lemma WokenSums(ws: seq<Worker>, epoch: nat)
    ensures Sum(WokenAll(ws, epoch), Window, None) == Sum(ws, Window, None)
    ensures forall x {:trigger Sum(WokenAll(ws, epoch), Held, x)} :: Sum(WokenAll(ws, epoch), Held, x) == Sum(ws, Held, x)
  {
    SumSame(WokenAll(ws, epoch), ws, Window, None);
    forall x ensures Sum(WokenAll(ws, epoch), Held, x) == Sum(ws, Held, x) {
      SumSame(WokenAll(ws, epoch), ws, Held, x);
    }
  }

  lemma UntouchedTallied(s: State, s': State)
    requires Tallied(s)
    requires s'.workers == s.workers && s'.queues == s.queues && s'.executed == s.executed && s'.cancelled == s.cancelled
    requires s'.active == s.active && s'.next == s.next
    requires s'.runnable - Unsubtracted(s'.closer) == s.runnable - Unsubtracted(s.closer)
    ensures Tallied(s')
  {
    forall x: nat ensures Places(s', x) == Places(s, x) {
    }
  }

  lemma WokenTallied(s: State, s': State)
    requires Tallied(s) && s' == s.(workers := WokenAll(s.workers, s.epoch), closer := s'.closer)
    requires Unsubtracted(s'.closer) == Unsubtracted(s.closer)
    ensures Tallied(s')
  {
    WokenSums(s.workers, s.epoch);
    forall x: nat ensures Places(s', x) == Places(s, x) {
    }
  }

  lemma CloseTallied(s: State)
    requires Shaped(s) && Tallied(s) && Guard(s, Close)
    ensures Tallied(CloseStep(s))
  {
    if s.closer.Clearing? && s.closer.next <= |s.workers| {
      ClearTallied(s);
    } else if s.closer.CloserNotified? {
      WokenTallied(s, CloseStep(s));
    } else {
      KeepsTally(s);
      UntouchedTallied(s, CloseStep(s));
    }
  }

  lemma KeepsTally(s: State)
    requires Shaped(s) && !s.closer.Free? && !s.closer.CloserNotified?
    requires s.closer.Clearing? ==> s.closer.next > |s.workers|
    ensures var s' := CloseStep(s);
            && s'.workers == s.workers && s'.queues == s.queues && s'.executed == s.executed && s'.cancelled == s.cancelled
            && s'.active == s.active && s'.next == s.next
            && s'.runnable - Unsubtracted(s'.closer) == s.runnable - Unsubtracted(s.closer)
  {
  }

  predicate Idle(p: Worker) {
    !p.Popped? && !p.Executing?
  }

  lemma LookTallied(s: State, w: nat)
    requires Shaped(s) && Tallied(s) && Guard(s, Look(w))
    ensures Tallied(Next(s, Look(w)))
  {
    var p := Looked(s.workers[w], s);
    assert Idle(p) && Idle(s.workers[w]);
    if s.workers[w].NotifiedAll? {
      var s1 := s.(workers := WokenAll(s.workers, s.epoch));
      WokenTallied(s, s1);
      IdleTallied(s1, LookStep(s, w), w, p);
    } else {
      IdleTallied(s, LookStep(s, w), w, p);
    }
  }

  lemma IdleTallied(s: State, s': State, w: nat, p: Worker)
    requires w < |s.workers| && Idle(s.workers[w]) && Idle(p) && Tallied(s)
    requires s'.workers == s.workers[w := p] && s'.queues == s.queues && s'.runnable == s.runnable && s'.active == s.active
    requires s'.closer == s.closer && s'.executed == s.executed && s'.cancelled == s.cancelled && s'.next == s.next
    ensures Tallied(s')
  {
    WorkerSums(s.workers, w, p);
    forall x: nat ensures Places(s', x) == Places(s, x) {
    }
  }

  lemma MovedTallied(s: State, a: Action)
    requires Shaped(s) && Tallied(s) && Guard(s, a) && Mover(a).Some?
    ensures Tallied(WorkerStep(s, a))
  {
    var w := Mover(a).value;
    if a.Take? {
      TakeTallied(s, w, a.q);
    } else if a.Lower? {
      LowerTallied(s, w);
    } else if a.Finish? {
      FinishTallied(s, w);
    } else if a.Look? {
      LookTallied(s, w);
    } else {
      IdleTallied(s, WorkerStep(s, a), w, WorkerStep(s, a).workers[w]);
    }
  }

  lemma CalledTallied(s: State, a: Action)
    requires Shaped(s) && Tallied(s) && Guard(s, a) && Caller(a).Some?
    ensures Tallied(CallStep(s, a))
  {
    if a.Push? {
      PushTallied(s, a.p);
    } else if a.NotifyOne? && a.sleeper.Some? {
      IdleTallied(s, CallStep(s, a), a.sleeper.value, Quiet(None));
    } else {
      UntouchedTallied(s, CallStep(s, a));
    }
  }

  lemma NextTallied(s: State, a: Action)
    requires Shaped(s) && Tallied(s) && Guard(s, a)
    ensures Tallied(Next(s, a))
  {
    if Mover(a).Some? {
      MovedTallied(s, a);
    } else if Caller(a).Some? {
      CalledTallied(s, a);
    } else if a.Close? {
      CloseTallied(s);
    } else {
      UntouchedTallied(s, Next(s, a));
    }
  }

  // ----- epochs and calls -----

  lemma ReplacedEpochs(ws: seq<Worker>, w: nat, p: Worker, epoch: nat)
    requires w < |ws| && EpochsPast(ws, epoch)
    requires EpochOf(p).Some? ==> EpochOf(p).value <= epoch
    ensures EpochsPast(ws[w := p], epoch)
  {
  }

  lemma LookEpochs(s: State, w: nat)
    requires Shaped(s) && EpochsPast(s.workers, s.epoch) && Guard(s, Look(w))
    ensures EpochsPast(LookStep(s, w).workers, LookStep(s, w).epoch)
  {
    var p := Looked(s.workers[w], s);
    assert EpochOf(p).Some? ==> EpochOf(p) == EpochOf(s.workers[w]);
    ReplacedEpochs(s.workers, w, p, LookStep(s, w).epoch);
    ReplacedEpochs(WokenAll(s.workers, s.epoch), w, p, s.epoch);
  }

  lemma MovedEpochs(s: State, a: Action)
    requires Shaped(s) && EpochsPast(s.workers, s.epoch) && Guard(s, a) && Mover(a).Some?
    ensures EpochsPast(WorkerStep(s, a).workers, WorkerStep(s, a).epoch)
  {
    if a.Look? {
      LookEpochs(s, a.w);
    } else {
      var w := Mover(a).value;
      ReplacedEpochs(s.workers, w, WorkerStep(s, a).workers[w], s.epoch);
    }
  }

  lemma CalledEpochs(s: State, a: Action)
    requires Shaped(s) && EpochsPast(s.workers, s.epoch) && Guard(s, a) && Caller(a).Some?
    ensures EpochsPast(CallStep(s, a).workers, CallStep(s, a).epoch)
  {
    if a.NotifyOne? && a.sleeper.Some? {
      ReplacedEpochs(s.workers, a.sleeper.value, Quiet(None), s.epoch);
    } else {
      assert CallStep(s, a).workers == s.workers;
    }
  }

  lemma NextEpochs(s: State, a: Action)
    requires Shaped(s) && EpochsPast(s.workers, s.epoch) && Guard(s, a)
    ensures EpochsPast(Next(s, a).workers, Next(s, a).epoch)
  {
    if Mover(a).Some? {
      MovedEpochs(s, a);
    } else if Caller(a).Some? {
      CalledEpochs(s, a);
    }
  }

  // ----- no lost wakeup -----

  lemma LosslessWorker(ws: seq<Worker>, w: nat, p: Worker, ps: seq<Producer>, runnable: int, runnable': int, epoch: nat)
    requires w < |ws| && Lossless(ws, ps, runnable, epoch) && runnable' <= runnable
    requires Alert(p) || runnable' <= 0
             || (!Alert(ws[w]) && (Drowsy(p, epoch) ==> Drowsy(ws[w], epoch))
                 && (Wakeable(ws[w], epoch) ==> Wakeable(p, epoch)))
    ensures Lossless(ws[w := p], ps, runnable', epoch)
  {
    var ws' := ws[w := p];
    if Alert(p) {
      assert Alert(ws'[w]);
    } else if runnable' > 0 && SomeDrowsy(ws', epoch) {
      var d :| 0 <= d < |ws'| && Drowsy(ws'[d], epoch);
      assert Drowsy(ws[d], epoch);
      if SomeAlert(ws) {
        var i :| 0 <= i < |ws| && Alert(ws[i]);
        assert Alert(ws'[i]);
      } else if !SomeOwes(ps, |ws|) {
        var i :| 0 <= i < |ws| && Wakeable(ws[i], epoch);
        assert Wakeable(ws'[i], epoch);
      }
    }
  }

  /** Raising the epoch outdates every worker that is falling asleep and every sleeper. */
  lemma LosslessRaise(ws: seq<Worker>, ps: seq<Producer>, ps': seq<Producer>, runnable: int, epoch: nat)
    requires |ws| > 0 && Lossless(ws, ps, runnable, epoch) && EpochsPast(ws, epoch)
    requires ps' == ps || SomeNotified(ps')
    ensures Lossless(ws, ps', runnable, epoch + 1)
  {
    if runnable > 0 && SomeDrowsy(ws, epoch + 1) {
      var d :| 0 <= d < |ws| && Drowsy(ws[d], epoch + 1);
      assert ws[d].Blocked? && Drowsy(ws[d], epoch) && Wakeable(ws[d], epoch + 1);
    }
  }

  lemma LosslessWokenAll(ws: seq<Worker>, ps: seq<Producer>, runnable: int, epoch: nat)
    requires |ws| > 0 && Lossless(ws, ps, runnable, epoch)
    ensures Lossless(WokenAll(ws, epoch), ps, runnable, epoch)
  {
    var ws' := WokenAll(ws, epoch);
    if SomeWakeable(ws, epoch) {
      var i :| 0 <= i < |ws| && Wakeable(ws[i], epoch);
      assert Alert(ws'[i]);
    } else {
      assert forall i | 0 <= i < |ws| :: !Wakeable(ws[i], epoch);
      assert ws' == ws;
    }
  }

  lemma LosslessAlert(ws: seq<Worker>, w: nat, ps: seq<Producer>, runnable: int, epoch: nat)
    requires w < |ws| && Alert(ws[w])
    ensures Lossless(ws, ps, runnable, epoch)
  {
  }

  /** A call that changes position keeps the property unless it gives up its obligation. */
  lemma LosslessCall(ws: seq<Worker>, ps: seq<Producer>, p: nat, me: Producer, runnable: int, epoch: nat)
    requires |ws| > 0 && p < |ps| && Lossless(ws, ps, runnable, epoch)
    requires Owes(ps[p], |ws|) ==> Owes(me, |ws|)
    requires ps[p].call.Notified? ==> me.call.Notified? || !SomeWakeable(ws, epoch)
    ensures Lossless(ws, ps[p := me], runnable, epoch)
  {
    var ps' := ps[p := me];
    if SomeOwes(ps, |ws|) {
      var i :| 0 <= i < |ps| && Owes(ps[i], |ws|);
      assert Owes(ps'[i], |ws|);
    }
    if SomeNotified(ps) && SomeWakeable(ws, epoch) {
      var i :| 0 <= i < |ps| && ps[i].call.Notified?;
      assert ps'[i].call.Notified?;
    }
  }

  /** An active item has a worker, and that worker is alert. */
  lemma ActiveIsAlert(ws: seq<Worker>)
    requires Sum(ws, Held, None) > 0
    ensures SomeAlert(ws)
  {
    var w := SumWitness(ws, Held, None);
    assert Alert(ws[w]);
  }

  lemma PushLossless(s: State, p: nat)
    requires Inv(s) && Guard(s, Push(p))
    ensures var s' := Next(s, Push(p)); Lossless(s'.workers, s'.producers, s'.runnable, s'.epoch)
  {
    var me := s.producers[p].(call := Pushed(s.runnable));
    var ps' := s.producers[p := me];
    if s.runnable > 0 {
      LosslessCall(s.workers, s.producers, p, me, s.runnable, s.epoch);
    } else if Local(me, |s.workers|) {
      assert CallOk(s.producers[p], s.workers);
      LosslessAlert(s.workers, me.thread.value, ps', s.runnable + 1, s.epoch);
    } else {
      assert s.runnable == 0;
      assert Owes(ps'[p], |s.workers|);
    }
  }

  lemma DecideLossless(s: State, p: nat)
    requires Inv(s) && Guard(s, Decide(p))
    ensures var s' := Next(s, Decide(p)); Lossless(s'.workers, s'.producers, s'.runnable, s'.epoch)
  {
    var me := s.producers[p];
    assert CallOk(me, s.workers);
    if me.call.previous == 0 && s.active > 0 {
      ActiveIsAlert(s.workers);
      var w :| 0 <= w < |s.workers| && Alert(s.workers[w]);
      LosslessAlert(s.workers, w, Next(s, Decide(p)).producers, s.runnable, s.epoch);
    } else {
      LosslessCall(s.workers, s.producers, p, Next(s, Decide(p)).producers[p], s.runnable, s.epoch);
    }
  }

  lemma CallLossless(s: State, a: Action)
    requires Inv(s) && Guard(s, a) && (a.Enter? || a.Check? || a.Raise? || a.NotifyOne?)
    ensures Shaped(Next(s, a)) && LosslessIn(Next(s, a))
  {
    if a.Enter? {
      EnterLossless(s.workers, s.producers, Next(s, a).producers[|s.producers|], s.runnable, s.epoch);
    } else if a.Check? {
      LosslessCall(s.workers, s.producers, a.p, CallStep(s, a).producers[a.p], s.runnable, s.epoch);
    } else if a.Raise? {
      assert CallStep(s, a).producers[a.p].call.Notified?;
      LosslessRaise(s.workers, s.producers, CallStep(s, a).producers, s.runnable, s.epoch);
    } else {
      NotifyLossless(s, a.p, a.sleeper);
    }
  }

  lemma NotifyLossless(s: State, p: nat, sleeper: Option<nat>)
    requires Inv(s) && Guard(s, NotifyOne(p, sleeper))
    ensures Shaped(CallStep(s, NotifyOne(p, sleeper))) && LosslessIn(CallStep(s, NotifyOne(p, sleeper)))
  {
    var s' := CallStep(s, NotifyOne(p, sleeper));
    if sleeper.Some? {
      LosslessAlert(s'.workers, sleeper.value, s'.producers, s.runnable, s.epoch);
    } else {
      LosslessCall(s.workers, s.producers, p, s'.producers[p], s.runnable, s.epoch);
    }
  }

  lemma EnterLossless(ws: seq<Worker>, ps: seq<Producer>, me: Producer, runnable: int, epoch: nat)
    requires |ws| > 0 && Lossless(ws, ps, runnable, epoch)
    ensures Lossless(ws, ps + [me], runnable, epoch)
  {
    var ps' := ps + [me];
    if SomeOwes(ps, |ws|) {
      var i :| 0 <= i < |ps| && Owes(ps[i], |ws|);
      assert Owes(ps'[i], |ws|);
    }
    if SomeNotified(ps) {
      var i :| 0 <= i < |ps| && ps[i].call.Notified?;
      assert ps'[i].call.Notified?;
    }
  }

  lemma LookLossless(s: State, w: nat)
    requires Inv(s) && Guard(s, Look(w))
    ensures var s' := Next(s, Look(w)); Lossless(s'.workers, s'.producers, s'.runnable, s'.epoch)
  {
    var p := Looked(s.workers[w], s);
    if s.workers[w].WillNotifyAll? {
      LosslessRaise(s.workers, s.producers, s.producers, s.runnable, s.epoch);
      LosslessWorker(s.workers, w, p, s.producers, s.runnable, s.runnable, s.epoch + 1);
    } else if s.workers[w].NotifiedAll? {
      LosslessWokenAll(s.workers, s.producers, s.runnable, s.epoch);
      LosslessWorker(WokenAll(s.workers, s.epoch), w, p, s.producers, s.runnable, s.runnable, s.epoch);
    } else {
      LosslessWorker(s.workers, w, p, s.producers, s.runnable, s.runnable, s.epoch);
    }
  }

  lemma CloseLossless(s: State)
    requires Inv(s) && Guard(s, Close)
    ensures var s' := Next(s, Close); Lossless(s'.workers, s'.producers, s'.runnable, s'.epoch)
  {
    if s.closer.CloserWillNotify? {
      LosslessRaise(s.workers, s.producers, s.producers, s.runnable, s.epoch);
    } else if s.closer.CloserNotified? {
      LosslessWokenAll(s.workers, s.producers, s.runnable, s.epoch);
    }
  }

  ghost predicate LosslessIn(s: State)
    requires Shaped(s)
  {
    Lossless(s.workers, s.producers, s.runnable, s.epoch)
  }

  lemma MovedLossless(s: State, a: Action)
    requires Inv(s) && Guard(s, a) && Mover(a).Some?
    ensures Shaped(WorkerStep(s, a)) && LosslessIn(WorkerStep(s, a))
  {
    var s', w := WorkerStep(s, a), Mover(a).value;
    if a.Look? {
      LookLossless(s, w);
    } else if a.Wait? {
      LosslessWorker(s.workers, w, s'.workers[w], s.producers, s.runnable, s.runnable, s.epoch);
    } else {
      LosslessAlert(s'.workers, w, s.producers, s'.runnable, s.epoch);
    }
  }

  lemma NextLossless(s: State, a: Action)
    requires Inv(s) && Guard(s, a)
    ensures Shaped(Next(s, a)) && LosslessIn(Next(s, a))
  {
    if Mover(a).Some? {
      MovedLossless(s, a);
    } else if Caller(a).Some? {
      CalledLossless(s, a);
    } else if a.Enter? {
      CallLossless(s, a);
    } else if a.Close? {
      CloseLossless(s);
    }
  }

  lemma CalledLossless(s: State, a: Action)
    requires Inv(s) && Guard(s, a) && Caller(a).Some?
    ensures Shaped(CallStep(s, a)) && LosslessIn(CallStep(s, a))
  {
    if a.Push? {
      PushLossless(s, a.p);
    } else if a.Decide? {
      DecideLossless(s, a.p);
    } else {
      CallLossless(s, a);
    }
  }
}
