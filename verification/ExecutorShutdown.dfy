/** Every step of the executor keeps the parts of its invariant that concern shutdowns. */
module ExecutorShutdown {
  import opened Wrappers
  import opened Sums
  import opened Executor
  import opened ExecutorInvariant
  import opened ExecutorProofs

  // ----- sleepers are woken -----

  /** A worker changes position without raising or dropping an alarm. */
  lemma StuckWorker(ws: seq<Worker>, w: nat, p: Worker, c: Closer, runnable: int, active: int, epoch: nat)
    requires w < |ws| && NobodyStuck(ws, c, runnable, active, epoch)
    requires Stuck(p, epoch) ==> runnable > 0 || active > 0 || (Stuck(ws[w], epoch) && !Wakeable(ws[w], epoch))
    requires Alarmed(ws[w]) ==> Alarmed(p)
    requires ws[w].NotifiedAll? ==> forall i | 0 <= i < |ws| :: !Wakeable(ws[i], epoch)
    ensures NobodyStuck(ws[w := p], c, runnable, active, epoch)
  {
    var ws' := ws[w := p];
    if Alarm(ws, c) && !CloserAlarmed(c) {
      var i :| 0 <= i < |ws| && Alarmed(ws[i]);
      assert Alarmed(ws'[i]);
    }
    forall i | 0 <= i < |ws'| && Stuck(ws'[i], epoch) ensures Rescued(ws'[i], ws', c, runnable, active, epoch) {
      if active <= 0 && runnable <= 0 {
        assert Stuck(ws[i], epoch) && Rescued(ws[i], ws, c, runnable, active, epoch);
        if Wakeable(ws[i], epoch) && AlarmRaised(ws, c) && !c.CloserNotified? {
          var j :| 0 <= j < |ws| && ws[j].NotifiedAll?;
          assert ws'[j].NotifiedAll?;
        }
      }
    }
  }

  /** Whoever raises the epoch makes every sleeper wakeable. */
  lemma StuckRaise(ws: seq<Worker>, c: Closer, c': Closer, runnable: int, active: int, epoch: nat)
    requires EpochsPast(ws, epoch)
    requires AlarmRaised(ws, c') || (c' == c && NobodyStuck(ws, c, runnable, active, epoch))
    ensures NobodyStuck(ws, c', runnable, active, epoch + 1)
  {
    forall i | 0 <= i < |ws| && Stuck(ws[i], epoch + 1) ensures Rescued(ws[i], ws, c', runnable, active, epoch + 1) {
      assert ws[i].Blocked? && Stuck(ws[i], epoch);
    }
  }

  lemma StuckWokenAll(ws: seq<Worker>, c: Closer, c': Closer, runnable: int, active: int, epoch: nat)
    requires NobodyStuck(ws, c, runnable, active, epoch)
    requires CloserAlarmed(c) <==> CloserAlarmed(c')
    ensures NobodyStuck(WokenAll(ws, epoch), c', runnable, active, epoch)
  {
    var ws' := WokenAll(ws, epoch);
    if Alarm(ws, c) && !CloserAlarmed(c) {
      var i :| 0 <= i < |ws| && Alarmed(ws[i]);
      assert Alarmed(ws'[i]);
    }
    forall i | 0 <= i < |ws'| && Stuck(ws'[i], epoch) ensures Rescued(ws'[i], ws', c', runnable, active, epoch) {
      assert Stuck(ws[i], epoch) && !Wakeable(ws[i], epoch);
    }
  }

  lemma StuckNone(ws: seq<Worker>, c: Closer, runnable: int, active: int, epoch: nat)
    requires active > 0 || runnable > 0 || Alarm(ws, c)
    ensures NobodyStuck(ws, c, runnable, active, epoch)
  {
  }

  ghost predicate Wakes(s: State) {
    NobodyStuck(s.workers, s.closer, s.runnable, s.active, s.epoch)
  }

  lemma LookStuck(s: State, w: nat)
    requires Inv(s) && Guard(s, Look(w)) && s.requested
    ensures Wakes(LookStep(s, w))
  {
    var p := Looked(s.workers[w], s);
    var ws' := s.workers[w := p];
    CountersNatural(s);
    if s.workers[w].WillNotifyAll? {
      assert ws'[w].NotifiedAll?;
      ReplacedEpochs(s.workers, w, p, s.epoch);
      StuckRaise(ws', s.closer, s.closer, s.runnable, s.active, s.epoch);
    } else if s.workers[w].NotifiedAll? {
      StuckWokenAll(s.workers, s.closer, s.closer, s.runnable, s.active, s.epoch);
      StuckWorker(WokenAll(s.workers, s.epoch), w, p, s.closer, s.runnable, s.active, s.epoch);
    } else if s.workers[w] == Finished(true) {
      if s.runnable == 0 {
        assert Alarmed(ws'[w]);
      }
      StuckNone(ws', s.closer, s.runnable, s.active, s.epoch);
    } else {
      StuckWorker(s.workers, w, p, s.closer, s.runnable, s.active, s.epoch);
    }
  }

  lemma CountersNatural(s: State)
    requires Inv(s)
    ensures s.runnable >= 0 && s.active >= 0
  {
  }

  lemma CloseStuck(s: State)
    requires Inv(s) && Guard(s, Close) && CloseStep(s).requested
    ensures Wakes(CloseStep(s))
  {
    var s' := CloseStep(s);
    match s.closer
    case CloserWillNotify => StuckRaise(s.workers, s.closer, s'.closer, s.runnable, s.active, s.epoch);
    case CloserNotified => StuckWokenAll(s.workers, s.closer, s'.closer, s.runnable, s.active, s.epoch);
    case _ => StuckNone(s'.workers, s'.closer, s'.runnable, s'.active, s'.epoch);
  }

  lemma LowerStuck(s: State, w: nat)
    requires Inv(s) && Guard(s, Lower(w))
    ensures Wakes(Next(s, Lower(w)))
  {
    SumAtLeast(s.workers, w, Held, None);
    StuckNone(Next(s, Lower(w)).workers, s.closer, s.runnable - 1, s.active, s.epoch);
  }

  lemma FinishStuck(s: State, w: nat)
    requires Inv(s) && Guard(s, Finish(w))
    ensures Wakes(Next(s, Finish(w)))
  {
    SumAtLeast(s.workers, w, Held, None);
    var s' := Next(s, Finish(w));
    assert s.active == 1 ==> Alarmed(s'.workers[w]);
    StuckNone(s'.workers, s.closer, s.runnable, s.active - 1, s.epoch);
  }

  lemma MovedStuck(s: State, a: Action)
    requires Inv(s) && Guard(s, a) && Mover(a).Some? && s.requested
    ensures Wakes(WorkerStep(s, a))
  {
    var s', w := WorkerStep(s, a), Mover(a).value;
    CountersNatural(s);
    if a.Take? {
      StuckNone(s'.workers, s.closer, s.runnable, s.active + 1, s.epoch);
    } else if a.Lower? {
      LowerStuck(s, w);
    } else if a.Finish? {
      FinishStuck(s, w);
    } else if a.Look? {
      LookStuck(s, w);
    } else {
      StuckWorker(s.workers, w, s'.workers[w], s.closer, s.runnable, s.active, s.epoch);
    }
  }

  lemma CalledStuck(s: State, a: Action)
    requires Inv(s) && Guard(s, a) && Caller(a).Some? && s.requested
    ensures Wakes(CallStep(s, a))
  {
    CountersNatural(s);
    if a.Push? {
      StuckNone(s.workers, s.closer, s.runnable + 1, s.active, s.epoch);
    } else if a.Raise? {
      StuckRaise(s.workers, s.closer, s.closer, s.runnable, s.active, s.epoch);
    } else if a.NotifyOne? && a.sleeper.Some? {
      StuckWorker(s.workers, a.sleeper.value, Quiet(None), s.closer, s.runnable, s.active, s.epoch);
    }
  }

  lemma NextStuck(s: State, a: Action)
    requires Inv(s) && Guard(s, a)
    ensures ShutdownWakes(Next(s, a))
  {
    if Mover(a).Some? {
      MovedRequested(s, a);
      if s.requested {
        MovedStuck(s, a);
      }
    } else if Caller(a).Some? {
      CalledRequested(s, a);
      if s.requested {
        CalledStuck(s, a);
      }
    } else if Next(s, a).requested {
      if a.Shutdown? {
        ShutdownStuck(s, Next(s, a).closer);
      } else if a.Close? {
        CloseStuck(s);
      }
    }
  }

  lemma MovedRequested(s: State, a: Action)
    requires Shaped(s) && Guard(s, a) && Mover(a).Some?
    ensures WorkerStep(s, a).requested == s.requested
  {
  }

  lemma CalledRequested(s: State, a: Action)
    requires Shaped(s) && Guard(s, a) && Caller(a).Some?
    ensures CallStep(s, a).requested == s.requested
  {
  }

  lemma ShutdownStuck(s: State, c: Closer)
    requires Wakes(s) && s.closer.Free?
    ensures NobodyStuck(s.workers, c, s.runnable, s.active, s.epoch)
  {
    forall i | 0 <= i < |s.workers| && Stuck(s.workers[i], s.epoch)
      ensures Rescued(s.workers[i], s.workers, c, s.runnable, s.active, s.epoch)
    {
    }
  }

  // ----- owed items -----

  lemma HolderUnarmed(s: State, x: nat)
    requires Sum(s.workers, Held, Some(x)) > 0
    ensures exists w | 0 <= w < |s.workers| :: Held(s.workers[w], Some(x)) == 1 && Unarmed(s.workers[w])
  {
    var w := SumWitness(s.workers, Held, Some(x));
    assert Held(s.workers[w], Some(x)) == 1 && Unarmed(s.workers[w]);
  }

  /** With the runnable counter at zero, whatever is outstanding is being executed. */
  lemma {:induction false} QueuesEmpty(qs: seq<seq<nat>>, x: nat)
    requires Sum(qs, Contents, None) == 0
    ensures Sum(qs, Contents, Some(x)) == 0
  {
    if qs != [] {
      QueuesEmpty(qs[1..], x);
    }
  }

  ghost predicate SomeUnarmed(ws: seq<Worker>) {
    exists w | 0 <= w < |ws| :: Unarmed(ws[w])
  }

  /** A worker that has just read a zero counter may leave: another one executes what is outstanding. */
  lemma ZeroIsSafe(s: State, w: nat, p: Worker)
    requires Inv(s) && w < |s.workers| && s.runnable == 0 && Idle(s.workers[w])
    ensures (exists x :: Outstanding(s, x)) ==> SomeUnarmed(s.workers[w := p])
  {
    if x :| Outstanding(s, x) {
      QueuesEmpty(s.queues, x);
      HolderUnarmed(s, x);
      var i :| 0 <= i < |s.workers| && Held(s.workers[i], Some(x)) == 1 && Unarmed(s.workers[i]);
      assert Unarmed(s.workers[w := p][i]);
    }
  }

  lemma IdleOutstanding(s: State, s': State, w: nat, p: Worker)
    requires w < |s.workers| && Idle(s.workers[w]) && Idle(p)
    requires s'.workers == s.workers[w := p] && s'.queues == s.queues && s'.owed == s.owed
    ensures (exists x :: Outstanding(s', x)) ==> exists x :: Outstanding(s, x)
  {
    if x :| Outstanding(s', x) {
      WorkerSums(s.workers, w, p);
      assert Outstanding(s, x);
    }
  }

  lemma LookOwed(s: State, w: nat)
    requires Inv(s) && Guard(s, Look(w))
    ensures OwedAreSafe(LookStep(s, w))
  {
    var s' := LookStep(s, w);
    var p := s'.workers[w];
    if Unarmed(p) {
    } else if s.requested && !s.cancelling {
      IdleOutstanding(s, s', w, p);
      if s.workers[w].Armed? {
        if SomeUnarmed(s.workers) {
          var i :| 0 <= i < |s.workers| && Unarmed(s.workers[i]);
          assert s.workers[w].at.Some? && Unarmed(s'.workers[i]);
        }
      } else {
        ZeroIsSafe(s, w, p);
      }
    }
  }

  lemma PushOwed(s: State, p: nat)
    requires Inv(s) && Guard(s, Push(p))
    ensures OwedAreSafe(Next(s, Push(p)))
  {
    var s' := Next(s, Push(p));
    var me := s.producers[p];
    assert CallOk(me, s.workers);
    if me.internal && me.thread.Some? {
      assert Unarmed(s'.workers[me.thread.value]);
    } else if s.requested {
      if x :| Outstanding(s', x) {
        var q := QueueOf(me.target, |s.workers|);
        QueueSums(s.queues, q, s.queues[q] + [s.next]);
        assert Outstanding(s, x);
      }
    }
  }

  lemma CloseOwed(s: State)
    requires Inv(s) && Guard(s, Close)
    ensures OwedAreSafe(CloseStep(s))
  {
    var s' := CloseStep(s);
    if s.closer.Stopping? && !s.requested {
      assert Unarmed(s'.workers[0]);
    } else if s.closer.CloserNotified? {
      WokenSums(s.workers, s.epoch);
      WokenOwed(s, s');
    } else if s'.requested && !s'.cancelling {
      SameOwed(s, s');
    }
  }

  lemma WokenOwed(s: State, s': State)
    requires OwedAreSafe(s) && s' == s.(workers := WokenAll(s.workers, s.epoch), closer := s'.closer)
    ensures OwedAreSafe(s')
  {
    if x :| Outstanding(s', x) {
      WokenSums(s.workers, s.epoch);
      assert Outstanding(s, x);
      if w :| 0 <= w < |s.workers| && Unarmed(s.workers[w]) {
        assert Unarmed(s'.workers[w]);
      }
    }
  }

  lemma SameOwed(s: State, s': State)
    requires OwedAreSafe(s) && s'.workers == s.workers && s'.queues == s.queues && s'.owed == s.owed
    requires s'.requested == s.requested && s'.cancelling == s.cancelling
    ensures OwedAreSafe(s')
  {
    if x :| Outstanding(s', x) {
      assert Outstanding(s, x);
    }
  }

  lemma MovedOwed(s: State, a: Action)
    requires Inv(s) && Guard(s, a) && Mover(a).Some?
    ensures OwedAreSafe(WorkerStep(s, a))
  {
    if a.Look? {
      LookOwed(s, a.w);
    } else {
      assert Unarmed(WorkerStep(s, a).workers[Mover(a).value]);
    }
  }

  lemma CalledOwed(s: State, a: Action)
    requires Inv(s) && Guard(s, a) && Caller(a).Some?
    ensures OwedAreSafe(CallStep(s, a))
  {
    if a.Push? {
      PushOwed(s, a.p);
    } else if a.NotifyOne? && a.sleeper.Some? {
      assert Unarmed(CallStep(s, a).workers[a.sleeper.value]);
    } else {
      SameOwed(s, CallStep(s, a));
    }
  }

  lemma NextOwed(s: State, a: Action)
    requires Inv(s) && Guard(s, a)
    ensures OwedAreSafe(Next(s, a))
  {
    if Mover(a).Some? {
      MovedOwed(s, a);
    } else if Caller(a).Some? {
      CalledOwed(s, a);
    } else if a.Close? {
      CloseOwed(s);
    } else {
      SameOwed(s, Next(s, a));
    }
  }

  // ----- flags, calls and ownership -----

  lemma MovedOwedOk(s: State, a: Action)
    requires Shaped(s) && OwedOk(s) && Guard(s, a) && Mover(a).Some?
    ensures OwedOk(WorkerStep(s, a))
  {
    var s' := WorkerStep(s, a);
    assert s'.owed == s.owed && s'.next == s.next && s'.requested == s.requested;
  }

  lemma CalledOwedOk(s: State, a: Action)
    requires Shaped(s) && OwedOk(s) && Guard(s, a) && Caller(a).Some?
    ensures OwedOk(CallStep(s, a))
  {
    if !a.Push? {
      var s' := CallStep(s, a);
      assert s'.owed == s.owed && s'.next == s.next && s'.requested == s.requested;
    }
  }

  lemma CloseOwedOk(s: State)
    requires Shaped(s) && OwedOk(s) && Guard(s, Close)
    ensures OwedOk(CloseStep(s))
  {
    assert CloseStep(s).owed == s.owed && CloseStep(s).next == s.next;
  }

  lemma NextOwedOk(s: State, a: Action)
    requires Shaped(s) && OwedOk(s) && Guard(s, a)
    ensures OwedOk(Next(s, a))
  {
    if Mover(a).Some? {
      MovedOwedOk(s, a);
    } else if Caller(a).Some? {
      CalledOwedOk(s, a);
    } else if a.Close? {
      CloseOwedOk(s);
    }
  }

  /** The worker of an unfinished call keeps executing its item. */
  lemma CallsWorker(ps: seq<Producer>, ws: seq<Worker>, w: nat, p: Worker)
    requires w < |ws| && CallsOk(ps, ws)
    requires ws[w].Executing? ==> !Busy(ps, w)
    ensures CallsOk(ps, ws[w := p])
  {
    forall i | 0 <= i < |ps| ensures CallOk(ps[i], ws[w := p]) {
      assert CallOk(ps[i], ws);
    }
  }

  lemma CallsWoken(ps: seq<Producer>, ws: seq<Worker>, epoch: nat)
    requires CallsOk(ps, ws)
    ensures CallsOk(ps, WokenAll(ws, epoch))
  {
    forall i | 0 <= i < |ps| ensures CallOk(ps[i], WokenAll(ws, epoch)) {
      assert CallOk(ps[i], ws);
    }
  }

  lemma CallsCall(ps: seq<Producer>, ws: seq<Worker>, p: nat, call: Call)
    requires p < |ps| && CallsOk(ps, ws) && !ps[p].call.Returned?
    requires call.Pushed? ==> call.previous >= 0
    ensures CallsOk(ps[p := ps[p].(call := call)], ws)
  {
    assert CallOk(ps[p], ws);
  }

  lemma LookCalls(s: State, w: nat)
    requires Shaped(s) && CallsOk(s.producers, s.workers) && Guard(s, Look(w))
    ensures CallsOk(s.producers, LookStep(s, w).workers)
  {
    CallsWoken(s.producers, s.workers, s.epoch);
    CallsWorker(s.producers, s.workers, w, LookStep(s, w).workers[w]);
    CallsWorker(s.producers, WokenAll(s.workers, s.epoch), w, LookStep(s, w).workers[w]);
  }

  lemma MovedCalls(s: State, a: Action)
    requires Shaped(s) && CallsOk(s.producers, s.workers) && Guard(s, a) && Mover(a).Some?
    ensures CallsOk(WorkerStep(s, a).producers, WorkerStep(s, a).workers)
  {
    if a.Look? {
      LookCalls(s, a.w);
    } else {
      var w := Mover(a).value;
      CallsWorker(s.producers, s.workers, w, WorkerStep(s, a).workers[w]);
    }
  }

  lemma CalledCalls(s: State, a: Action)
    requires Shaped(s) && s.runnable >= 0 && CallsOk(s.producers, s.workers) && Guard(s, a) && Caller(a).Some?
    ensures CallsOk(CallStep(s, a).producers, CallStep(s, a).workers)
  {
    var p := Caller(a).value;
    CallsCall(s.producers, s.workers, p, CallStep(s, a).producers[p].call);
    if a.NotifyOne? && a.sleeper.Some? {
      CallsWorker(CallStep(s, a).producers, s.workers, a.sleeper.value, Quiet(None));
    }
  }

  lemma NextCalls(s: State, a: Action)
    requires Shaped(s) && s.runnable >= 0 && CallsOk(s.producers, s.workers) && Guard(s, a)
    ensures CallsOk(Next(s, a).producers, Next(s, a).workers)
  {
    if Mover(a).Some? {
      MovedCalls(s, a);
    } else if Caller(a).Some? {
      CalledCalls(s, a);
    } else if a.Close? {
      CallsWoken(s.producers, s.workers, s.epoch);
    }
  }

  lemma WorkerFlags(s: State, s': State, w: nat)
    requires FlagsOk(s) && w < |s.workers| && s' == s.(workers := s'.workers, runnable := s'.runnable, active := s'.active,
                                                       epoch := s'.epoch, queues := s'.queues, executed := s'.executed,
                                                       producers := s'.producers)
    requires |s'.workers| == |s.workers| && s'.workers == s.workers[w := s'.workers[w]]
    requires Exiting(s'.workers[w]) ==> s.requested
    requires s'.workers[w].AskedCancel? ==> s.cancelling
    requires !s.workers[w].Gone?
    ensures FlagsOk(s')
  {
  }

  lemma LookFlags(s: State, w: nat)
    requires Shaped(s) && FlagsOk(s) && Guard(s, Look(w))
    ensures FlagsOk(LookStep(s, w))
  {
    if s.workers[w].NotifiedAll? {
      var s1 := s.(workers := WokenAll(s.workers, s.epoch));
      assert FlagsOk(s1);
      WorkerFlags(s1, LookStep(s, w), w);
    } else {
      WorkerFlags(s, LookStep(s, w), w);
    }
  }

  lemma MovedFlags(s: State, a: Action)
    requires Shaped(s) && FlagsOk(s) && Guard(s, a) && Mover(a).Some?
    ensures FlagsOk(WorkerStep(s, a))
  {
    if a.Look? {
      LookFlags(s, a.w);
    } else {
      WorkerFlags(s, WorkerStep(s, a), Mover(a).value);
    }
  }

  lemma CalledFlags(s: State, a: Action)
    requires Shaped(s) && FlagsOk(s) && Guard(s, a) && Caller(a).Some?
    ensures FlagsOk(CallStep(s, a))
  {
    if a.NotifyOne? && a.sleeper.Some? {
      WorkerFlags(s, CallStep(s, a), a.sleeper.value);
    }
  }

  lemma NextFlags(s: State, a: Action)
    requires Shaped(s) && FlagsOk(s) && Guard(s, a)
    ensures FlagsOk(Next(s, a))
  {
    if Mover(a).Some? {
      MovedFlags(s, a);
    } else if Caller(a).Some? {
      CalledFlags(s, a);
    } else if a.Close? {
      CloseFlags(s);
    }
  }

  lemma CloseFlags(s: State)
    requires Shaped(s) && FlagsOk(s) && Guard(s, Close)
    ensures FlagsOk(CloseStep(s))
  {
  }
}
