/**
 The scheduler's mailboxes and tables as objects that their methods update in place. Each method is one critical
 section and is proved to do what the function of the same section in Mailboxes.dfy or Scheduler.dfy says.
 */
module SchedulerObjects {
  import opened Wrappers
  import opened Metrics
  import opened Mailboxes
  import opened Scheduler
  import L = MailboxLaws

  /** `record_duration`. */
  method RecordDuration(h: Histogram, elapsed: nat) returns (h': Histogram)
    ensures h' == Record(h, elapsed)
    ensures h'.count == h.count + 1 && h'.totalNs == h.totalNs + elapsed
    ensures h'.maxNs == if h.maxNs < elapsed then elapsed else h.maxNs
    ensures forall b: nat :: Encloses(b, elapsed) <==> h'.buckets == h.buckets + multiset{b}
  {
    var bucket := 0;
    while bucket < |UPPER_BOUNDS_NS| && elapsed > UPPER_BOUNDS_NS[bucket]
      invariant bucket <= |UPPER_BOUNDS_NS|
      invariant BucketFrom(elapsed, bucket) == BucketFrom(elapsed, 0)
    {
      bucket := bucket + 1;
    }
    h' := Histogram(h.count + 1, h.totalNs + elapsed, Max(h.maxNs, elapsed), h.buckets + multiset{bucket});
    L.RecordSamples(h, elapsed);
  }

  /** A turn whose events come after earlier ones. */
  function After(events: seq<Event>, turn: Turn): Turn {
    turn.(events := events + turn.events)
  }

  lemma AfterLaws(events: seq<Event>, more: seq<Event>, turn: Turn)
    ensures After(events, After(more, turn)) == After(events + more, turn)
    ensures turn.events == [] ==> After(events, turn) == turn.(events := events)
  {
    assert events + (more + turn.events) == (events + more) + turn.events;
    assert events + [] == events;
  }

  class NativeActorMailbox {
    const key: string
    var status: Status
    var claimed: bool
    var generation: nat
    var pending: seq<Invocation>
    var active: Option<Active>
    var totals: Totals

    function Value(): Mailbox
      reads this
    {
      Mailbox(status, claimed, generation, pending, active, totals)
    }

    constructor (key: string)
      ensures Value() == Fresh && this.key == key
    {
      this.key := key;
      status, claimed, generation, pending, active, totals := Idle, false, 0, [], None, NoTotals;
    }

    method CountEnd(inv: Invocation, result: ActorResult, cancelled: bool, now: nat)
      modifies this`totals
      ensures totals == Count(old(totals), inv, result, cancelled, now)
      ensures L.Counted(old(totals), totals, if !cancelled && result.Success? then 1 else 0,
                        if !cancelled && result.Failure? then 1 else 0, if cancelled then 1 else 0)
      ensures totals.latency.totalNs
              == old(totals).latency.totalNs + if now < inv.admittedAt then 0 else now - inv.admittedAt
    {
      var latency := RecordDuration(totals.latency, Elapsed(inv, now));
      totals := totals.(latency := latency);
      if cancelled {
        totals := totals.(cancelled := totals.cancelled + 1);
      } else if result.Success? {
        totals := totals.(completed := totals.completed + 1);
      } else {
        totals := totals.(failed := totals.failed + 1);
      }
    }

    /** Takes the oldest queued invocation out and counts its end. */
    method FinishHead(result: ActorResult, cancelled: bool, now: nat) returns (event: Event)
      requires pending != []
      modifies this`pending, this`totals
      ensures event == Event(old(pending[0]), result)
      ensures Value() == old(Value()).(pending := old(pending[1..]),
                                       totals := Count(old(totals), old(pending[0]), result, cancelled, now))
    {
      var inv := pending[0];
      pending := pending[1..];
      CountEnd(inv, result, cancelled, now);
      event := Event(inv, result);
    }

    method PrepareNextLocked(view: View, now: nat) returns (request: Option<nat>, events: seq<Event>)
      modifies this
      ensures Turn(Value(), request, events) == PrepareNext(old(Value()), view, now)
      ensures old(active).None? ==>
                && L.Next(old(pending), old(generation), view, Value(), request, events, |events|)
                && claimed == old(claimed) && L.Counted(old(totals), totals, 0, |events|, 0)
    {
      ghost var was := Value();
      if active.None? {
        var k := L.NextIs(Value(), view, now);
      }
      events := [];
      var v := view;
      while pending != [] && v.cancelAfter != Some(0) && !pending[0].registered
        invariant PrepareNext(was, view, now) == After(events, PrepareNext(Value(), v, now))
        decreases |pending|
      {
        ghost var before := events;
        var event := FinishHead(NOT_REGISTERED, false, now);
        v := Later(v);
        events := events + [event];
        AfterLaws(before, [event], PrepareNext(Value(), v, now));
      }
      AfterLaws(events, [], PrepareNext(Value(), v, now));
      if pending == [] || v.cancelAfter == Some(0) {
        status := if v.stopping then Stopping else Idle;
        return None, events;
      }
      var inv := pending[0];
      pending := pending[1..];
      generation := generation + 1;
      active := Some(Activate(inv, generation));
      status := Runnable;
      request := Some(generation);
    }

    method CompleteActiveLocked(result: ActorResult, cancelled: bool, v: View, now: nat)
      returns (request: Option<nat>, events: seq<Event>)
      modifies this
      ensures Turn(Value(), request, events) == CompleteActive(old(Value()), result, cancelled, v, now)
      ensures if old(active).None? then Value() == old(Value()) && request == None && events == []
              else L.Ends(old(Value()), result, cancelled, v, Value(), request, events)
    {
      if active.Some? {
        L.CompleteEnds(Value(), result, cancelled, v, now);
      }
      if active.None? {
        return None, [];
      }
      var inv := active.value.inv;
      CountEnd(inv, result, cancelled, now);
      active := None;
      request, events := PrepareNextLocked(v, now);
      events := [Event(inv, result)] + events;
    }

    /** The first section of `run_mailbox`; `mine` says whether the worker goes on. */
    method BeginRun(gen: nat) returns (mine: bool)
      modifies this
      ensures Value() == RunBegin(old(Value()), gen)
      ensures mine <==> old(active).Some? && old(active).value.gen == gen && old(status) == Runnable
      ensures if mine then Value() == old(Value()).(status := Running, active := Some(old(active).value.(started := true)))
              else Value() == old(Value())
    {
      mine := active.Some? && active.value.gen == gen && status == Runnable;
      if mine {
        status := Running;
        active := Some(active.value.(started := true));
      }
    }

    method PublishTask(gen: nat)
      modifies this
      ensures Value() == StartOk(old(Value()), gen)
      ensures if old(active).Some? && old(active).value.gen == gen
              then Value() == old(Value()).(active := Some(old(active).value.(taskValid := true)))
              else Value() == old(Value())
    {
      if active.Some? && active.value.gen == gen {
        active := Some(active.value.(taskValid := true));
      }
    }

    method FailStart(gen: nat, result: ActorResult, v: View, now: nat)
      returns (request: Option<nat>, events: seq<Event>)
      modifies this
      ensures Turn(Value(), request, events) == StartFail(old(Value()), gen, result, v, now)
      ensures if old(active).Some? && old(active).value.gen == gen
              then L.Ends(old(Value()), result, false, v, Value(), request, events)
              else Value() == old(Value()) && request == None && events == []
    {
      request, events := None, [];
      if active.Some? && active.value.gen == gen {
        request, events := CompleteActiveLocked(result, false, v, now);
      }
    }

    method RecordResume(queueDelay: Option<nat>, resumed: nat)
      modifies this`totals
      ensures Value() == Timed(old(Value()), queueDelay, resumed)
      ensures Value() == old(Value()).(totals := totals) && L.Measured(old(totals), totals, queueDelay, resumed)
    {
      if queueDelay.Some? {
        var delay := RecordDuration(totals.queueDelay, queueDelay.value);
        totals := totals.(queueDelay := delay);
      }
      var duration := RecordDuration(totals.resumeDuration, resumed);
      totals := totals.(resumeDuration := duration);
    }

    method SettleLocked(gen: nat, outcome: Resumption, sawCancel: bool, v: View, now: nat)
      returns (request: Option<nat>, events: seq<Event>)
      modifies this
      ensures Turn(Value(), request, events) == Settle(old(Value()), gen, outcome, sawCancel, v, now)
      ensures L.Settles(old(Value()), gen, outcome, sawCancel, v, Value(), request, events)
      ensures L.Reports(old(Value()), gen, outcome, sawCancel, events)
    {
      L.SettleSays(Value(), gen, outcome, sawCancel, v, now);
      request, events := None, [];
      if active.None? || active.value.gen != gen {
        return;
      }
      if sawCancel || active.value.cancelAfterResume {
        request, events := CompleteActiveLocked(CANCELLED, true, v, now);
        return;
      }
      match outcome
      case Done(result) => request, events := CompleteActiveLocked(result, false, v, now);
      case Yielded =>
        totals := totals.(yielded := totals.yielded + 1);
        status := Runnable;
        request := Some(gen);
      case Awaiting(epoch) =>
        totals := totals.(suspensions := totals.suspensions + 1);
        request := Suspend(gen, epoch);
      case Unsupported => request, events := CompleteActiveLocked(INVALID_SUSPENSION, false, v, now);
    }

    /** Parks the invocation on its epoch, or consumes a notification that came first. */
    method Suspend(gen: nat, epoch: nat) returns (request: Option<nat>)
      requires active.Some?
      modifies this`active, this`status
      ensures var a := old(active).value;
              if a.ready == epoch then
                && request == Some(gen)
                && Value() == old(Value()).(status := Runnable,
                                            active := Some(a.(taskEpoch := epoch, ready := 0, completed := epoch)))
              else
                && request == None
                && Value() == old(Value()).(status := Suspended, active := Some(a.(taskEpoch := epoch)))
    {
      active := Some(active.value.(taskEpoch := epoch));
      if active.value.ready == epoch {
        active := Some(active.value.(ready := 0, completed := epoch));
        status := Runnable;
        request := Some(gen);
      } else {
        status := Suspended;
        request := None;
      }
    }

    /** The section after a resume; `owns` says that the worker keeps the idle claim. */
    method EndRun(gen: nat, outcome: Resumption, sawCancel: bool, v: View, globalSharing: bool,
                  queueDelay: Option<nat>, resumed: nat, now: nat)
      returns (request: Option<nat>, events: seq<Event>, owns: bool)
      modifies this
      ensures Turn(Value(), request, events)
              == RunEnd(old(Value()), gen, outcome, sawCancel, v, globalSharing, queueDelay, resumed, now)
      ensures L.EndsRun(old(Value()), gen, outcome, sawCancel, v, queueDelay, resumed, Value(), request, events)
      ensures L.Reports(old(Value()), gen, outcome, sawCancel, events)
      ensures owns <==> L.ClaimsIdle(old(Value()), gen, globalSharing, Value(), request)
      ensures claimed == (owns || old(claimed))
    {
      L.EndSays(Value(), gen, outcome, sawCancel, v, globalSharing, queueDelay, resumed, now);
      RecordResume(queueDelay, resumed);
      var mine := active.Some? && active.value.gen == gen;
      request, events := SettleLocked(gen, outcome, sawCancel, v, now);
      owns := mine && !globalSharing && request.None? && active.None? && status == Idle && generation > 1;
      if owns {
        claimed := true;
      }
    }

    /** One attempt of the idle handoff; `more` says that another one follows. */
    method TryHandoff(attempt: nat, v: View, now: nat) returns (request: Option<nat>, events: seq<Event>, more: bool)
      modifies this
      ensures Turn(Value(), request, events) == Handoff(old(Value()), attempt, v, now)
      ensures var mine := old(active).None? && old(status) == Idle && old(claimed);
              && (more <==> mine && old(pending) == [] && attempt + 1 != 4)
              && (if mine && !more then
                    && L.Next(old(pending), old(generation), v, Value(), request, events, |events|)
                    && !claimed && L.Counted(old(totals), totals, 0, |events|, 0)
                  else Value() == old(Value()) && request == None && events == [])
    {
      request, events, more := None, [], false;
      if active.Some? || status != Idle || !claimed {
        return;
      }
      if pending != [] || attempt + 1 == MAX_IDLE_HANDOFF_YIELDS {
        claimed := false;
        request, events := PrepareNextLocked(v, now);
      } else {
        more := true;
      }
    }

    method OnExternalReady(gen: nat, epoch: nat, sawCancel: bool) returns (request: Option<nat>, late: bool)
      modifies this
      ensures Turn(Value(), request, []) == ExternalReady(old(Value()), gen, epoch, sawCancel)
      ensures var mine := old(active).Some? && old(active).value.gen == gen && !sawCancel;
              var isNew := mine && old(active).value.completed != epoch;
              if isNew && old(status) == Running && old(active).value.ready != epoch then
                && !late && request == None
                && Value() == old(Value()).(active := Some(old(active).value.(ready := epoch)))
              else if isNew && old(status) == Suspended && old(active).value.taskEpoch == epoch then
                && !late && request == Some(gen)
                && Value() == old(Value()).(status := Runnable, active := Some(old(active).value.(completed := epoch)))
              else late && request == None && Value() == old(Value())
    {
      request, late := None, true;
      if active.None? || active.value.gen != gen || sawCancel {
        return;
      }
      if status == Running {
        if active.value.ready == epoch || active.value.completed == epoch {
          return;
        }
        active := Some(active.value.(ready := epoch));
        late := false;
        return;
      }
      if active.value.taskEpoch != epoch || active.value.completed == epoch {
        return;
      }
      if status != Suspended {
        return;
      }
      status := Runnable;
      active := Some(active.value.(completed := epoch));
      request := Some(gen);
      late := false;
    }

    method FailScheduleRequest(gen: nat, v: View, now: nat) returns (events: seq<Event>)
      modifies this
      ensures Value() == FailSchedule(old(Value()), gen, v, now).mb
      ensures events == FailSchedule(old(Value()), gen, v, now).events
      ensures if old(active).Some? && old(active).value.gen == gen && old(status) == Runnable
              then exists ignored :: L.Ends(old(Value()), Failure("scheduler_stopped"), true, v, Value(), ignored, events)
              else Value() == old(Value()) && events == []
    {
      events := [];
      if active.None? || active.value.gen != gen || status != Runnable {
        return;
      }
      var ignored;
      ignored, events := CompleteActiveLocked(STOPPED, true, v, now);
    }

    method FindQueued(messageId: string) returns (i: nat)
      ensures i == FindMessage(pending, messageId)
    {
      i := 0;
      while i < |pending| && pending[i].messageId != messageId
        invariant i <= |pending|
        invariant FindMessage(pending, messageId) == i + FindMessage(pending[i..], messageId)
      {
        assert pending[i..][1..] == pending[i + 1..];
        i := i + 1;
      }
    }

    /** The part of `enqueue` that puts an admitted invocation into its mailbox. */
    method PushLocked(inv: Invocation, now: nat) returns (request: Option<nat>, events: seq<Event>)
      modifies this
      ensures Turn(Value(), request, events) == Push(old(Value()), inv, now)
      ensures L.Pushes(old(Value()), inv, Value(), request, events)
    {
      request, events := None, [];
      pending := pending + [inv];
      if status == Idle && !claimed {
        request, events := PrepareNextLocked(CALM, now);
      }
    }

    method CancelLocked(messageId: string, v: View, now: nat)
      returns (cancelled: bool, request: Option<nat>, events: seq<Event>)
      modifies this
      ensures Turn(Value(), request, events) == Cancel(old(Value()), messageId, v, now)
      ensures L.Cancels(old(Value()), messageId, v, cancelled, Value(), request, events)
      ensures cancelled <==> Knows(old(Value()), messageId)
    {
      L.CancelSays(Value(), messageId, v, now);
      cancelled, request, events := false, None, [];
      var i := FindQueued(messageId);
      if i < |pending| {
        var removed := pending[i];
        pending := pending[..i] + pending[i + 1..];
        CountEnd(removed, CANCELLED, true, now);
        events := [Event(removed, CANCELLED)];
        cancelled := true;
      } else if active.Some? && active.value.inv.messageId == messageId {
        if status == Running {
          active := Some(active.value.(cancelAfterResume := true));
        } else {
          request, events := CompleteActiveLocked(CANCELLED, true, v, now);
        }
        cancelled := true;
      }
    }

    method FlushPending(now: nat) returns (events: seq<Event>)
      modifies this`pending, this`totals
      ensures Turn(Value(), None, events) == Flush(old(Value()), now)
      ensures L.AllCancelled(old(pending), events) && pending == []
    {
      L.FlushSays(Value(), now);
      events := [];
      while pending != []
        invariant Flush(old(Value()), now) == After(events, Flush(Value(), now))
        invariant status == old(status) && active == old(active)
        decreases |pending|
      {
        ghost var before := events;
        var event := FinishHead(CANCELLED, true, now);
        events := events + [event];
        AfterLaws(before, [event], Flush(Value(), now));
      }
      AfterLaws(events, [], Flush(Value(), now));
    }

    /** One round of the cancelling shutdown. */
    method SweepLocked(now: nat) returns (events: seq<Event>)
      modifies this
      ensures Turn(Value(), None, events) == Sweep(old(Value()), now)
      ensures L.Swept(old(Value()), Value(), events)
    {
      ghost var was := Value();
      events := FlushPending(now);
      if active.None? {
        claimed := false;
        status := Stopping;
      } else if status == Running {
        active := Some(active.value.(cancelAfterResume := true));
      } else {
        var ignored, completions := CompleteActiveLocked(CANCELLED, true, View(true, Some(0)), now);
        events := events + completions;
        status := Stopping;
      }
      assert Turn(Value(), None, events) == Sweep(was, now);
      L.SweepSays(was, now);
    }
  }

  /** The scheduler's tables, all guarded by its mutex. */
  class NativeActorScheduler {
    const options: Options
    var mailboxes: map<string, NativeActorMailbox>
    var counters: Counters
    var actors: set<string>
    var accepting: bool
    var accepted: nat
    var rejected: nat
    var retired: Totals

    ghost predicate Valid()
      reads this, mailboxes.Values
    {
      forall k | k in mailboxes :: mailboxes[k].key == k
    }

    /** The value of the mailbox under a key; a missing one behaves like a fresh one. */
    function ValueAt(k: string): Mailbox
      reads this, mailboxes.Values
    {
      if k in mailboxes then mailboxes[k].Value() else Fresh
    }

    constructor (options: Options)
      ensures Valid() && mailboxes == map[] && counters == NoCounters && accepting && accepted == 0 && rejected == 0
    {
      this.options := options;
      mailboxes, counters, actors := map[], NoCounters, {};
      accepting, accepted, rejected, retired := true, 0, 0, NoTotals;
    }

    method DecrementPending(events: seq<Event>)
      modifies this`counters
      ensures counters == DecrementAll(options, old(counters), events)
    {
      var i := 0;
      while i < |events|
        invariant i <= |events|
        invariant DecrementAll(options, old(counters), events) == DecrementAll(options, counters, events[i..])
      {
        counters := Decrement(options, counters, events[i].inv);
        assert events[i..][1..] == events[i + 1..];
        i := i + 1;
      }
    }

    /** Finds or creates the mailbox of a key. */
    method MailboxFor(key: string) returns (mailbox: NativeActorMailbox)
      requires Valid()
      modifies this`mailboxes
      ensures Valid() && key in mailboxes && mailboxes[key] == mailbox
      ensures mailboxes.Keys == old(mailboxes.Keys) + {key}
      ensures forall k | k in old(mailboxes) :: mailboxes[k] == old(mailboxes[k])
      ensures key !in old(mailboxes) ==> fresh(mailbox)
      ensures mailbox.Value() == old(ValueAt(key))
      ensures forall k | k in mailboxes && k != key :: mailboxes[k] != mailbox
    {
      if key !in mailboxes {
        mailbox := new NativeActorMailbox(key);
        mailboxes := mailboxes[key := mailbox];
      } else {
        mailbox := mailboxes[key];
      }
    }

    /** The part of `enqueue` under the mutex; an executor request is returned with the mailbox it concerns. */
    method Enqueue(actor: string, partition: string, messageId: string, now: nat)
      returns (ok: bool, rejection: Option<ActorResult>, request: Option<nat>, events: seq<Event>)
      requires Valid()
      modifies this, mailboxes.Values
      ensures Valid() && actors == old(actors) && retired == old(retired)
      ensures accepting == old(accepting)
      ensures ok <==> && old(accepting) && (options.maxTasks > 0 ==> old(counters).total < options.maxTasks)
                      && (options.maxPerActor > 0 ==> Lookup(old(counters).actors, actor) < options.maxPerActor)
                      && (options.maxPerPartition > 0 ==>
                            Lookup(old(counters).partitions, MailboxKey(actor, partition)) < options.maxPerPartition)
      ensures !ok ==> && mailboxes == old(mailboxes) && counters == old(counters) && accepted == old(accepted)
                      && rejected == old(rejected) + 1 && events == [] && request == None
                      && rejection == Some(if old(accepting) then Failure("scheduler_backpressure") else STOPPED)
                      && forall k | k in mailboxes :: mailboxes[k].Value() == old(mailboxes[k].Value())
      ensures ok ==> && accepted == old(accepted) + 1 && rejected == old(rejected) && rejection == None
                     && var key := MailboxKey(actor, partition);
                     && var inv := Invocation(old(accepted), actor, key, messageId, actor in actors, now);
                     && mailboxes.Keys == old(mailboxes.Keys) + {key}
                     && (forall k | k in old(mailboxes) :: mailboxes[k] == old(mailboxes[k]))
                     && (forall k | k in old(mailboxes) && k != key ::
                           mailboxes[k].Value() == old(mailboxes[k].Value()))
                     && Turn(ValueAt(key), request, events) == Push(old(ValueAt(key)), inv, now)
                     && L.Pushes(old(ValueAt(key)), inv, ValueAt(key), request, events)
                     && counters == DecrementAll(options, Increment(options, old(counters), actor, key), events)
    {
      rejection, request, events := None, None, [];
      var key := MailboxKey(actor, partition);
      ok := accepting && !LimitExceeded(options, counters, actor, key);
      if ok {
        request, events := Admit(Invocation(accepted, actor, key, messageId, actor in actors, now), now);
      } else {
        rejection := Some(if accepting then Failure("scheduler_backpressure") else STOPPED);
        rejected := rejected + 1;
      }
    }

    /** Accepts an invocation: counts it, finds or creates its mailbox and queues it there. */
    method Admit(inv: Invocation, now: nat) returns (request: Option<nat>, events: seq<Event>)
      requires Valid()
      modifies this`accepted, this`counters, this`mailboxes, mailboxes.Values
      ensures Valid() && accepted == old(accepted) + 1
      ensures mailboxes.Keys == old(mailboxes.Keys) + {inv.key}
      ensures forall k | k in old(mailboxes) :: mailboxes[k] == old(mailboxes[k])
      ensures forall k | k in old(mailboxes) && k != inv.key :: mailboxes[k].Value() == old(mailboxes[k].Value())
      ensures Turn(ValueAt(inv.key), request, events) == Push(old(ValueAt(inv.key)), inv, now)
      ensures L.Pushes(old(ValueAt(inv.key)), inv, ValueAt(inv.key), request, events)
      ensures counters == DecrementAll(options, Increment(options, old(counters), inv.actor, inv.key), events)
    {
      accepted := accepted + 1;
      counters := Increment(options, counters, inv.actor, inv.key);
      var mailbox := MailboxFor(inv.key);
      request, events := mailbox.PushLocked(inv, now);
      DecrementPending(events);
    }

    /** The part of `cancel` under the mutexes. */
    method CancelMessage(actor: string, partition: string, messageId: string, v: View, now: nat)
      returns (cancelled: bool, request: Option<nat>, events: seq<Event>)
      requires Valid()
      modifies this`counters, mailboxes.Values
      ensures Valid()
      ensures var key := MailboxKey(actor, partition);
              && (if key in mailboxes then
                    L.Cancels(old(ValueAt(key)), messageId, v, cancelled, ValueAt(key), request, events)
                  else !cancelled)
              && (forall k | k in mailboxes && k != key :: mailboxes[k].Value() == old(mailboxes[k].Value()))
              && (if key in mailboxes then Turn(ValueAt(key), request, events) == Cancel(old(ValueAt(key)), messageId, v, now)
                  else request == None && events == [])
              && counters == DecrementAll(options, old(counters), events)
    {
      cancelled, request, events := false, None, [];
      var key := MailboxKey(actor, partition);
      if key !in mailboxes {
        return;
      }
      var mailbox := mailboxes[key];
      assert forall k | k in mailboxes && k != key :: mailboxes[k] != mailbox;
      cancelled, request, events := mailbox.CancelLocked(messageId, v, now);
      DecrementPending(events);
    }

    /** `reclaim_idle_mailbox`. */
    method ReclaimIdle(mailbox: NativeActorMailbox) returns (reclaimed: bool)
      requires Valid()
      modifies this
      ensures Valid() && actors == old(actors) && accepting == old(accepting)
      ensures accepted == old(accepted) && rejected == old(rejected)
      ensures reclaimed <==> && mailbox.key in old(mailboxes) && old(mailboxes)[mailbox.key] == mailbox
                             && mailbox.status == Idle && mailbox.active == None && mailbox.pending == []
                             && !mailbox.claimed
      ensures mailboxes == if reclaimed then old(mailboxes) - {mailbox.key} else old(mailboxes)
      ensures retired == if reclaimed then Merge(old(retired), mailbox.Value().totals) else old(retired)
      ensures counters == if reclaimed && mailbox.key in old(counters).partitions
                             && old(counters).partitions[mailbox.key] == 0
                          then old(counters).(partitions := old(counters).partitions - {mailbox.key})
                          else old(counters)
    {
      reclaimed := false;
      if mailbox.key !in mailboxes || mailboxes[mailbox.key] != mailbox {
        return;
      }
      if mailbox.status != Idle || mailbox.active.Some? || mailbox.pending != [] || mailbox.claimed {
        return;
      }
      retired := Merge(retired, mailbox.totals);
      if mailbox.key in counters.partitions && counters.partitions[mailbox.key] == 0 {
        counters := counters.(partitions := counters.partitions - {mailbox.key});
      }
      mailboxes := mailboxes - {mailbox.key};
      reclaimed := true;
    }
  }
}
