/**
 What the sections on a mailbox do, said in terms of its fields and of the events alone: who ends and with which
 result, what is counted, who becomes active next, and what stays as it was.
 */
module MailboxLaws {
  import opened Wrappers
  import opened Metrics
  import opened Mailboxes

  // ----- ends -----

  /** The invocations end in this order, because their actors are unknown. */
  predicate Skips(taken: seq<Invocation>, events: seq<Event>) {
    && |events| == |taken|
    && forall i | 0 <= i < |taken| :: !taken[i].registered && events[i] == Event(taken[i], Failure("actor_not_registered"))
  }

  /** The invocations end in this order as cancelled. */
  predicate AllCancelled(taken: seq<Invocation>, events: seq<Event>) {
    && |events| == |taken|
    && forall i | 0 <= i < |taken| :: events[i] == Event(taken[i], Failure("scheduler_cancelled"))
  }

  /** So many more invocations are counted as completed, failed and cancelled, each with its latency; nothing else is. */
  predicate Counted(t: Totals, t': Totals, completed: nat, failed: nat, cancelled: nat) {
    && t'.completed == t.completed + completed && t'.failed == t.failed + failed && t'.cancelled == t.cancelled + cancelled
    && t'.latency.count == t.latency.count + completed + failed + cancelled
    && t'.yielded == t.yielded && t'.suspensions == t.suspensions
    && t'.queueDelay == t.queueDelay && t'.resumeDuration == t.resumeDuration
  }

  // ----- who is next -----

  /** Whether the loop has seen the cancelling shutdown when it has skipped `k` invocations. */
  predicate Stopped(v: View, k: nat) {
    v.cancelAfter.Some? && v.cancelAfter.value <= k
  }

  /**
   After `k` invocations of unknown actors the next one becomes active under a new generation, with a ticket for it;
   or the mailbox comes to rest, because its queue is empty or everything is being cancelled.
   */
  ghost predicate Next(pending: seq<Invocation>, generation: nat, v: View, m': Mailbox, request: Option<nat>,
                       events: seq<Event>, k: nat)
  {
    && k <= |pending| && Skips(pending[..k], events)
    && if k < |pending| && pending[k].registered && !Stopped(v, k) then
         && m'.active == Some(Active(pending[k], generation + 1, false, 0, 0, 0, false, false))
         && m'.generation == generation + 1 && m'.status == Runnable && request == Some(generation + 1)
         && m'.pending == pending[k + 1..]
       else
         && (k == |pending| || Stopped(v, k))
         && m'.active == None && m'.generation == generation && request == None && m'.pending == pending[k..]
         && m'.status == if v.stopping then Stopping else Idle
  }

  /** One skipped invocation more in front. */
  lemma SkipOne(pending: seq<Invocation>, generation: nat, v: View, m': Mailbox, request: Option<nat>,
                events: seq<Event>, k: nat)
    requires pending != [] && !pending[0].registered && !Stopped(v, 0)
    requires Next(pending[1..], generation, Later(v), m', request, events, k)
    ensures Next(pending, generation, v, m', request, [Event(pending[0], NOT_REGISTERED)] + events, k + 1)
  {
    assert pending[..k + 1] == [pending[0]] + pending[1..][..k];
    assert pending[1..][k..] == pending[k + 1..];
    if k < |pending[1..]| {
      assert pending[1..][k] == pending[k + 1] && pending[1..][k + 1..] == pending[k + 2..];
    }
  }

  lemma {:induction false} NextIs(m: Mailbox, v: View, now: nat) returns (k: nat)
    requires m.active.None?
    ensures var turn := PrepareNext(m, v, now);
            && Next(m.pending, m.generation, v, turn.mb, turn.request, turn.events, k)
            && turn.mb.claimed == m.claimed && Counted(m.totals, turn.mb.totals, 0, k, 0)
    decreases |m.pending|
  {
    k := 0;
    if m.pending != [] && v.cancelAfter != Some(0) && !m.pending[0].registered {
      var rest := m.(pending := m.pending[1..], totals := Count(m.totals, m.pending[0], NOT_REGISTERED, false, now));
      k := NextIs(rest, Later(v), now);
      var turn := PrepareNext(rest, Later(v), now);
      SkipOne(m.pending, m.generation, v, turn.mb, turn.request, turn.events, k);
      k := k + 1;
    }
  }

  /** The active invocation ends with the result, and the next one follows. */
  ghost predicate Ends(m: Mailbox, result: ActorResult, cancelled: bool, v: View, m': Mailbox, request: Option<nat>,
                       events: seq<Event>)
  {
    && m.active.Some? && events != [] && events[0] == Event(m.active.value.inv, result)
    && Next(m.pending, m.generation, v, m', request, events[1..], |events| - 1)
    && m'.claimed == m.claimed
    && Counted(m.totals, m'.totals, if !cancelled && result.Success? then 1 else 0,
               |events| - 1 + if !cancelled && result.Failure? then 1 else 0, if cancelled then 1 else 0)
  }

  lemma CompleteEnds(m: Mailbox, result: ActorResult, cancelled: bool, v: View, now: nat)
    requires m.active.Some?
    ensures var turn := CompleteActive(m, result, cancelled, v, now);
            Ends(m, result, cancelled, v, turn.mb, turn.request, turn.events)
  {
    var m' := m.(active := None, totals := Count(m.totals, m.active.value.inv, result, cancelled, now));
    var k := NextIs(m', v, now);
    var turn := CompleteActive(m, result, cancelled, v, now);
    assert turn.events[1..] == PrepareNext(m', v, now).events;
  }

  // ----- the section after a resume -----

  /** The worker's invocation ends as cancelled when that was asked for, and otherwise as its task says. */
  predicate Finishes(a: Active, outcome: Resumption, sawCancel: bool) {
    sawCancel || a.cancelAfterResume || outcome.Done? || outcome.Unsupported?
  }

  function ResultOf(a: Active, outcome: Resumption, sawCancel: bool): ActorResult {
    if sawCancel || a.cancelAfterResume then Failure("scheduler_cancelled")
    else if outcome.Done? then outcome.result
    else Failure("actor_invalid_suspension")
  }

  /** A task that goes on keeps the mailbox: it is runnable again, or suspended on an epoch not notified so far. */
  predicate GoesOn(m: Mailbox, outcome: Resumption, m': Mailbox, request: Option<nat>)
    requires m.active.Some?
  {
    var a := m.active.value;
    match outcome
    case Yielded =>
      && m' == m.(status := Runnable, totals := m.totals.(yielded := m.totals.yielded + 1)) && request == Some(a.gen)
    case Awaiting(epoch) =>
      && m'.totals == m.totals.(suspensions := m.totals.suspensions + 1)
      && m'.pending == m.pending && m'.generation == m.generation && m'.claimed == m.claimed
      && m'.active.Some? && m'.active.value.taskEpoch == epoch
      && (if a.ready == epoch then
            && m'.status == Runnable && request == Some(a.gen)
            && m'.active.value == a.(taskEpoch := epoch, ready := 0, completed := epoch)
          else
            && m'.status == Suspended && request == None
            && m'.active.value == a.(taskEpoch := epoch))
    case _ => false
  }

  /** What a worker that comes back from a resume does to the mailbox. */
  ghost predicate Settles(m: Mailbox, gen: nat, outcome: Resumption, sawCancel: bool, v: View, m': Mailbox,
                          request: Option<nat>, events: seq<Event>)
  {
    if m.active.None? || m.active.value.gen != gen then m' == m && request == None && events == []
    else if Finishes(m.active.value, outcome, sawCancel) then
      Ends(m, ResultOf(m.active.value, outcome, sawCancel), sawCancel || m.active.value.cancelAfterResume, v,
           m', request, events)
    else events == [] && GoesOn(m, outcome, m', request)
  }

  lemma SettleSays(m: Mailbox, gen: nat, outcome: Resumption, sawCancel: bool, v: View, now: nat)
    ensures var turn := Settle(m, gen, outcome, sawCancel, v, now);
            Settles(m, gen, outcome, sawCancel, v, turn.mb, turn.request, turn.events)
  {
    if m.active.Some? && m.active.value.gen == gen && Finishes(m.active.value, outcome, sawCancel) {
      CompleteEnds(m, ResultOf(m.active.value, outcome, sawCancel), sawCancel || m.active.value.cancelAfterResume, v, now);
    }
  }

  /** One more sample of this length. */
  ghost predicate Sampled(h: Histogram, h': Histogram, elapsed: nat) {
    && h'.count == h.count + 1 && h'.totalNs == h.totalNs + elapsed
    && h'.maxNs == (if h.maxNs < elapsed then elapsed else h.maxNs)
    && forall b: nat :: Encloses(b, elapsed) <==> h'.buckets == h.buckets + multiset{b}
  }

  lemma RecordSamples(h: Histogram, elapsed: nat)
    ensures Sampled(h, Record(h, elapsed), elapsed)
  {
    BucketEncloses(elapsed);
    forall b: nat | Record(h, elapsed).buckets == h.buckets + multiset{b} ensures b == BucketFrom(elapsed, 0) {
      assert (h.buckets + multiset{b})[b] == h.buckets[b] + 1;
    }
  }

  /** The resume's own duration, and the queue delay if this was the invocation's first resume. */
  ghost predicate Measured(t: Totals, t': Totals, queueDelay: Option<nat>, resumed: nat) {
    && t' == t.(queueDelay := t'.queueDelay, resumeDuration := t'.resumeDuration)
    && Sampled(t.resumeDuration, t'.resumeDuration, resumed)
    && (if queueDelay.Some? then Sampled(t.queueDelay, t'.queueDelay, queueDelay.value) else t'.queueDelay == t.queueDelay)
  }

  lemma TimedMeasures(m: Mailbox, queueDelay: Option<nat>, resumed: nat)
    ensures var m' := Timed(m, queueDelay, resumed);
            m' == m.(totals := m'.totals) && Measured(m.totals, m'.totals, queueDelay, resumed)
  {
    RecordSamples(m.totals.resumeDuration, resumed);
    if queueDelay.Some? {
      RecordSamples(m.totals.queueDelay, queueDelay.value);
    }
  }

  /** The first event is the worker's own invocation, with the result that the resume gave it; a task that goes on has none. */
  predicate Reports(m: Mailbox, gen: nat, outcome: Resumption, sawCancel: bool, events: seq<Event>) {
    m.active.Some? && m.active.value.gen == gen ==>
      var a := m.active.value;
      if sawCancel || a.cancelAfterResume then events != [] && events[0] == Event(a.inv, Failure("scheduler_cancelled"))
      else if outcome.Done? then events != [] && events[0] == Event(a.inv, outcome.result)
      else if outcome.Unsupported? then events != [] && events[0] == Event(a.inv, Failure("actor_invalid_suspension"))
      else events == []
  }

  /** The whole section: durations first, then the end or the continuation, then the claim on an idle mailbox. */
  ghost predicate EndsRun(m: Mailbox, gen: nat, outcome: Resumption, sawCancel: bool, v: View, queueDelay: Option<nat>,
                          resumed: nat, m': Mailbox, request: Option<nat>, events: seq<Event>)
  {
    exists t :: Measured(m.totals, t, queueDelay, resumed)
                && Settles(m.(totals := t), gen, outcome, sawCancel, v, m'.(claimed := m.claimed), request, events)
  }

  lemma EndSays(m: Mailbox, gen: nat, outcome: Resumption, sawCancel: bool, v: View, sharing: bool,
                queueDelay: Option<nat>, resumed: nat, now: nat)
    ensures var turn := RunEnd(m, gen, outcome, sawCancel, v, sharing, queueDelay, resumed, now);
            && EndsRun(m, gen, outcome, sawCancel, v, queueDelay, resumed, turn.mb, turn.request, turn.events)
            && Reports(m, gen, outcome, sawCancel, turn.events)
            && (turn.mb.claimed <==> m.claimed || ClaimsIdle(m, gen, sharing, turn.mb, turn.request))
  {
    var timed := Timed(m, queueDelay, resumed);
    TimedMeasures(m, queueDelay, resumed);
    SettleSays(timed, gen, outcome, sawCancel, v, now);
    var settled := Settle(timed, gen, outcome, sawCancel, v, now);
    var turn := RunEnd(m, gen, outcome, sawCancel, v, sharing, queueDelay, resumed, now);
    assert turn.mb.(claimed := m.claimed) == settled.mb;
    assert Settles(m.(totals := timed.totals), gen, outcome, sawCancel, v, settled.mb, turn.request, turn.events);
  }

  /** The worker keeps a claim on the mailbox that it left idle, unless work is shared globally or it is new. */
  predicate ClaimsIdle(m: Mailbox, gen: nat, sharing: bool, m': Mailbox, request: Option<nat>) {
    && m.active.Some? && m.active.value.gen == gen && !sharing && request == None
    && m'.active == None && m'.status == Idle && m'.generation > 1
  }

  // ----- the other sections -----

  /** An admitted invocation goes to the end of the queue; an idle mailbox that nobody claims then starts at once. */
  ghost predicate Pushes(m: Mailbox, inv: Invocation, m': Mailbox, request: Option<nat>, events: seq<Event>) {
    if m.status == Idle && !m.claimed then
      m.active.None? ==>
        && Next(m.pending + [inv], m.generation, CALM, m', request, events, |events|)
        && !m'.claimed && Counted(m.totals, m'.totals, 0, |events|, 0)
    else m' == m.(pending := m.pending + [inv]) && request == None && events == []
  }

  lemma PushSays(m: Mailbox, inv: Invocation, now: nat)
    ensures var turn := Push(m, inv, now); Pushes(m, inv, turn.mb, turn.request, turn.events)
  {
    if m.status == Idle && !m.claimed && m.active.None? {
      var k := NextIs(m.(pending := m.pending + [inv]), CALM, now);
    }
  }

  /** The position of the first queued invocation with the message identifier. */
  predicate FirstWith(pending: seq<Invocation>, messageId: string, i: nat) {
    i < |pending| && pending[i].messageId == messageId && forall j | 0 <= j < i :: pending[j].messageId != messageId
  }

  /** A queued invocation leaves its queue as cancelled. */
  predicate CancelledAt(m: Mailbox, i: nat, m': Mailbox, request: Option<nat>, events: seq<Event>) {
    && i < |m.pending| && events == [Event(m.pending[i], Failure("scheduler_cancelled"))] && request == None
    && m'.pending == m.pending[..i] + m.pending[i + 1..] && Counted(m.totals, m'.totals, 0, 0, 1)
    && m' == m.(pending := m'.pending, totals := m'.totals)
  }

  /** The first queued invocation with the identifier goes; without one the active invocation ends or is marked. */
  ghost predicate Cancels(m: Mailbox, messageId: string, v: View, cancelled: bool, m': Mailbox, request: Option<nat>,
                          events: seq<Event>)
  {
    && (forall i: nat | FirstWith(m.pending, messageId, i) :: cancelled && CancelledAt(m, i, m', request, events))
    && ((forall i | 0 <= i < |m.pending| :: m.pending[i].messageId != messageId) ==>
          if m.active.Some? && m.active.value.inv.messageId == messageId then
            && cancelled
            && (if m.status == Running then
                  && m' == m.(active := Some(m.active.value.(cancelAfterResume := true)))
                  && request == None && events == []
                else Ends(m, Failure("scheduler_cancelled"), true, v, m', request, events))
          else !cancelled && m' == m && request == None && events == [])
  }

  lemma CancelSays(m: Mailbox, messageId: string, v: View, now: nat)
    ensures var turn := Cancel(m, messageId, v, now);
            Cancels(m, messageId, v, Knows(m, messageId), turn.mb, turn.request, turn.events)
  {
    var turn := Cancel(m, messageId, v, now);
    var i := FindMessage(m.pending, messageId);
    if i < |m.pending| {
      assert CancelledAt(m, i, turn.mb, turn.request, turn.events);
    } else if m.active.Some? && m.active.value.inv.messageId == messageId && m.status != Running {
      CompleteEnds(m, CANCELLED, true, v, now);
    }
  }

  lemma {:induction false} FlushSays(m: Mailbox, now: nat)
    ensures var turn := Flush(m, now);
            && AllCancelled(m.pending, turn.events) && turn.request == None
            && turn.mb == m.(pending := [], totals := turn.mb.totals)
            && Counted(m.totals, turn.mb.totals, 0, 0, |m.pending|)
    decreases |m.pending|
  {
    if m.pending != [] {
      FlushSays(m.(pending := m.pending[1..], totals := Count(m.totals, m.pending[0], CANCELLED, true, now)), now);
    }
  }

  /** The sweep of a cancelling shutdown: only an invocation that a worker is running stays, with its mark set. */
  predicate Swept(m: Mailbox, m': Mailbox, events: seq<Event>) {
    var running := m.active.Some? && m.status == Running;
    && m'.pending == [] && m'.generation == m.generation
    && (if running then
          && m'.status == Running && m'.active == Some(m.active.value.(cancelAfterResume := true)) && m'.claimed == m.claimed
        else m'.status == Stopping && m'.active == None && (m.active.None? ==> !m'.claimed))
    && (if m.active.Some? && !running then
          && AllCancelled(m.pending + [m.active.value.inv], events) && Counted(m.totals, m'.totals, 0, 0, |m.pending| + 1)
        else AllCancelled(m.pending, events) && Counted(m.totals, m'.totals, 0, 0, |m.pending|))
  }

  lemma SweepSays(m: Mailbox, now: nat)
    ensures Swept(m, Sweep(m, now).mb, Sweep(m, now).events) && Sweep(m, now).request == None
  {
    FlushSays(m, now);
    if m.active.Some? && m.status != Running {
      CompleteEnds(Flush(m, now).mb, CANCELLED, true, View(true, Some(0)), now);
    }
  }

  /** A refused ticket cancels the invocation only while it is the current one. */
  lemma RefuseSays(m: Mailbox, gen: nat, v: View, now: nat)
    ensures var turn := FailSchedule(m, gen, v, now);
            if m.active.Some? && m.active.value.gen == gen && m.status == Runnable then
              Ends(m, Failure("scheduler_stopped"), true, v, turn.mb, turn.request, turn.events)
            else turn == Turn(m, None, [])
  {
    if TicketCurrent(m, gen) {
      CompleteEnds(m, STOPPED, true, v, now);
    }
  }

  /** A task that could not be started ends its own invocation with the error. */
  lemma StartFailSays(m: Mailbox, gen: nat, result: ActorResult, v: View, now: nat)
    ensures var turn := StartFail(m, gen, result, v, now);
            if m.active.Some? && m.active.value.gen == gen then
              Ends(m, result, false, v, turn.mb, turn.request, turn.events)
            else turn == Turn(m, None, [])
  {
    if Owns(m, gen) {
      CompleteEnds(m, result, false, v, now);
    }
  }

  /** An attempt of the idle handoff, the fourth being the last. */
  lemma HandoffSays(m: Mailbox, attempt: nat, v: View, now: nat)
    ensures var turn := Handoff(m, attempt, v, now);
            if m.active.None? && m.status == Idle && m.claimed && (m.pending != [] || attempt + 1 == 4) then
              && Next(m.pending, m.generation, v, turn.mb, turn.request, turn.events, |turn.events|)
              && !turn.mb.claimed && Counted(m.totals, turn.mb.totals, 0, |turn.events|, 0)
            else turn == Turn(m, None, [])
  {
    if HandoffFinal(m, attempt) {
      var k := NextIs(m.(claimed := false), v, now);
    }
  }
}
