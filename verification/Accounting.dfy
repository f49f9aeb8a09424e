/**
 Conservation: whatever a step does, the invocations that it takes out of the mailbox are exactly those for which
 it produces completion events. Stated for an arbitrary weight, so that one lemma covers identities and counters.
 */
module Accounting {
  import opened Wrappers
  import opened Metrics
  import opened Mailboxes
  import opened Boxes
  import opened BoxProofs

  type Weigh = Invocation -> nat

  function QueueWeight(pending: seq<Invocation>, w: Weigh): nat {
    if pending == [] then 0 else w(pending[0]) + QueueWeight(pending[1..], w)
  }

  /** The weight of everything that waits or is active in the mailbox. */
  function Weight(m: Mailbox, w: Weigh): nat {
    QueueWeight(m.pending, w) + if m.active.Some? then w(m.active.value.inv) else 0
  }

  function EventWeight(events: seq<Event>, w: Weigh): nat {
    if events == [] then 0 else w(events[0].inv) + EventWeight(events[1..], w)
  }

  lemma {:induction false} QueueAppend(p: seq<Invocation>, q: seq<Invocation>, w: Weigh)
    ensures QueueWeight(p + q, w) == QueueWeight(p, w) + QueueWeight(q, w)
  {
    if p == [] {
      assert p + q == q;
    } else {
      QueueAppend(p[1..], q, w);
      assert (p + q)[1..] == p[1..] + q;
    }
  }

  lemma {:induction false} EventAppend(p: seq<Event>, q: seq<Event>, w: Weigh)
    ensures EventWeight(p + q, w) == EventWeight(p, w) + EventWeight(q, w)
  {
    if p == [] {
      assert p + q == q;
    } else {
      EventAppend(p[1..], q, w);
      assert (p + q)[1..] == p[1..] + q;
    }
  }

  lemma QueueRemove(p: seq<Invocation>, i: nat, w: Weigh)
    requires i < |p|
    ensures QueueWeight(p, w) == QueueWeight(p[..i] + p[i + 1..], w) + w(p[i])
  {
    assert p == p[..i] + ([p[i]] + p[i + 1..]);
    QueueAppend(p[..i], [p[i]] + p[i + 1..], w);
    QueueAppend(p[..i], p[i + 1..], w);
  }

  /** The turn conserves weight and counts each of its events once. */
  ghost predicate Conserves(before: nat, finished: nat, turn: Turn, w: Weigh) {
    && Weight(turn.mb, w) + EventWeight(turn.events, w) == before
    && Finished(turn.mb.totals) == finished + |turn.events|
  }

  lemma {:induction false} PrepareNextConserves(m: Mailbox, v: View, now: nat, w: Weigh)
    requires m.active.None?
    ensures Conserves(Weight(m, w), Finished(m.totals), PrepareNext(m, v, now), w)
    decreases |m.pending|
  {
    if m.pending != [] && v.cancelAfter != Some(0) && !m.pending[0].registered {
      var rest := m.(pending := m.pending[1..], totals := Count(m.totals, m.pending[0], NOT_REGISTERED, false, now));
      PrepareNextConserves(rest, Later(v), now, w);
    }
  }

  lemma CompleteActiveConserves(m: Mailbox, result: ActorResult, cancelled: bool, v: View, now: nat, w: Weigh)
    ensures Conserves(Weight(m, w), Finished(m.totals), CompleteActive(m, result, cancelled, v, now), w)
  {
    if m.active.Some? {
      var m' := m.(active := None, totals := Count(m.totals, m.active.value.inv, result, cancelled, now));
      PrepareNextConserves(m', v, now, w);
    }
  }

  lemma {:induction false} FlushConserves(m: Mailbox, now: nat, w: Weigh)
    ensures Conserves(Weight(m, w), Finished(m.totals), Flush(m, now), w)
    decreases |m.pending|
  {
    if m.pending != [] {
      FlushConserves(m.(pending := m.pending[1..], totals := Count(m.totals, m.pending[0], CANCELLED, true, now)), now, w);
    }
  }

  lemma PushConserves(m: Mailbox, inv: Invocation, now: nat, w: Weigh)
    requires m.status == Idle && !m.claimed ==> m.active.None?
    ensures Conserves(Weight(m, w) + w(inv), Finished(m.totals), Push(m, inv, now), w)
  {
    QueueAppend(m.pending, [inv], w);
    assert QueueWeight([inv], w) == w(inv);
    var m' := m.(pending := m.pending + [inv]);
    if m.status == Idle && !m.claimed {
      PrepareNextConserves(m', CALM, now, w);
    }
  }

  lemma CancelConserves(m: Mailbox, messageId: string, v: View, now: nat, w: Weigh)
    ensures Conserves(Weight(m, w), Finished(m.totals), Cancel(m, messageId, v, now), w)
  {
    var i := FindMessage(m.pending, messageId);
    if i < |m.pending| {
      QueueRemove(m.pending, i, w);
      assert EventWeight([Event(m.pending[i], CANCELLED)], w) == w(m.pending[i]);
    } else {
      CompleteActiveConserves(m, CANCELLED, true, v, now, w);
    }
  }

  lemma SettleConserves(m: Mailbox, gen: nat, outcome: Resumption, sawCancel: bool, v: View, now: nat, w: Weigh)
    ensures Conserves(Weight(m, w), Finished(m.totals), Settle(m, gen, outcome, sawCancel, v, now), w)
  {
    if Owns(m, gen) && Ends(m, outcome, sawCancel) {
      var result, cancelled := SettleEnds(m, gen, outcome, sawCancel, v, now);
      CompleteActiveConserves(m, result, cancelled, v, now, w);
    }
  }

  lemma SweepConserves(m: Mailbox, now: nat, w: Weigh)
    ensures Conserves(Weight(m, w), Finished(m.totals), Sweep(m, now), w)
  {
    FlushConserves(m, now, w);
    FlushTurn(m, now);
    var flushed := Flush(m, now);
    if m.active.Some? && m.status != Running {
      CompleteActiveConserves(flushed.mb, CANCELLED, true, View(true, Some(0)), now, w);
      var turn := CompleteActive(flushed.mb, CANCELLED, true, View(true, Some(0)), now);
      EventAppend(flushed.events, turn.events, w);
    }
  }

  /** What the step brings into the mailbox. */
  function Incoming(s: Step, w: Weigh): nat {
    if s.Enqueue? then w(s.inv) else 0
  }

  lemma RunEndConserves(m: Mailbox, gen: nat, outcome: Resumption, sawCancel: bool, v: View, sharing: bool,
                        queueDelay: Option<nat>, resumed: nat, now: nat, w: Weigh)
    ensures Conserves(Weight(m, w), Finished(m.totals),
                      RunEnd(m, gen, outcome, sawCancel, v, sharing, queueDelay, resumed, now), w)
  {
    SettleConserves(Timed(m, queueDelay, resumed), gen, outcome, sawCancel, v, now, w);
  }

  lemma HandoffConserves(m: Mailbox, attempt: nat, v: View, now: nat, w: Weigh)
    ensures Conserves(Weight(m, w), Finished(m.totals), Handoff(m, attempt, v, now), w)
  {
    if HandoffFinal(m, attempt) {
      PrepareNextConserves(m.(claimed := false), v, now, w);
    }
  }

  /** The sections that complete the active invocation. */
  predicate Completes(s: Step) {
    s.CancelMessage? || s.Refuse? || s.StartFailed? || s.Resumed?
  }

  lemma CompletionConserves(m: Mailbox, s: Step, now: nat, w: Weigh)
    requires Completes(s)
    ensures Conserves(Weight(m, w), Finished(m.totals), Section(m, s, now), w)
  {
    if s.CancelMessage? {
      CancelConserves(m, s.messageId, s.v, now, w);
    } else if s.Refuse? {
      CompleteActiveConserves(m, STOPPED, true, s.v, now, w);
    } else if s.StartFailed? {
      CompleteActiveConserves(m, s.result, false, s.v, now, w);
    } else {
      RunEndConserves(m, s.gen, s.outcome, s.sawCancel, s.v, s.sharing, s.queueDelay, s.resumed, now, w);
    }
  }

  /** Every step conserves every weight and counts every completion event once. */
  lemma StepConserves(m: Mailbox, s: Step, now: nat, w: Weigh)
    requires s.Enqueue? && m.status == Idle && !m.claimed ==> m.active.None?
    ensures Conserves(Weight(m, w) + Incoming(s, w), Finished(m.totals), Section(m, s, now), w)
  {
    if Completes(s) {
      CompletionConserves(m, s, now, w);
    } else if s.Enqueue? {
      PushConserves(m, s.inv, now, w);
    } else if s.HandoffAttempt? {
      HandoffConserves(m, s.attempt, s.v, now, w);
    } else if s.SweepMailbox? {
      SweepConserves(m, now, w);
    }
  }

  // ----- sources of activations -----

  /** The step admits nothing but its own invocation, and activates only what was waiting or has just come. */
  ghost predicate Sourced(m: Mailbox, s: Step, m': Mailbox) {
    && (forall x | x in m'.pending :: x in m.pending || (s.Enqueue? && x == s.inv))
    && if m'.generation == m.generation then
         m'.active.Some? ==> m.active.Some? && m'.active.value.inv == m.active.value.inv
       else
         && m'.generation == m.generation + 1 && m'.active.Some?
         && (m'.active.value.inv in m.pending || (s.Enqueue? && m'.active.value.inv == s.inv))
  }

  lemma NextSourced(m: Mailbox, v: View, now: nat, s: Step, m0: Mailbox)
    requires m.active.None? && m.generation == m0.generation
    requires forall x | x in m.pending :: x in m0.pending || (s.Enqueue? && x == s.inv)
    ensures Sourced(m0, s, PrepareNext(m, v, now).mb)
  {
    var k := PrepareNextTurn(m, v, now);
  }

  lemma CompleteSourced(m: Mailbox, result: ActorResult, cancelled: bool, v: View, now: nat, s: Step, m0: Mailbox)
    requires m.generation == m0.generation && m.active == m0.active
    requires forall x | x in m.pending :: x in m0.pending || (s.Enqueue? && x == s.inv)
    ensures Sourced(m0, s, CompleteActive(m, result, cancelled, v, now).mb)
  {
    if m.active.Some? {
      var m' := m.(active := None, totals := Count(m.totals, m.active.value.inv, result, cancelled, now));
      NextSourced(m', v, now, s, m0);
    }
  }

  lemma SettleSourced(m: Mailbox, gen: nat, outcome: Resumption, sawCancel: bool, v: View, now: nat, s: Step, m0: Mailbox)
    requires m == m0.(totals := m.totals)
    ensures Sourced(m0, s, Settle(m, gen, outcome, sawCancel, v, now).mb)
  {
    if Owns(m, gen) && Ends(m, outcome, sawCancel) {
      var result, cancelled := SettleEnds(m, gen, outcome, sawCancel, v, now);
      CompleteSourced(m, result, cancelled, v, now, s, m0);
    }
  }

  lemma SweepSourced(m: Mailbox, now: nat)
    ensures Sourced(m, SweepMailbox, Sweep(m, now).mb)
  {
    FlushTurn(m, now);
    CompleteSourced(Flush(m, now).mb, CANCELLED, true, View(true, Some(0)), now, SweepMailbox, m);
  }

  lemma CompletionSourced(m: Mailbox, s: Step, now: nat)
    requires Completes(s)
    ensures Sourced(m, s, Section(m, s, now).mb)
  {
    if s.CancelMessage? {
      CompleteSourced(m, CANCELLED, true, s.v, now, s, m);
    } else if s.Refuse? {
      CompleteSourced(m, STOPPED, true, s.v, now, s, m);
    } else if s.StartFailed? {
      CompleteSourced(m, s.result, false, s.v, now, s, m);
    } else {
      SettleSourced(Timed(m, s.queueDelay, s.resumed), s.gen, s.outcome, s.sawCancel, s.v, now, s, m);
    }
  }

  lemma StepSourced(m: Mailbox, s: Step, now: nat)
    requires m.active.Some? ==> HasActive(m.status)
    ensures Sourced(m, s, Section(m, s, now).mb)
  {
    if Completes(s) {
      CompletionSourced(m, s, now);
    } else if s.Enqueue? {
      if m.status == Idle && !m.claimed {
        NextSourced(m.(pending := m.pending + [s.inv]), CALM, now, s, m);
      }
    } else if s.HandoffAttempt? {
      if HandoffFinal(m, s.attempt) {
        NextSourced(m.(claimed := false), s.v, now, s, m);
      }
    } else if s.SweepMailbox? {
      SweepSourced(m, now);
    }
  }
}
