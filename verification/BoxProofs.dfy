/** Every step keeps the invariant of its mailbox. */
module BoxProofs {
  import opened Wrappers
  import opened Metrics
  import opened Mailboxes
  import opened Boxes

  /** What `prepare_next_locked` does: drop a prefix, then activate the next invocation or come to rest. */
  ghost predicate NextTurn(m: Mailbox, v: View, turn: Turn, k: nat) {
    && k <= |m.pending|
    && turn.mb.claimed == m.claimed
    && Finished(turn.mb.totals) - turn.mb.totals.latency.count == Finished(m.totals) - m.totals.latency.count
    && if turn.request.Some? then
         && 1 <= k && m.pending[k - 1].registered
         && turn.request == Some(m.generation + 1)
         && turn.mb.generation == m.generation + 1
         && turn.mb.active == Some(Activate(m.pending[k - 1], m.generation + 1))
         && turn.mb.pending == m.pending[k..]
         && turn.mb.status == Runnable
       else
         && turn.mb.generation == m.generation
         && turn.mb.active == m.active
         && turn.mb.pending == m.pending[k..]
         && (turn.mb.pending == [] || v.cancelAfter.Some?)
         && turn.mb.status == if v.stopping then Stopping else Idle
  }

  lemma {:induction false} PrepareNextTurn(m: Mailbox, v: View, now: nat) returns (k: nat)
    ensures NextTurn(m, v, PrepareNext(m, v, now), k)
    decreases |m.pending|
  {
    if m.pending == [] || v.cancelAfter == Some(0) {
      k := 0;
    } else {
      var inv, rest := m.pending[0], m.(pending := m.pending[1..]);
      if inv.registered {
        k := 1;
      } else {
        var rest' := rest.(totals := Count(m.totals, inv, NOT_REGISTERED, false, now));
        var k' := PrepareNextTurn(rest', Later(v), now);
        k := k' + 1;
      }
    }
  }

  /** The box of a mailbox whose active invocation has just ended. */
  ghost predicate Released(b: Box, m: Mailbox, f: Flags) {
    && m.active.None? && m.generation == b.mb.generation && m.pending == b.mb.pending
    && !m.claimed
    && Finished(m.totals) == m.totals.latency.count
    && (f.cancelling ==> f.stopping)
    && b.runners == multiset{} && |b.owners| <= 1 && (forall a | a in b.owners :: a < MAX_IDLE_HANDOFF_YIELDS)
    && (b.owners != multiset{} ==> b.swept)
    && (b.swept ==> f.cancelling && m.pending == [])
    && (forall t | t in b.tickets :: 1 <= t <= m.generation && b.tickets[t] == 1)
    && b.notices <= b.done
    && (forall op | op in b.done :: 1 <= op.0 <= m.generation && op.1 >= 1)
    && (forall i, j | 0 <= i < j < |m.pending| :: m.pending[i].id < m.pending[j].id)
  }

  lemma NextKeeps(b: Box, m: Mailbox, v: View, now: nat, f: Flags)
    requires Released(b, m, f) && ViewOk(v, f, b.swept)
    ensures BoxInv(After(b, PrepareNext(m, v, now)), f)
  {
    var k := PrepareNextTurn(m, v, now);
    var turn := PrepareNext(m, v, now);
    if turn.request.Some? {
      ActivatingKeeps(b, m, v, turn, k, f);
    } else {
      RestingKeeps(b, m, v, turn, k, f);
    }
  }

  lemma SuffixOrder(pending: seq<Invocation>, k: nat)
    requires k <= |pending| && forall i, j | 0 <= i < j < |pending| :: pending[i].id < pending[j].id
    ensures OrderInv(pending[k..], if k > 0 then Some(pending[k - 1].id) else None)
    ensures OrderInv(pending[k..], None)
  {
  }

  lemma ActivatingKeeps(b: Box, m: Mailbox, v: View, turn: Turn, k: nat, f: Flags)
    requires Released(b, m, f) && ViewOk(v, f, b.swept) && NextTurn(m, v, turn, k) && turn.request.Some?
    ensures BoxInv(After(b, turn), f)
  {
    var c := After(b, turn);
    SuffixOrder(m.pending, k);
    assert StatusInv(c.mb, c.swept, f);
    assert TicketInv(c.tickets, c.mb.generation, c.mb.status);
    assert OwnerInv(c.owners, c.mb.claimed, c.mb.status, c.swept);
    assert IoInv(c.mb, false, c.begun, c.done, c.notices, f.cancelling);
  }

  lemma RestingKeeps(b: Box, m: Mailbox, v: View, turn: Turn, k: nat, f: Flags)
    requires Released(b, m, f) && ViewOk(v, f, b.swept) && NextTurn(m, v, turn, k) && turn.request.None?
    ensures BoxInv(After(b, turn), f)
  {
    var c := After(b, turn);
    SuffixOrder(m.pending, k);
    assert StatusInv(c.mb, c.swept, f);
    assert TicketInv(c.tickets, c.mb.generation, c.mb.status);
    assert OwnerInv(c.owners, c.mb.claimed, c.mb.status, c.swept);
    assert IoInv(c.mb, false, c.begun, c.done, c.notices, f.cancelling);
  }

  /** An invocation that was never admitted to this mailbox comes after everything in it. */
  ghost predicate Newest(b: Box, inv: Invocation) {
    && (forall i | 0 <= i < |b.mb.pending| :: b.mb.pending[i].id < inv.id)
    && (b.mb.active.Some? ==> b.mb.active.value.inv.id < inv.id)
  }

  lemma EnqueueKeeps(b: Box, inv: Invocation, now: nat, f: Flags)
    requires BoxInv(b, f) && !f.stopping && Newest(b, inv)
    ensures BoxInv(After(b, Push(b.mb, inv, now)), f)
  {
    var m := b.mb.(pending := b.mb.pending + [inv]);
    if b.mb.status == Idle && !b.mb.claimed {
      NextKeeps(b.(mb := m), m, CALM, now, f);
    }
  }

  /** The end of the active invocation, from any state in which no worker is inside. */
  lemma CompleteKeeps(b: Box, m: Mailbox, result: ActorResult, cancelled: bool, v: View, now: nat, f: Flags)
    requires BoxInv(b, f) && b.mb.active.Some? && ViewOk(v, f, b.swept)
    requires m == b.mb.(totals := m.totals) && Finished(m.totals) == m.totals.latency.count
    ensures BoxInv(After(b.(mb := m, runners := multiset{}), CompleteActive(m, result, cancelled, v, now)), f)
  {
    var m' := m.(active := None, totals := Count(m.totals, m.active.value.inv, result, cancelled, now));
    EndedIsReleased(b, m, m', f);
    NextKeeps(b.(mb := m, runners := multiset{}), m', v, now, f);
    CompletedIs(b.(mb := m, runners := multiset{}), m, result, cancelled, v, now);
  }

  lemma CompletedIs(c: Box, m: Mailbox, result: ActorResult, cancelled: bool, v: View, now: nat)
    requires m.active.Some?
    ensures After(c, CompleteActive(m, result, cancelled, v, now))
            == After(c, PrepareNext(m.(active := None, totals := Count(m.totals, m.active.value.inv, result, cancelled, now)), v, now))
  {
  }

  lemma EndedIsReleased(b: Box, m: Mailbox, m': Mailbox, f: Flags)
    requires BoxInv(b, f) && b.mb.active.Some? && m == b.mb.(totals := m.totals)
    requires m' == m.(active := None, totals := m'.totals) && Finished(m'.totals) == m'.totals.latency.count
    ensures Released(b.(mb := m, runners := multiset{}), m', f)
  {
  }

  lemma OrderRemoved(pending: seq<Invocation>, first: Option<nat>, i: nat)
    requires OrderInv(pending, first) && i < |pending|
    ensures OrderInv(pending[..i] + pending[i + 1..], first)
  {
  }

  lemma RemoveKeeps(b: Box, i: nat, now: nat, f: Flags)
    requires BoxInv(b, f) && i < |b.mb.pending|
    ensures BoxInv(b.(mb := b.mb.(pending := b.mb.pending[..i] + b.mb.pending[i + 1..],
                                  totals := Count(b.mb.totals, b.mb.pending[i], CANCELLED, true, now))), f)
  {
    OrderRemoved(b.mb.pending, ActiveId(b.mb), i);
  }

  lemma CancelQueuedIs(b: Box, messageId: string, v: View, now: nat)
    requires FindMessage(b.mb.pending, messageId) < |b.mb.pending|
    ensures var i := FindMessage(b.mb.pending, messageId);
            After(b, Cancel(b.mb, messageId, v, now))
            == b.(mb := b.mb.(pending := b.mb.pending[..i] + b.mb.pending[i + 1..],
                              totals := Count(b.mb.totals, b.mb.pending[i], CANCELLED, true, now)))
  {
  }

  lemma CancelActiveIs(b: Box, messageId: string, v: View, now: nat)
    requires b.runners == multiset{} && b.mb.status != Running
    requires FindMessage(b.mb.pending, messageId) == |b.mb.pending|
    requires b.mb.active.Some? && b.mb.active.value.inv.messageId == messageId
    ensures After(b, Cancel(b.mb, messageId, v, now)) ==
            After(b.(mb := b.mb, runners := multiset{}), CompleteActive(b.mb, CANCELLED, true, v, now))
  {
    assert b.(mb := b.mb, runners := multiset{}) == b;
  }

  lemma NotRunningEmpty(b: Box, f: Flags)
    requires BoxInv(b, f) && b.mb.status != Running
    ensures b.runners == multiset{}
  {
  }

  lemma MarkKeeps(b: Box, f: Flags)
    requires BoxInv(b, f) && b.mb.status == Running
    ensures BoxInv(b.(mb := b.mb.(active := Some(b.mb.active.value.(cancelAfterResume := true)))), f)
  {
  }

  lemma CancelKeeps(b: Box, messageId: string, v: View, now: nat, f: Flags)
    requires BoxInv(b, f) && ViewOk(v, f, b.swept)
    ensures BoxInv(After(b, Cancel(b.mb, messageId, v, now)), f)
  {
    if FindMessage(b.mb.pending, messageId) < |b.mb.pending| {
      CancelQueuedKeeps(b, messageId, v, now, f);
    } else if b.mb.active.Some? && b.mb.active.value.inv.messageId == messageId {
      CancelActiveKeeps(b, messageId, v, now, f);
    }
  }

  lemma CancelQueuedKeeps(b: Box, messageId: string, v: View, now: nat, f: Flags)
    requires BoxInv(b, f) && FindMessage(b.mb.pending, messageId) < |b.mb.pending|
    ensures BoxInv(After(b, Cancel(b.mb, messageId, v, now)), f)
  {
    RemoveKeeps(b, FindMessage(b.mb.pending, messageId), now, f);
    CancelQueuedIs(b, messageId, v, now);
  }

  lemma CancelActiveKeeps(b: Box, messageId: string, v: View, now: nat, f: Flags)
    requires BoxInv(b, f) && ViewOk(v, f, b.swept) && FindMessage(b.mb.pending, messageId) == |b.mb.pending|
    requires b.mb.active.Some? && b.mb.active.value.inv.messageId == messageId
    ensures BoxInv(After(b, Cancel(b.mb, messageId, v, now)), f)
  {
    if b.mb.status == Running {
      MarkKeeps(b, f);
    } else {
      NotRunningEmpty(b, f);
      CompleteKeeps(b, b.mb, CANCELLED, true, v, now, f);
      CancelActiveIs(b, messageId, v, now);
    }
  }

  lemma TicketTaken(tickets: multiset<nat>, gen: nat, generation: nat, status: Status)
    requires TicketInv(tickets, generation, status) && gen in tickets
    ensures TicketInv(tickets - multiset{gen}, generation, if gen == generation && status == Runnable then Running else status)
    ensures gen !in tickets - multiset{gen}
  {
  }

  lemma TakeKeeps(b: Box, gen: nat, f: Flags)
    requires BoxInv(b, f) && gen in b.tickets
    ensures BoxInv(TakeStep(b, gen), f)
  {
    TicketTaken(b.tickets, gen, b.mb.generation, b.mb.status);
    if TicketCurrent(b.mb, gen) {
      TakeCurrentKeeps(b, f);
    }
  }

  lemma TakeCurrentKeeps(b: Box, f: Flags)
    requires BoxInv(b, f) && b.mb.status == Runnable && b.mb.generation in b.tickets
    ensures BoxInv(TakeStep(b, b.mb.generation), f)
  {
    var gen := b.mb.generation;
    TicketTaken(b.tickets, gen, gen, b.mb.status);
    var r := if TaskValid(b.mb) then Resuming(gen, false) else Starting(gen);
    NoRunner(b, f);
    assert TakeStep(b, gen) == b.(mb := RunBegin(b.mb, gen), tickets := b.tickets - multiset{gen}, runners := multiset{r});
    RunnerEnters(b, b.tickets - multiset{gen}, f);
  }

  lemma NoRunner(b: Box, f: Flags)
    requires BoxInv(b, f) && b.mb.status == Runnable
    ensures forall r :: b.runners + multiset{r} == multiset{r}
    ensures b.mb.active.Some? && b.mb.active.value.gen == b.mb.generation
  {
    assert b.runners == multiset{};
  }

  lemma RunnerEnters(b: Box, tickets: multiset<nat>, f: Flags)
    requires BoxInv(b, f) && b.mb.status == Runnable && TicketInv(tickets, b.mb.generation, Running)
    ensures var r := if TaskValid(b.mb) then Resuming(b.mb.generation, false) else Starting(b.mb.generation);
            BoxInv(b.(mb := RunBegin(b.mb, b.mb.generation), tickets := tickets, runners := multiset{r}), f)
  {
  }

  lemma RefuseKeeps(b: Box, gen: nat, v: View, now: nat, f: Flags)
    requires BoxInv(b, f) && gen in b.tickets && !TicketCurrent(b.mb, gen)
    ensures BoxInv(RefuseStep(b, gen, v, now), f)
  {
  }

  lemma StartedKeeps(b: Box, gen: nat, f: Flags)
    requires BoxInv(b, f) && Starting(gen) in b.runners
    ensures BoxInv(StartedStep(b, gen), f)
  {
    StarterOwns(b, gen, f);
    var rest := b.runners - multiset{Starting(gen)};
    assert rest == multiset{};
    assert rest + multiset{Resuming(gen, false)} == multiset{Resuming(gen, false)};
    PublishKeeps(b, f);
  }

  lemma PublishKeeps(b: Box, f: Flags)
    requires BoxInv(b, f) && b.runners == multiset{Starting(b.mb.generation)} && b.mb.status == Running
    ensures BoxInv(b.(mb := StartOk(b.mb, b.mb.generation), runners := multiset{Resuming(b.mb.generation, false)}), f)
  {
  }

  lemma StarterOwns(b: Box, gen: nat, f: Flags)
    requires BoxInv(b, f) && Starting(gen) in b.runners
    ensures b.runners == multiset{Starting(gen)} && Owns(b.mb, gen) && b.mb.status == Running
  {
  }

  lemma StartFailedIs(b: Box, gen: nat, result: ActorResult, v: View, now: nat)
    requires b.runners == multiset{Starting(gen)} && Owns(b.mb, gen)
    ensures StartFailedStep(b, gen, result, v, now) ==
            After(b.(mb := b.mb, runners := multiset{}), CompleteActive(b.mb, result, false, v, now))
  {
    assert b.runners - multiset{Starting(gen)} == multiset{};
  }

  lemma StartFailedKeeps(b: Box, gen: nat, result: ActorResult, v: View, now: nat, f: Flags)
    requires BoxInv(b, f) && Starting(gen) in b.runners && ViewOk(v, f, b.swept)
    ensures BoxInv(StartFailedStep(b, gen, result, v, now), f)
  {
    StarterOwns(b, gen, f);
    CompleteKeeps(b, b.mb, result, false, v, now, f);
    StartFailedIs(b, gen, result, v, now);
  }

  lemma BeginKeeps(b: Box, gen: nat, f: Flags)
    requires BoxInv(b, f) && Resuming(gen, false) in b.runners
    ensures BoxInv(BeginStep(b, gen), f)
  {
    RunnerOwns(b, gen, false, f);
    var c := BeginStep(b, gen);
    assert c.runners == multiset{Resuming(gen, true)};
    EpochBegins(b, f);
    assert RunnerInv(c.runners, c.mb.status, c.mb.generation, TaskValid(c.mb));
    assert IoInv(c.mb, true, c.begun, c.done, c.notices, f.cancelling);
  }

  /** A task that has caught up and begins an epoch is in flight: nothing of the new epoch has completed. */
  lemma EpochBegins(b: Box, f: Flags)
    requires BoxInv(b, f) && b.mb.status == Running && b.runners == multiset{Resuming(b.mb.generation, false)}
    ensures b.mb.active.Some?
    ensures InFlight(b.mb.generation, b.done, b.notices, b.begun + 1, b.mb.active.value, f.cancelling)
  {
    assert Caught(b.mb.generation, b.done, b.notices, b.begun, b.mb.active.value);
    assert !Delivered(b.mb.generation, b.done, b.notices, b.begun + 1);
  }

  lemma ReleaseKeeps(b: Box, v: View, now: nat, f: Flags)
    requires BoxInv(b, f) && b.mb.claimed && ViewOk(v, f, b.swept)
    ensures BoxInv(After(b, PrepareNext(b.mb.(claimed := false), v, now)).(owners := multiset{}), f)
  {
    var m := b.mb.(claimed := false);
    NextKeeps(b.(mb := m, owners := multiset{}), m, v, now, f);
  }

  lemma HandoffKeeps(b: Box, attempt: nat, v: View, now: nat, f: Flags)
    requires BoxInv(b, f) && attempt in b.owners && ViewOk(v, f, b.swept)
    ensures BoxInv(HandoffStep(b, attempt, v, now), f)
  {
    assert b.owners == multiset{attempt};
    var rest := b.owners - multiset{attempt};
    assert rest == multiset{};
    if HandoffFinal(b.mb, attempt) {
      ReleaseKeeps(b, v, now, f);
    } else if !HandoffBroken(b.mb) {
      assert OwnerInv(rest + multiset{attempt + 1}, b.mb.claimed, b.mb.status, b.swept);
    } else {
      assert OwnerInv(rest, b.mb.claimed, b.mb.status, b.swept);
    }
  }

  /** What has been delivered stays delivered while operations complete and other notifications are handled. */
  lemma DeliveredKept(gen: nat, done: set<(nat, nat)>, notices: set<(nat, nat)>, done': set<(nat, nat)>,
                      notices': set<(nat, nat)>, last: int)
    requires DeliveredTo(gen, done, notices, last) && done <= done'
    requires forall op | op in notices' :: op in notices || op !in done
    ensures DeliveredTo(gen, done', notices', last)
  {
    forall e: nat | 1 <= e <= last ensures Delivered(gen, done', notices', e) {
      assert Delivered(gen, done, notices, e);
    }
  }

  lemma CompleteOpKeeps(b: Box, gen: nat, epoch: nat, f: Flags)
    requires BoxInv(b, f) && CanComplete(b, gen, epoch)
    ensures BoxInv(CompleteStep(b, gen, epoch), f)
  {
    var b', g := CompleteStep(b, gen, epoch), b.mb.generation;
    forall last: int | DeliveredTo(g, b.done, b.notices, last) ensures DeliveredTo(g, b'.done, b'.notices, last) {
      DeliveredKept(g, b.done, b.notices, b'.done, b'.notices, last);
    }
  }

  /** An operation of the current task whose notification is still to come is that of its latest epoch. */
  lemma PendingNoticeIsLatest(b: Box, epoch: nat, f: Flags)
    requires BoxInv(b, f) && b.mb.active.Some? && (b.mb.generation, epoch) in b.notices
    ensures epoch == b.begun && !Delivered(b.mb.generation, b.done, b.notices, epoch)
    ensures b.mb.status == Suspended || (b.mb.status == Running && Began(b.runners, b.mb.generation))
    ensures b.mb.active.value.ready == 0
  {
    assert !Delivered(b.mb.generation, b.done, b.notices, epoch);
  }

  lemma NotifyKeeps(b: Box, gen: nat, epoch: nat, sawCancel: bool, f: Flags)
    requires BoxInv(b, f) && (gen, epoch) in b.notices && (sawCancel ==> f.cancelling) && (b.swept ==> sawCancel)
    ensures BoxInv(NotifyStep(b, gen, epoch, sawCancel), f)
  {
    NoticesKept(b.mb.generation, b.done, b.notices, (gen, epoch));
    if Owns(b.mb, gen) {
      PendingNoticeIsLatest(b, epoch, f);
      NotifyCurrentKeeps(b, epoch, sawCancel, f);
    } else {
      StaleNoticeKeeps(b, gen, epoch, f);
    }
  }

  lemma NoticesKept(gen: nat, done: set<(nat, nat)>, notices: set<(nat, nat)>, op: (nat, nat))
    ensures forall last: int | DeliveredTo(gen, done, notices, last) :: DeliveredTo(gen, done, notices - {op}, last)
  {
    forall last: int | DeliveredTo(gen, done, notices, last) ensures DeliveredTo(gen, done, notices - {op}, last) {
      DeliveredKept(gen, done, notices, done, notices - {op}, last);
    }
  }

  lemma StaleNoticeKeeps(b: Box, gen: nat, epoch: nat, f: Flags)
    requires BoxInv(b, f) && !Owns(b.mb, gen)
    ensures BoxInv(b.(notices := b.notices - {(gen, epoch)}), f)
  {
    NoticesKept(b.mb.generation, b.done, b.notices, (gen, epoch));
    if b.mb.active.Some? {
      var g, notices := b.mb.generation, b.notices - {(gen, epoch)};
      assert Delivered(g, b.done, b.notices, b.begun) == Delivered(g, b.done, notices, b.begun);
    }
  }

  lemma LatestDelivered(gen: nat, done: set<(nat, nat)>, notices: set<(nat, nat)>, begun: nat)
    requires DeliveredTo(gen, done, notices, begun - 1) && (gen, begun) in done && (gen, begun) !in notices
    ensures DeliveredTo(gen, done, notices, begun)
  {
    forall e: nat | 1 <= e <= begun ensures Delivered(gen, done, notices, e) {
      assert e == begun || e <= begun - 1;
    }
  }

  /** The notification of the latest epoch of the current task. */
  ghost predicate Noticing(b: Box, f: Flags) {
    && BoxInv(b, f) && b.mb.active.Some? && (b.mb.generation, b.begun) in b.notices
    && b.mb.active.value.ready == 0
    && DeliveredTo(b.mb.generation, b.done, b.notices - {(b.mb.generation, b.begun)}, b.begun - 1)
  }

  lemma EarlyNoticeKeeps(b: Box, f: Flags)
    requires Noticing(b, f) && b.mb.status == Running && Began(b.runners, b.mb.generation)
    ensures BoxInv(b.(mb := b.mb.(active := Some(b.mb.active.value.(ready := b.begun))),
                      notices := b.notices - {(b.mb.generation, b.begun)}), f)
  {
    LatestDelivered(b.mb.generation, b.done, b.notices - {(b.mb.generation, b.begun)}, b.begun);
  }

  lemma DroppedNoticeKeeps(b: Box, f: Flags)
    requires Noticing(b, f) && f.cancelling
    requires b.mb.status == Suspended || (b.mb.status == Running && Began(b.runners, b.mb.generation))
    ensures BoxInv(b.(notices := b.notices - {(b.mb.generation, b.begun)}), f)
  {
  }

  lemma TicketAdded(tickets: multiset<nat>, generation: nat)
    requires TicketInv(tickets, generation, Suspended) && generation >= 1
    ensures TicketInv(tickets + multiset{generation}, generation, Runnable)
  {
  }

  lemma WakingNoticeKeeps(b: Box, f: Flags)
    requires Noticing(b, f) && b.mb.status == Suspended && !b.swept
    ensures BoxInv(b.(mb := b.mb.(status := Runnable, active := Some(b.mb.active.value.(completed := b.begun))),
                      tickets := b.tickets + multiset{b.mb.generation},
                      notices := b.notices - {(b.mb.generation, b.begun)}), f)
  {
    TicketAdded(b.tickets, b.mb.generation);
    LatestDelivered(b.mb.generation, b.done, b.notices - {(b.mb.generation, b.begun)}, b.begun);
  }

  lemma NotifyCurrentKeeps(b: Box, epoch: nat, sawCancel: bool, f: Flags)
    requires Noticing(b, f) && epoch == b.begun && (sawCancel ==> f.cancelling) && (b.swept ==> sawCancel)
    requires b.mb.status == Suspended || (b.mb.status == Running && Began(b.runners, b.mb.generation))
    ensures BoxInv(NotifyStep(b, b.mb.generation, epoch, sawCancel), f)
  {
    if sawCancel {
      DroppedNoticeKeeps(b, f);
    } else if b.mb.status == Running {
      EarlyNoticeKeeps(b, f);
    } else {
      WakingNoticeKeeps(b, f);
    }
  }

  /** A resume that ended in a suspension. */
  lemma SuspendKeeps(b: Box, m: Mailbox, gen: nat, began: bool, outcome: Resumption, v: View, now: nat, f: Flags)
    requires BoxInv(b, f) && Resuming(gen, began) in b.runners
    requires m == b.mb.(totals := m.totals) && Finished(m.totals) == m.totals.latency.count
    requires !b.mb.active.value.cancelAfterResume
    requires (outcome == Yielded && !began) || (outcome == Awaiting(b.begun) && began)
    ensures BoxInv(After(b.(mb := m, runners := multiset{}), Settle(m, gen, outcome, false, v, now)), f)
  {
    RunnerOwns(b, gen, began, f);
    NotSwept(b, f);
    SuspendIs(b, m, outcome, v, now);
    if outcome.Yielded? {
      YieldKeeps(b, m.totals.(yielded := m.totals.yielded + 1), f);
    } else {
      var t := m.totals.(suspensions := m.totals.suspensions + 1);
      if m.active.value.ready == b.begun {
        WakeAtOnceKeeps(b, t, f);
      } else {
        ParkKeeps(b, t, f);
      }
    }
  }

  lemma NotSwept(b: Box, f: Flags)
    requires BoxInv(b, f) && b.mb.status == Running && !b.mb.active.value.cancelAfterResume
    ensures !b.swept
  {
  }

  lemma SuspendIs(b: Box, m: Mailbox, outcome: Resumption, v: View, now: nat)
    requires m == b.mb.(totals := m.totals) && m.active.Some? && m.active.value.gen == m.generation
    requires !m.active.value.cancelAfterResume && (outcome == Yielded || outcome == Awaiting(b.begun))
    ensures After(b.(mb := m, runners := multiset{}), Settle(m, m.generation, outcome, false, v, now)) ==
            var a := m.active.value;
            if outcome.Yielded? then Left(b, Runnable, a, m.totals.(yielded := m.totals.yielded + 1))
            else
              var t := m.totals.(suspensions := m.totals.suspensions + 1);
              if a.ready == b.begun then Left(b, Runnable, a.(taskEpoch := b.begun, ready := 0, completed := b.begun), t)
              else Left(b, Suspended, a.(taskEpoch := b.begun), t)
  {
  }

  /** The box of a running mailbox whose worker leaves it in another state. */
  function Left(b: Box, status: Status, active: Active, totals: Totals): Box {
    b.(mb := b.mb.(status := status, active := Some(active), totals := totals), runners := multiset{},
       tickets := if status == Runnable then b.tickets + multiset{b.mb.generation} else b.tickets)
  }

  /** A worker is about to leave a mailbox that it owns. */
  ghost predicate Leaving(b: Box, began: bool, totals: Totals, f: Flags) {
    && BoxInv(b, f) && b.runners == multiset{Resuming(b.mb.generation, began)} && b.mb.status == Running && !b.swept
    && b.mb.active.Some? && Finished(totals) == totals.latency.count
  }

  lemma LeavingOwner(b: Box, began: bool, totals: Totals, f: Flags)
    requires Leaving(b, began, totals, f)
    ensures b.owners == multiset{} && b.mb.active.value.taskValid && !b.mb.claimed
  {
  }

  lemma YieldKeeps(b: Box, totals: Totals, f: Flags)
    requires Leaving(b, false, totals, f)
    ensures BoxInv(Left(b, Runnable, b.mb.active.value, totals), f)
  {
    LeavingOwner(b, false, totals, f);
    var c := Left(b, Runnable, b.mb.active.value, totals);
    assert TicketInv(c.tickets, c.mb.generation, Runnable);
    assert IoInv(c.mb, false, c.begun, c.done, c.notices, f.cancelling);
  }

  lemma WakeAtOnceKeeps(b: Box, totals: Totals, f: Flags)
    requires Leaving(b, true, totals, f) && b.mb.active.value.ready == b.begun
    ensures BoxInv(Left(b, Runnable, b.mb.active.value.(taskEpoch := b.begun, ready := 0, completed := b.begun), totals), f)
  {
    LeavingOwner(b, true, totals, f);
    LatestDelivered(b.mb.generation, b.done, b.notices, b.begun);
    var c := Left(b, Runnable, b.mb.active.value.(taskEpoch := b.begun, ready := 0, completed := b.begun), totals);
    assert TicketInv(c.tickets, c.mb.generation, Runnable);
    assert IoInv(c.mb, false, c.begun, c.done, c.notices, f.cancelling);
  }

  lemma ParkKeeps(b: Box, totals: Totals, f: Flags)
    requires Leaving(b, true, totals, f) && b.mb.active.value.ready != b.begun
    ensures BoxInv(Left(b, Suspended, b.mb.active.value.(taskEpoch := b.begun), totals), f)
  {
    LeavingOwner(b, true, totals, f);
    var c := Left(b, Suspended, b.mb.active.value.(taskEpoch := b.begun), totals);
    assert IoInv(c.mb, false, c.begun, c.done, c.notices, f.cancelling);
  }

  /** A worker inside a resume owns the mailbox, alone. */
  lemma RunnerOwns(b: Box, gen: nat, began: bool, f: Flags)
    requires BoxInv(b, f) && Resuming(gen, began) in b.runners
    ensures b.runners == multiset{Resuming(gen, began)} && b.mb.status == Running && gen == b.mb.generation
    ensures Owns(b.mb, gen) && b.mb.active.value.taskValid && !b.mb.claimed
    ensures b.owners != multiset{} ==> b.swept
  {
  }

  /** The turn that ends the active invocation after a resume, if the resume ends it. */
  predicate Ends(m: Mailbox, outcome: Resumption, sawCancel: bool)
    requires m.active.Some?
  {
    sawCancel || m.active.value.cancelAfterResume || outcome.Done? || outcome.Unsupported?
  }

  lemma SettleEnds(m: Mailbox, gen: nat, outcome: Resumption, sawCancel: bool, v: View, now: nat)
    returns (result: ActorResult, cancelled: bool)
    requires Owns(m, gen) && Ends(m, outcome, sawCancel)
    ensures Settle(m, gen, outcome, sawCancel, v, now) == CompleteActive(m, result, cancelled, v, now)
  {
    if sawCancel || m.active.value.cancelAfterResume {
      result, cancelled := CANCELLED, true;
    } else {
      result, cancelled := if outcome.Done? then outcome.result else INVALID_SUSPENSION, false;
    }
  }

  lemma SettleKeeps(b: Box, m: Mailbox, s: Step, now: nat, f: Flags)
    requires s.Resumed? && BoxInv(b, f) && CanEnd(b, s, f) && Owns(b.mb, s.gen)
    requires m == b.mb.(totals := m.totals) && Finished(m.totals) == m.totals.latency.count
    ensures BoxInv(After(b.(mb := m, runners := multiset{}), Settle(m, s.gen, s.outcome, s.sawCancel, s.v, now)), f)
  {
    if Ends(m, s.outcome, s.sawCancel) {
      var result, cancelled := SettleEnds(m, s.gen, s.outcome, s.sawCancel, s.v, now);
      CompleteKeeps(b, m, result, cancelled, s.v, now, f);
    } else {
      SuspendKeeps(b, m, s.gen, s.began, s.outcome, s.v, now, f);
    }
  }

  /** Taking the idle claim on a mailbox that came to rest. */
  lemma ClaimKeeps(c: Box, f: Flags)
    requires BoxInv(c, f) && c.mb.status == Idle && !c.mb.claimed
    requires c.owners == multiset{}
    ensures BoxInv(c.(mb := c.mb.(claimed := true), owners := c.owners + multiset{0}), f)
  {
    assert !c.swept;
    assert c.owners + multiset{0} == multiset{0};
  }

  lemma NextUnclaimed(m: Mailbox, v: View, now: nat)
    ensures PrepareNext(m, v, now).mb.claimed == m.claimed
  {
    var k := PrepareNextTurn(m, v, now);
  }

  /** No section before the claim touches the claim. */
  lemma SettleUnclaimed(m: Mailbox, gen: nat, outcome: Resumption, sawCancel: bool, v: View, now: nat)
    ensures Settle(m, gen, outcome, sawCancel, v, now).mb.claimed == m.claimed
  {
    if Owns(m, gen) {
      var a := m.active.value;
      forall result, cancelled ensures CompleteActive(m, result, cancelled, v, now).mb.claimed == m.claimed {
        NextUnclaimed(m.(active := None, totals := Count(m.totals, a.inv, result, cancelled, now)), v, now);
      }
    }
  }

  lemma ResumedKeeps(b: Box, s: Step, now: nat, f: Flags)
    requires s.Resumed? && BoxInv(b, f) && CanEnd(b, s, f)
    ensures BoxInv(ResumedStep(b, s.gen, s.began, ResumeTurn(b, s, now)), f)
  {
    RunnerOwns(b, s.gen, s.began, f);
    var m := Timed(b.mb, s.queueDelay, s.resumed);
    SettleKeeps(b, m, s, now, f);
    var turn := Settle(m, s.gen, s.outcome, s.sawCancel, s.v, now);
    SettleUnclaimed(m, s.gen, s.outcome, s.sawCancel, s.v, now);
    var c := After(b.(mb := m, runners := multiset{}), turn);
    ResumedStepIs(b, s, now, c, turn);
    if Claims(turn, s.sharing) {
      IdleUnowned(c, f);
      ClaimKeeps(c, f);
    }
  }

  lemma IdleUnowned(c: Box, f: Flags)
    requires BoxInv(c, f) && c.mb.status == Idle && !c.mb.claimed
    ensures c.owners == multiset{}
  {
  }

  /** The step of a worker that owns the mailbox, in terms of the section without the claim. */
  lemma ResumedStepIs(b: Box, s: Step, now: nat, c: Box, turn: Turn)
    requires s.Resumed? && Owns(b.mb, s.gen) && b.runners == multiset{Resuming(s.gen, s.began)}
    requires turn == Settle(Timed(b.mb, s.queueDelay, s.resumed), s.gen, s.outcome, s.sawCancel, s.v, now)
    requires c == After(b.(mb := Timed(b.mb, s.queueDelay, s.resumed), runners := multiset{}), turn)
    requires !turn.mb.claimed
    ensures ResumedStep(b, s.gen, s.began, ResumeTurn(b, s, now)) ==
            if Claims(turn, s.sharing) then c.(mb := c.mb.(claimed := true), owners := c.owners + multiset{0}) else c
  {
    assert b.runners - multiset{Resuming(s.gen, s.began)} == multiset{};
  }

  lemma {:induction false} FlushTurn(m: Mailbox, now: nat)
    ensures var turn := Flush(m, now);
            && turn.request.None? && turn.mb == m.(pending := [], totals := turn.mb.totals)
            && Finished(turn.mb.totals) - turn.mb.totals.latency.count == Finished(m.totals) - m.totals.latency.count
    decreases |m.pending|
  {
    if m.pending != [] {
      FlushTurn(m.(pending := m.pending[1..], totals := Count(m.totals, m.pending[0], CANCELLED, true, now)), now);
    }
  }

  lemma SweepKeeps(b: Box, now: nat, f: Flags)
    requires BoxInv(b, f) && f.cancelling && f.stopping && !b.swept
    ensures BoxInv(SweepStep(b, now), f)
  {
    SweepIs(b, now, f);
    var m := Sweep(b.mb, now).mb;
    if b.mb.status == Running {
      SweptRunning(b, m, f);
    } else {
      SweptAtRest(b, m, f);
    }
  }

  lemma SweptRunning(b: Box, m: Mailbox, f: Flags)
    requires BoxInv(b, f) && f.cancelling && f.stopping && !b.swept && b.mb.status == Running
    requires m == b.mb.(pending := [], active := Some(b.mb.active.value.(cancelAfterResume := true)), totals := m.totals)
    requires Finished(m.totals) == m.totals.latency.count
    ensures BoxInv(b.(mb := m, swept := true), f)
  {
  }

  lemma SweptAtRest(b: Box, m: Mailbox, f: Flags)
    requires BoxInv(b, f) && f.cancelling && f.stopping && !b.swept && b.mb.status != Running
    requires m == Mailbox(Stopping, false, b.mb.generation, [], None, m.totals)
    requires Finished(m.totals) == m.totals.latency.count
    ensures BoxInv(b.(mb := m, swept := true), f)
  {
  }

  /** A swept mailbox has a worker inside exactly if it had one before. */
  lemma SweepIs(b: Box, now: nat, f: Flags)
    requires BoxInv(b, f)
    ensures var m := Sweep(b.mb, now).mb;
            && SweepStep(b, now) == b.(mb := m, swept := true) && Finished(m.totals) == m.totals.latency.count
            && m == if b.mb.status == Running
                    then b.mb.(pending := [], active := Some(b.mb.active.value.(cancelAfterResume := true)), totals := m.totals)
                    else Mailbox(Stopping, false, b.mb.generation, [], None, m.totals)
  {
    FlushTurn(b.mb, now);
  }

  /** Raising the shutdown flags before the mailbox has been swept keeps the invariant. */
  lemma FlagsKeep(b: Box, f: Flags, f': Flags)
    requires BoxInv(b, f) && (f.stopping ==> f'.stopping) && (f.cancelling ==> f'.cancelling)
    requires f'.cancelling ==> f'.stopping
    ensures BoxInv(b, f')
  {
  }

  /** Every step that its guard allows keeps the invariant of its mailbox. */
  lemma StepKeeps(b: Box, s: Step, now: nat, f: Flags)
    requires BoxInv(b, f) && Enabled(b, s, f)
    requires s.Enqueue? ==> Newest(b, s.inv)
    requires s.Refuse? ==> !TicketCurrent(b.mb, s.gen)
    ensures BoxInv(Apply(b, s, now), f)
  {
    match s
    case Enqueue(inv) => EnqueueKeeps(b, inv, now, f);
    case CancelMessage(messageId, v) => CancelKeeps(b, messageId, v, now, f);
    case Take(gen) => TakeKeeps(b, gen, f);
    case Refuse(gen, v) => RefuseKeeps(b, gen, v, now, f);
    case Started(gen) => StartedKeeps(b, gen, f);
    case StartFailed(gen, result, v) => StartFailedKeeps(b, gen, result, v, now, f);
    case Begin(gen) => BeginKeeps(b, gen, f);
    case Resumed(_, _, _, _, _, _, _, _) => ResumedKeeps(b, s, now, f);
    case HandoffAttempt(attempt, v) => HandoffKeeps(b, attempt, v, now, f);
    case Complete(gen, epoch) => CompleteOpKeeps(b, gen, epoch, f);
    case Notify(gen, epoch, sawCancel) => NotifyKeeps(b, gen, epoch, sawCancel, f);
    case SweepMailbox => SweepKeeps(b, now, f);
  }
}
