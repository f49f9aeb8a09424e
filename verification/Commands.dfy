/** How the command coordinator dispatches a message to a command's actor and hands it on to the pipelines. */
module Commands {
  import opened Wrappers
  import opened CommandTable

  const RAW := "obcx::core::events::RawMessageEvent"
  const COMPLETED := "obcx::command::CommandCompleted"
  const PROCESSED := "obcx.command.processed"
  const NAME := "obcx.command.name"
  const ACTOR := "obcx.command.actor"
  const TRANSACTION := "obcx.command.transaction"
  const GENERATION := "obcx.command.generation"
  const REPLY := "obcx.command.reply"
  const OUTCOME := "obcx.command.outcome"

  datatype Message = Message(id: string, kind: string, platform: string, bot: string, headers: map<string, string>,
                             body: string)

  // ----- matching -----

  /** One pattern matches, and no other does. */
  ghost predicate OnlyMatch(patterns: seq<Pattern>, matches: (Pattern, string) -> bool, candidate: string, i: nat) {
    && i < |patterns| && matches(patterns[i], candidate)
    && forall j | 0 <= j < |patterns| && j != i :: !matches(patterns[j], candidate)
  }

  datatype Match = NoMatch | Ambiguous | Matched(command: string)

  /** The loop of `match_command_route` over the patterns. */
  method MatchPatterns(patterns: seq<Pattern>, matches: (Pattern, string) -> bool, candidate: string) returns (r: Match)
    ensures r.NoMatch? <==> forall i | 0 <= i < |patterns| :: !matches(patterns[i], candidate)
    ensures r.Ambiguous? <==>
              exists i, j | 0 <= i < j < |patterns| :: matches(patterns[i], candidate) && matches(patterns[j], candidate)
    ensures r.Matched? ==>
              exists i: nat :: OnlyMatch(patterns, matches, candidate, i) && r.command == patterns[i].command
  {
    var matched := None;
    ghost var at := 0;
    var i := 0;
    while i < |patterns|
      invariant i <= |patterns| && (matched.Some? ==> at < i && matched.value == patterns[at])
      invariant matched.Some? <==> exists k | 0 <= k < i :: matches(patterns[k], candidate)
      invariant forall k | 0 <= k < i && matches(patterns[k], candidate) :: k == at
    {
      if matches(patterns[i], candidate) {
        if matched.Some? {
          return Ambiguous;
        }
        matched := Some(patterns[i]);
        at := i;
      }
      i := i + 1;
    }
    assert matched.Some? ==> OnlyMatch(patterns, matches, candidate, at);
    r := if matched.Some? then Matched(matched.value.command) else NoMatch;
  }

  // ----- calls -----

  /** What the invocation with a timeout came back with. */
  datatype Call = Call(timedOut: bool, ok: bool, emitted: seq<Message>)

  /** A timed invocation: the result and the timer race, and only the first of them reaches the handler. */
  class TimedActorOperation {
    var completed: bool
    var delivered: seq<Call>

    predicate Valid()
      reads this
    {
      |delivered| == if completed then 1 else 0
    }

    constructor ()
      ensures Valid() && !completed && delivered == []
    {
      completed, delivered := false, [];
    }

    method Finish(call: Call)
      requires Valid()
      modifies this
      ensures Valid() && completed
      ensures delivered == if old(completed) then old(delivered) else [call]
    {
      if completed {
        return;
      }
      completed := true;
      delivered := delivered + [call];
    }
  }

  // ----- processing -----

  datatype Propagation = Continue | Consume

  /** A completion that belongs to this call carries a propagation; a foreign or malformed one does not. */
  datatype Verdict = Proper(propagation: Propagation) | Mismatched | Malformed

  /** What the payload of a completion says. */
  datatype Completion = Completion(transaction: string, propagation: Propagation)

  /** A message is dispatched to a command's actor under the name of a transaction of the coordinator's generation. */
  datatype Dispatch = Dispatch(message: Message, route: Entry, transaction: string, generation: string)

  predicate HeaderIs(message: Message, header: string, value: string) {
    header in message.headers && message.headers[header] == value
  }

  /** The completion answers this dispatch: it names the transaction, the actor, the generation and the coordinator. */
  predicate Answers(completion: Message, transaction: string, d: Dispatch) {
    && transaction == d.transaction
    && HeaderIs(completion, TRANSACTION, d.transaction) && HeaderIs(completion, ACTOR, d.route.actor)
    && HeaderIs(completion, GENERATION, d.generation) && HeaderIs(completion, REPLY, "coordinator")
  }

  function Judge(decode: Message -> Option<Completion>, d: Dispatch, completion: Message): (v: Verdict)
    ensures v.Malformed? <==> decode(completion) == None
    ensures v.Proper? <==> decode(completion).Some? && Answers(completion, decode(completion).value.transaction, d)
    ensures v.Proper? ==> v.propagation == decode(completion).value.propagation
  {
    match decode(completion)
    case None => Malformed
    case Some(c) => if Answers(completion, c.transaction, d) then Proper(c.propagation) else Mismatched
  }

  /** What the coordinator reads off a command call: its decision and, if it fell back, why. */
  datatype Decision = Decision(propagation: Propagation, failure: string)

  function Completions(emitted: seq<Message>): seq<Message> {
    if emitted == [] then []
    else
      var rest := Completions(emitted[..|emitted| - 1]);
      if emitted[|emitted| - 1].kind == COMPLETED then rest + [emitted[|emitted| - 1]] else rest
  }

  function Others(emitted: seq<Message>): seq<Message> {
    if emitted == [] then []
    else
      var rest := Others(emitted[..|emitted| - 1]);
      if emitted[|emitted| - 1].kind != COMPLETED then rest + [emitted[|emitted| - 1]] else rest
  }

  /** There is always a decision: the actor's own, given by exactly one proper completion, or the route's fallback. */
  function Decide(d: Dispatch, call: Call, decode: Message -> Option<Completion>): (r: Decision)
    ensures r.failure == "" <==> !call.timedOut && call.ok && |Completions(call.emitted)| == 1
                                 && Judge(decode, d, Completions(call.emitted)[0]).Proper?
    ensures r.failure == "" ==> r.propagation == Judge(decode, d, Completions(call.emitted)[0]).propagation
    ensures r.failure != "" ==> (r.propagation == Continue <==> d.route.continues)
    ensures r.failure == "command_timeout" <==> call.timedOut
    ensures r.failure == "command_actor_failure" <==> !call.timedOut && !call.ok
    ensures r.failure == "command_completion_missing" <==> !call.timedOut && call.ok && Completions(call.emitted) == []
    ensures r.failure == "command_completion_duplicate" <==> !call.timedOut && call.ok && |Completions(call.emitted)| > 1
  {
    var completions := Completions(call.emitted);
    var failure :=
      if call.timedOut then "command_timeout"
      else if !call.ok then "command_actor_failure"
      else if completions == [] then "command_completion_missing"
      else if |completions| != 1 then "command_completion_duplicate"
      else match Judge(decode, d, completions[0])
        case Proper(_) => ""
        case Mismatched => "command_completion_mismatch"
        case Malformed => "command_completion_malformed";
    if failure == "" then Decision(Judge(decode, d, completions[0]).propagation, "")
    else Decision(if d.route.continues then Continue else Consume, failure)
  }

  function MarkProcessed(d: Dispatch, failure: string): Message {
    d.message.(headers := d.message.headers[PROCESSED := "true"][NAME := d.route.key.command][ACTOR := d.route.actor]
      [TRANSACTION := d.transaction][GENERATION := d.generation]
      [OUTCOME := if failure == "" then "continue" else "fallback_continue"])
  }

  /** The message as it is handed on after its command: six headers tell about the dispatch, all the rest is the same. */
  ghost predicate Marked(d: Dispatch, failure: string, m: Message) {
    && HeaderIs(m, PROCESSED, "true")
    && HeaderIs(m, NAME, d.route.key.command) && HeaderIs(m, ACTOR, d.route.actor)
    && HeaderIs(m, TRANSACTION, d.transaction) && HeaderIs(m, GENERATION, d.generation)
    && HeaderIs(m, OUTCOME, if failure == "" then "continue" else "fallback_continue")
    && m.id == d.message.id && m.kind == d.message.kind && m.platform == d.message.platform && m.bot == d.message.bot
    && m.body == d.message.body
    && (forall h | h in d.message.headers :: h in m.headers)
    && forall h | h in m.headers && h !in {PROCESSED, NAME, ACTOR, TRANSACTION, GENERATION, OUTCOME} ::
         h in d.message.headers && m.headers[h] == d.message.headers[h]
  }

  lemma MarkMarks(d: Dispatch, failure: string)
    ensures Marked(d, failure, MarkProcessed(d, failure))
  {
    assert [PROCESSED[13], NAME[13], ACTOR[13], TRANSACTION[13], GENERATION[13], OUTCOME[13]] == "pnatgo";
  }

  /** `part` lists, in order, exactly the messages of the list that are completions, or exactly those that are not. */
  ghost predicate Picks(emitted: seq<Message>, part: seq<Message>, completions: bool) {
    exists at: seq<nat> :: PicksAt(emitted, part, completions, at)
  }

  ghost predicate PicksAt(emitted: seq<Message>, part: seq<Message>, completions: bool, at: seq<nat>) {
    && |at| == |part|
    && (forall k | 0 <= k < |at| :: at[k] < |emitted| && part[k] == emitted[at[k]])
    && (forall k, l | 0 <= k < l < |at| :: at[k] < at[l])
    && (forall i: nat {:trigger i in at} | i < |emitted| :: (emitted[i].kind == COMPLETED) == completions <==> i in at)
  }

  lemma PicksMore(emitted: seq<Message>, part: seq<Message>, completions: bool, at: seq<nat>)
    requires emitted != [] && PicksAt(emitted[..|emitted| - 1], part, completions, at)
    ensures var last := emitted[|emitted| - 1];
            if (last.kind == COMPLETED) == completions then
              PicksAt(emitted, part + [last], completions, at + [|emitted| - 1])
            else PicksAt(emitted, part, completions, at)
  {
    var n := |emitted| - 1;
    forall i: nat | i < n ensures i in at + [n] <==> i in at {
    }
    assert n !in at;
  }

  lemma {:induction false} CompletionsPick(emitted: seq<Message>) returns (at: seq<nat>)
    ensures PicksAt(emitted, Completions(emitted), true, at)
  {
    at := [];
    if emitted != [] {
      at := CompletionsPick(emitted[..|emitted| - 1]);
      PicksMore(emitted, Completions(emitted[..|emitted| - 1]), true, at);
      at := if emitted[|emitted| - 1].kind == COMPLETED then at + [|emitted| - 1] else at;
    }
  }

  lemma {:induction false} OthersPick(emitted: seq<Message>) returns (at: seq<nat>)
    ensures PicksAt(emitted, Others(emitted), false, at)
  {
    at := [];
    if emitted != [] {
      at := OthersPick(emitted[..|emitted| - 1]);
      PicksMore(emitted, Others(emitted[..|emitted| - 1]), false, at);
      at := if emitted[|emitted| - 1].kind != COMPLETED then at + [|emitted| - 1] else at;
    }
  }

  ghost predicate OnlyCompletion(emitted: seq<Message>, i: nat) {
    i < |emitted| && forall j | 0 <= j < |emitted| :: emitted[j].kind == COMPLETED <==> j == i
  }

  /** A command decides for itself exactly if it is in time, succeeds and emits one completion, and that is proper. */
  lemma CompletionDecides(d: Dispatch, call: Call, decode: Message -> Option<Completion>)
    ensures Decide(d, call, decode).failure == "" <==>
              && !call.timedOut && call.ok
              && exists i: nat :: OnlyCompletion(call.emitted, i) && Judge(decode, d, call.emitted[i]).Proper?
    ensures forall i: nat | OnlyCompletion(call.emitted, i) && Decide(d, call, decode).failure == "" ::
              Decide(d, call, decode).propagation == Judge(decode, d, call.emitted[i]).propagation
  {
    var at := CompletionsPick(call.emitted);
    forall i: nat | OnlyCompletion(call.emitted, i) ensures Completions(call.emitted) == [call.emitted[i]] {
      assert i in at;
      forall k | 0 <= k < |at| ensures at[k] == i {
        assert at[k] in at;
        assert call.emitted[at[k]].kind == COMPLETED;
      }
      assert at[|at| - 1] == at[0];
      assert Completions(call.emitted) == [call.emitted[at[0]]];
    }
    if |at| == 1 {
      assert at[0] in at;
      forall j: nat | j < |call.emitted| ensures call.emitted[j].kind == COMPLETED <==> j == at[0] {
        assert j in at <==> j == at[0];
      }
      assert OnlyCompletion(call.emitted, at[0]);
    }
  }

  class CommandCoordinator {
    const table: Table
    const normalize: string -> string
    const detect: Message -> Option<string>
    const matches: (Pattern, string) -> bool
    const decode: Message -> Option<Completion>
    const generation: string
    const render: nat -> string
    var stopped: bool
    var transactions: nat                     // the number of the next transaction
    var dispatched: seq<Dispatch>             // command requests made, with the message that caused them
    var handed: seq<Message>                  // what was given to the orchestrator, in order

    constructor (table: Table, normalize: string -> string, detect: Message -> Option<string>,
                 matches: (Pattern, string) -> bool, decode: Message -> Option<Completion>, generation: string,
                 render: nat -> string)
      ensures !stopped && transactions == 1 && dispatched == [] && handed == []
    {
      this.table, this.normalize, this.detect, this.matches, this.decode := table, normalize, detect, matches, decode;
      this.generation, this.render := generation, render;
      stopped, transactions, dispatched, handed := false, 1, [], [];
    }

    /** A raw message of a known bot that has not been processed and that looks like a command. */
    predicate Candidate(message: Message)
      reads this`stopped
    {
      && !stopped && message.kind == RAW && PROCESSED !in message.headers
      && BotKey(normalize(message.platform), message.bot) in table.bots && detect(message).Some?
    }

    /** The message leads to the entry: by the command's own name, or else by the only pattern that matches. */
    ghost predicate RoutedTo(message: Message, entry: Entry)
      reads this`stopped
    {
      && Candidate(message)
      && var bot, name := BotKey(normalize(message.platform), message.bot), detect(message).value;
      if RouteKey(bot, name) in table.routes then entry == table.routes[RouteKey(bot, name)]
      else
        exists i: nat :: OnlyMatch(table.bots[bot].patterns, matches, name, i)
          && var key := RouteKey(bot, table.bots[bot].patterns[i].command); key in table.routes && entry == table.routes[key]
    }

    method FindRoute(message: Message) returns (route: Option<Entry>)
      ensures route.Some? ==> RoutedTo(message, route.value) && forall e :: RoutedTo(message, e) ==> e == route.value
      ensures route.None? ==> forall e :: !RoutedTo(message, e)
    {
      if stopped || message.kind != RAW || PROCESSED in message.headers {
        return None;
      }
      var bot := BotKey(normalize(message.platform), message.bot);
      if bot !in table.bots {
        return None;
      }
      var detected := detect(message);
      if detected.None? {
        return None;
      }
      var exact := RouteKey(bot, detected.value);
      if exact in table.routes {
        return Some(table.routes[exact]);
      }
      var m := MatchPatterns(table.bots[bot].patterns, matches, detected.value);
      route := None;
      if m.Matched? {
        var key := RouteKey(bot, m.command);
        if key in table.routes {
          route := Some(table.routes[key]);
        }
      }
    }

    /** Gives whatever the command's actor emitted, completions excepted, to the orchestrator. */
    method HandOthers(emitted: seq<Message>)
      modifies this`handed
      ensures old(handed) <= handed && Picks(emitted, handed[|old(handed)|..], false)
    {
      var i := 0;
      while i < |emitted|
        invariant i <= |emitted| && handed == old(handed) + Others(emitted[..i])
      {
        assert emitted[..i + 1][..i] == emitted[..i];
        if emitted[i].kind != COMPLETED {
          handed := handed + [emitted[i]];
        }
        i := i + 1;
      }
      assert emitted[..i] == emitted;
      ghost var at := OthersPick(emitted);
    }

    /**
     `process`; `call` is how the command's actor answers if it is invoked. A message that leads to no command is handed
     on untouched. A dispatched one gets a transaction of its own. It is handed on exactly if the command lets it continue:
     after everything that the command emitted, marked and otherwise unchanged, so that it leads to no command any more.
     */
    method Process(message: Message, call: Call) returns (route: Option<Entry>, again: Option<Message>)
      modifies this`transactions, this`dispatched, this`handed
      ensures route.Some? ==> RoutedTo(message, route.value)
      ensures route.None? ==> && (forall e :: !RoutedTo(message, e)) && again == None && transactions == old(transactions)
                              && dispatched == old(dispatched) && handed == old(handed) + [message]
      ensures route.Some? ==>
                && transactions == old(transactions) + 1
                && var d := Dispatch(message, route.value, "g" + generation + ":" + render(old(transactions)), generation);
                && dispatched == old(dispatched) + [d]
                && (again.Some? <==> Decide(d, call, decode).propagation == Continue)
                && (again.Some? ==> Marked(d, Decide(d, call, decode).failure, again.value))
                && HandedOn(old(handed), handed, call.emitted, again)
      ensures again.Some? ==> PROCESSED in again.value.headers && forall e :: !RoutedTo(again.value, e)
    {
      again := None;
      route := FindRoute(message);
      if route.None? {
        handed := handed + [message];
        return;
      }
      var d := Dispatch(message, route.value, "g" + generation + ":" + render(transactions), generation);
      transactions := transactions + 1;
      dispatched := dispatched + [d];
      HandOthers(call.emitted);
      var decision := Decide(d, call, decode);
      ghost var others := handed[|old(handed)|..];
      if decision.propagation == Continue {
        MarkMarks(d, decision.failure);
        again := Some(MarkProcessed(d, decision.failure));
        handed := handed + [MarkProcessed(d, decision.failure)];
      }
      assert Picks(call.emitted, others, false)
             && handed == old(handed) + others + if again.Some? then [again.value] else [];
    }

    /** The orchestrator got what the command emitted, completions excepted, and then the message if it continues. */
    ghost static predicate HandedOn(before: seq<Message>, after: seq<Message>, emitted: seq<Message>, again: Option<Message>) {
      exists others :: Picks(emitted, others, false)
                       && after == before + others + if again.Some? then [again.value] else []
    }

    /**
     Whatever is processed, in whatever order and however the commands answer, even if the coordinator is stopped on
     the way: no message that carries the processed header is ever dispatched to a command.
     */
    method ProcessAll(messages: seq<Message>, calls: seq<Call>, stops: seq<bool>)
      requires |messages| == |calls| == |stops|
      modifies this
      ensures old(dispatched) <= dispatched
      ensures forall d | d in dispatched[|old(dispatched)|..] :: d.message in messages && PROCESSED !in d.message.headers
      ensures (forall m | m in messages :: PROCESSED in m.headers) ==>
                dispatched == old(dispatched) && handed == old(handed) + messages
    {
      var i := 0;
      while i < |messages|
        invariant i <= |messages| && old(dispatched) <= dispatched
        invariant forall d | d in dispatched[|old(dispatched)|..] :: d.message in messages && PROCESSED !in d.message.headers
        invariant (forall m | m in messages :: PROCESSED in m.headers) ==>
                    dispatched == old(dispatched) && handed == old(handed) + messages[..i]
      {
        assert messages[i] in messages && messages[..i + 1] == messages[..i] + [messages[i]];
        if stops[i] {
          stopped := true;
        }
        var route, again := Process(messages[i], calls[i]);
        i := i + 1;
      }
      assert messages[..i] == messages;
    }

    /**
     A message whose command let it continue may come back, in any place among any other messages: the copy that was
     handed on is not dispatched again.
     */
    method ProcessAgain(message: Message, call: Call, before: seq<Message>, after: seq<Message>, calls: seq<Call>,
                        stops: seq<bool>)
      returns (route: Option<Entry>, again: Option<Message>)
      requires |before| + 1 + |after| == |calls| == |stops|
      modifies this
      ensures route.Some? ==> old(RoutedTo(message, route.value))
      ensures route.None? ==> again == None
      ensures route.Some? ==>
                && |old(dispatched)| < |dispatched|
                && var d := dispatched[|old(dispatched)|];
                && d.message == message && d.route == route.value
                && (again.Some? <==> Decide(d, call, decode).propagation == Continue)
                && (again.Some? ==> Marked(d, Decide(d, call, decode).failure, again.value))
      ensures again.Some? ==> forall k | |old(dispatched)| < k < |dispatched| :: dispatched[k].message != again.value
    {
      route, again := Process(message, call);
      if again.Some? {
        ghost var done := dispatched;
        ProcessAll(before + [again.value] + after, calls, stops);
        assert forall k | |done| <= k < |dispatched| :: dispatched[k] == dispatched[|done|..][k - |done|];
      }
    }
  }
}
