/**
 The orchestrator's routing as it runs: the two phases over a pipeline's stages, the recursion into emitted messages
 and the posted terminal stages. What actors answer is left open: it is given by a function on the number of the run.
 */
module Routing {
  import opened Wrappers
  import opened Graphs
  import opened Pipelines

  /** An actor's answer; a failed actor may still have emitted messages. */
  datatype Answer = Answer(ok: bool, emitted: seq<Message>)

  /** Where a stage is configured: the position of its pipeline, and its own within that. */
  datatype Place = Place(pipeline: nat, stage: nat)

  /**
   The history of a routing. `route` is the one that a stage's input came by, with the stage added once it was
   entered; a pass over a pipeline ends with the stages at the positions `order` completed.
   */
  datatype Event =
    | Handled(message: Message, route: Route)
    | Entered(at: Place, node: RouteNode, input: Message, route: Route, terminal: bool)
    | Ran(at: Place, node: RouteNode, input: Message, route: Route, terminal: bool, answer: Answer)
    | Refused(at: Place, node: RouteNode, route: Route, code: string)
    | Unregistered(at: Place, node: RouteNode, input: Message, route: Route)
    | PassEnded(pipeline: nat, message: Message, route: Route, order: seq<nat>, available: seq<Routed>)

  /** A terminal stage that was posted and has not run. */
  datatype Work = Work(at: Place, node: RouteNode, message: Message, route: Route)

  const CYCLE := "message_routing_cycle"
  const HOP_LIMIT := "message_routing_hop_limit"

  predicate NodeOk(config: Config, node: RouteNode) {
    node in ConfiguredNodes(config.pipelines)
  }

  predicate Exists(config: Config, at: Place) {
    at.pipeline < |config.pipelines| && at.stage < |config.pipelines[at.pipeline].stages|
  }

  /** The node is that of the stage at the place. */
  predicate NodeAt(config: Config, at: Place, node: RouteNode) {
    && Exists(config, at)
    && var pipeline := config.pipelines[at.pipeline];
    && node == RouteNode(pipeline.name, pipeline.stages[at.stage].name, pipeline.stages[at.stage].input)
  }

  /**
   A stage is posted exactly if its mode is "async" and no stage of its pipeline waits for it or consumes what it
   declares to emit; every other stage is awaited.
   */
  predicate PostedExactlyIf(config: Config, at: Place, terminal: bool)
    requires Exists(config, at)
  {
    var pipeline := config.pipelines[at.pipeline];
    var stage := pipeline.stages[at.stage];
    terminal <==> && stage.mode == "async"
                  && forall c | 0 <= c < |pipeline.stages| ::
                       stage.name !in pipeline.stages[c].after && pipeline.stages[c].input !in stage.outputs
  }

  lemma TerminalIsPosted(config: Config, at: Place)
    requires Exists(config, at)
    ensures var pipeline := config.pipelines[at.pipeline];
            PostedExactlyIf(config, at, TerminalAsync(pipeline, pipeline.stages[at.stage]))
  {
  }

  /** The stage at the place was entered in the right phase, by a route that ends in it. */
  predicate StageOk(config: Config, at: Place, node: RouteNode, route: Route, terminal: bool) {
    NodeAt(config, at, node) && EnteredOk(config, node, route) && PostedExactlyIf(config, at, terminal)
  }

  /** The route of a stage that was entered ends in the stage and is within the hop limit. */
  predicate EnteredOk(config: Config, node: RouteNode, route: Route) {
    RouteOk(config, route) && 0 < route.hops <= config.hopLimit && route.nodes[route.hops - 1] == node
  }

  /** Whether every stage of the pipeline has a registered actor. */
  predicate Registered(config: Config, pipeline: Pipeline) {
    forall s | 0 <= s < |pipeline.stages| :: pipeline.stages[s].actor in config.actors
  }

  /**
   A pass completes stages in dependency order; with all actors registered, a validated pipeline leaves only stages
   that have, or wait for a stage that has, no input.
   */
  ghost predicate PassOk(config: Config, p: nat, message: Message, route: Route, order: seq<nat>, available: seq<Routed>) {
    && p < |config.pipelines|
    && available != [] && available[0] == Routed(message, route)
    && var pipeline := config.pipelines[p];
    && (forall k | 0 <= k < |order| :: order[k] < |pipeline.stages|)
    && var completed := Names(PickedNodes(pipeline, order));
    && CompletedInOrder(pipeline, order, completed)
    && (Validated(pipeline) && Registered(config, pipeline) ==>
          forall s | 0 <= s < |pipeline.stages| && pipeline.stages[s].name !in completed ::
            HasStarvedAncestor(pipeline, pipeline.stages[s].name, available, completed))
  }

  ghost predicate EventOk(config: Config, e: Event) {
    match e
    case Handled(_, route) => RouteOk(config, route)
    case Entered(at, node, input, route, terminal) =>
      StageOk(config, at, node, route, terminal) && input.kind == node.kind
    case Ran(at, node, input, route, terminal, _) => StageOk(config, at, node, route, terminal) && input.kind == node.kind
    case PassEnded(p, message, route, order, available) => PassOk(config, p, message, route, order, available)
    case Unregistered(at, node, input, route) =>
      && NodeAt(config, at, node) && EnteredOk(config, node, route) && input.kind == node.kind
      && config.pipelines[at.pipeline].stages[at.stage].actor !in config.actors
    case Refused(at, node, route, code) =>
      && NodeAt(config, at, node) && NodeOk(config, node) && RouteOk(config, route)
      && code == (if node in route.nodes then CYCLE else HOP_LIMIT)
      && (node !in route.nodes ==> route.hops >= config.hopLimit)
  }

  // ----- what becomes of terminal stages -----

  predicate EntersTerminal(e: Event) {
    e.Entered? && e.terminal
  }

  /** How many terminal stages were entered among the first events. */
  function Entries(log: seq<Event>, n: nat): nat
    requires n <= |log|
  {
    if n == 0 then 0 else Entries(log, n - 1) + if EntersTerminal(log[n - 1]) then 1 else 0
  }

  function WorkOf(e: Event): Work
    requires e.Entered? || e.Ran?
  {
    Work(e.at, e.node, e.input, e.route)
  }

  /** The work of the terminal stages entered while terminal work was accepted. */
  function Accepted(posting: nat -> bool, log: seq<Event>, n: nat): multiset<Work>
    requires n <= |log|
  {
    if n == 0 then multiset{}
    else if EntersTerminal(log[n - 1]) && posting(Entries(log, n - 1)) then
      Accepted(posting, log, n - 1) + multiset{WorkOf(log[n - 1])}
    else Accepted(posting, log, n - 1)
  }

  /** The work that terminal stages have run. */
  function Executed(log: seq<Event>, n: nat): multiset<Work>
    requires n <= |log|
  {
    if n == 0 then multiset{}
    else if log[n - 1].Ran? && log[n - 1].terminal then Executed(log, n - 1) + multiset{WorkOf(log[n - 1])}
    else Executed(log, n - 1)
  }

  /** Every accepted terminal stage is posted or has run, once. */
  ghost predicate Balanced(posting: nat -> bool, log: seq<Event>, postings: nat, posted: seq<Work>) {
    && postings == Entries(log, |log|)
    && Accepted(posting, log, |log|) == multiset(posted) + Executed(log, |log|)
  }

  lemma {:induction false} SamePrefix(posting: nat -> bool, log: seq<Event>, e: Event, n: nat)
    requires n <= |log|
    ensures Entries(log + [e], n) == Entries(log, n)
    ensures Accepted(posting, log + [e], n) == Accepted(posting, log, n) && Executed(log + [e], n) == Executed(log, n)
  {
    if n > 0 {
      SamePrefix(posting, log, e, n - 1);
    }
  }

  lemma BalancedAfter(posting: nat -> bool, log: seq<Event>, postings: nat, posted: seq<Work>, e: Event)
    requires Balanced(posting, log, postings, posted)
    ensures !EntersTerminal(e) && !(e.Ran? && e.terminal) ==> Balanced(posting, log + [e], postings, posted)
    ensures EntersTerminal(e) ==>
              Balanced(posting, log + [e], postings + 1, if posting(postings) then posted + [WorkOf(e)] else posted)
  {
    SamePrefix(posting, log, e, |log|);
  }

  lemma BalancedTaking(posting: nat -> bool, log: seq<Event>, postings: nat, posted: seq<Work>, i: nat, e: Event)
    requires Balanced(posting, log, postings, posted) && i < |posted|
    requires e.Ran? && e.terminal && posted[i] == WorkOf(e)
    ensures Balanced(posting, log + [e], postings, posted[..i] + posted[i + 1..])
  {
    SamePrefix(posting, log, e, |log|);
    assert posted == posted[..i] + [posted[i]] + posted[i + 1..];
  }

  // ----- what has to follow an event -----

  /** A pass of the message over the pipeline has ended. */
  ghost predicate PassOver(events: seq<Event>, p: nat, message: Message, route: Route) {
    exists i | 0 <= i < |events| ::
      && events[i].PassEnded? && events[i].pipeline == p
      && events[i].message == message && events[i].route == route
  }

  /** Every one of the messages has been routed on. */
  ghost predicate AllHandled(messages: seq<Message>, route: Route, events: seq<Event>) {
    forall m | m in messages :: Handled(m, route) in events
  }

  /**
   What an event entails comes after it in the log: a message passes over every pipeline that has its type as source,
   an awaited stage that was entered runs, everything that a stage emits is routed on, and so is the failure of a stage.
   */
  ghost predicate Followed(config: Config, log: seq<Event>, i: nat)
    requires i < |log|
  {
    match log[i]
    case Handled(message, route) =>
      forall p: nat | p < |config.pipelines| && config.pipelines[p].source == message.kind ::
        PassOver(log[i..], p, message, route)
    case Entered(at, node, input, route, false) =>
      && i + 1 < |log| && log[i + 1].Ran? && !log[i + 1].terminal
      && log[i + 1].at == at && log[i + 1].node == node && log[i + 1].input == input && log[i + 1].route == route
    case Ran(_, node, input, route, _, answer) =>
      && AllHandled(answer.emitted, route, log[i..])
      && (!answer.ok ==> Handled(FailureEnvelope(input, node), route) in log[i..])
    case Unregistered(_, node, input, route) => Handled(FailureEnvelope(input, node), route) in log[i..]
    case _ => true
  }

  /** From a position on, everything that the events entail has happened. */
  ghost predicate Complete(config: Config, log: seq<Event>, from: nat) {
    forall i: nat | from <= i < |log| :: Followed(config, log, i)
  }

  lemma PassStays(events: seq<Event>, more: seq<Event>, p: nat, message: Message, route: Route)
    requires events <= more && PassOver(events, p, message, route)
    ensures PassOver(more, p, message, route)
  {
    var i :| 0 <= i < |events| && events[i].PassEnded? && events[i].pipeline == p
             && events[i].message == message && events[i].route == route;
    assert more[i] == events[i];
  }

  lemma FollowedStays(config: Config, log: seq<Event>, log': seq<Event>, i: nat)
    requires log <= log' && i < |log| && Followed(config, log, i)
    ensures Followed(config, log', i)
  {
    assert log[i..] <= log'[i..];
    assert forall e | e in log[i..] :: e in log'[i..];
    if log[i].Handled? {
      forall p: nat | p < |config.pipelines| && config.pipelines[p].source == log[i].message.kind
        ensures PassOver(log'[i..], p, log[i].message, log[i].route)
      {
        PassStays(log[i..], log'[i..], p, log[i].message, log[i].route);
      }
    }
  }

  lemma CompleteOn(config: Config, log: seq<Event>, log': seq<Event>, from: nat)
    requires log <= log' && from <= |log| && Complete(config, log, from) && Complete(config, log', |log|)
    ensures Complete(config, log', from)
  {
    forall i: nat | from <= i < |log'| ensures Followed(config, log', i) {
      if i < |log| {
        FollowedStays(config, log, log', i);
      }
    }
  }

  /** One event in front of what is complete. */
  lemma CompleteFrom(config: Config, log: seq<Event>, from: nat)
    requires from < |log| && Followed(config, log, from) && Complete(config, log, from + 1)
    ensures Complete(config, log, from)
  {
  }

  /** The part of the cost of posted work that is still to come. */
  function PostedCost(stages: nat, emissions: nat, limit: nat, posted: seq<Work>): nat {
    if posted == [] then 0
    else
      var last := posted[|posted| - 1];
      PostedCost(stages, emissions, limit, posted[..|posted| - 1])
      + 1 + (emissions + 1) * MessageCost(stages, emissions, limit, last.route.hops)
  }

  function FailureEnvelope(input: Message, node: RouteNode): (m: Message)
    ensures m.kind == "ActorFailed"
  {
    Message("ActorFailed", "failure:" + node.pipeline + ":" + node.stage + ":" + input.content)
  }

  /** `enter_route_node`. */
  method EnterRouteNode(config: Config, route: Route, node: RouteNode) returns (code: Option<string>, entered: Route)
    requires RouteOk(config, route) && NodeOk(config, node)
    ensures code.None? <==> node !in route.nodes && route.hops < config.hopLimit
    ensures code.None? ==> EnteredOk(config, node, entered) && entered == Route(route.hops + 1, route.nodes + [node])
    ensures code.Some? ==> entered == route && code.value == if node in route.nodes then CYCLE else HOP_LIMIT
  {
    var cursor := |route.nodes|;
    while cursor > 0
      invariant 0 <= cursor <= |route.nodes|
      invariant node !in route.nodes[cursor..]
    {
      cursor := cursor - 1;
      if route.nodes[cursor] == node {
        return Some(CYCLE), route;
      }
      assert route.nodes[cursor..] == [route.nodes[cursor]] + route.nodes[cursor + 1..];
    }
    assert route.nodes[cursor..] == route.nodes;
    if route.hops >= config.hopLimit {
      return Some(HOP_LIMIT), route;
    }
    return None, Route(route.hops + 1, route.nodes + [node]);
  }

  function RoutedAll(messages: seq<Message>, route: Route): (r: seq<Routed>)
    ensures |r| == |messages| && forall i | 0 <= i < |r| :: r[i] == Routed(messages[i], route)
  {
    seq(|messages|, i requires 0 <= i < |messages| => Routed(messages[i], route))
  }

  /** What the orchestrator first notes at a stage that is its turn. */
  function StageEvent(config: Config, at: Place, input: Routed, terminal: bool): Event
    requires Exists(config, at)
  {
    var pipeline, stage := config.pipelines[at.pipeline], config.pipelines[at.pipeline].stages[at.stage];
    var node := RouteNode(pipeline.name, stage.name, input.message.kind);
    var entered := Route(input.route.hops + 1, input.route.nodes + [node]);
    if node in input.route.nodes then Refused(at, node, input.route, CYCLE)
    else if input.route.hops >= config.hopLimit then Refused(at, node, input.route, HOP_LIMIT)
    else if stage.actor !in config.actors then Unregistered(at, node, input.message, entered)
    else Entered(at, node, input.message, entered, terminal)
  }

  /** The failure of a stage, if it failed, and then what it emitted. */
  function Brought(answer: Answer, node: RouteNode, input: Message): seq<Message> {
    if answer.ok then answer.emitted else [FailureEnvelope(input, node)] + answer.emitted
  }

  /** The first of the available messages that has the type. */
  predicate FirstOfKind(available: seq<Routed>, kind: string, i: nat) {
    i < |available| && available[i].message.kind == kind && forall j | 0 <= j < i :: available[j].message.kind != kind
  }

  /**
   A stage has its turn in a phase: it is not completed, belongs to the phase, waits for nobody, and the first available
   message of its input type is there.
   */
  ghost predicate HasTurn(config: Config, at: Place, terminal: bool, available: seq<Routed>, completed: set<string>, i: nat)
    requires Exists(config, at)
  {
    var stage := config.pipelines[at.pipeline].stages[at.stage];
    && stage.name !in completed && PostedExactlyIf(config, at, terminal)
    && (forall d | d in stage.after :: d in completed)
    && FirstOfKind(available, stage.input, i)
  }

  /** What a part of a phase does to the state of its pass. */
  ghost predicate Advanced(config: Config, p: nat, terminal: bool,
                           available: seq<Routed>, completed: set<string>, order: seq<nat>,
                           available': seq<Routed>, completed': set<string>, order': seq<nat>)
    requires p < |config.pipelines|
  {
    && available <= available' && completed <= completed' && order <= order'
    && CompletedInOrder(config.pipelines[p], order', completed')
    && (forall n | n in completed' && n !in completed :: NamesStage(config.pipelines[p], n, terminal))
    && (terminal && Registered(config, config.pipelines[p]) ==> available' == available)
  }

  class Orchestrator {
    const config: Config
    const answers: nat -> Answer       // what the n-th stage run answers
    const posting: nat -> bool         // whether terminal work is still accepted when the n-th is to be posted
    const emissions: nat               // the most messages that a stage emits
    var runs: nat                      // actors invoked so far, each logged as `Ran`
    var postings: nat
    var posted: seq<Work>
    ghost var log: seq<Event>

    ghost predicate Valid()
      reads this
    {
      && (forall n :: |answers(n).emitted| <= emissions)
      && (forall i {:trigger EventOk(config, log[i])} | 0 <= i < |log| :: EventOk(config, log[i]))
      && (forall i {:trigger WorkOk(posted[i])} | 0 <= i < |posted| :: WorkOk(posted[i]))
      && Balanced(posting, log, postings, posted)
    }

    predicate WorkOk(work: Work) {
      StageOk(config, work.at, work.node, work.route, true) && work.message.kind == work.node.kind
    }

    function StagesInAll(): nat {
      StageCount(config.pipelines)
    }

    /** The runs so far, and what posted work may still cost. */
    function Spent(): nat
      reads this
    {
      runs + PostedCost(StagesInAll(), emissions, config.hopLimit, posted)
    }

    function CostAt(hops: nat): nat {
      MessageCost(StagesInAll(), emissions, config.hopLimit, hops)
    }

    function StageCostAt(hops: nat): nat {
      StageCost(StagesInAll(), emissions, config.hopLimit, hops)
    }

    constructor (config: Config, answers: nat -> Answer, posting: nat -> bool, emissions: nat)
      requires forall n :: |answers(n).emitted| <= emissions
      ensures Valid() && runs == 0 && posted == [] && log == []
      ensures this.config == config && this.answers == answers && this.posting == posting && this.emissions == emissions
    {
      this.config, this.answers, this.posting, this.emissions := config, answers, posting, emissions;
      runs, postings, posted, log := 0, 0, [], [];
    }

    ghost method Log(e: Event)
      requires Valid() && EventOk(config, e) && !e.Ran? && !EntersTerminal(e)
      modifies this`log
      ensures Valid() && log == old(log) + [e]
    {
      BalancedAfter(posting, log, postings, posted, e);
      log := log + [e];
    }

    /** Invokes the actor of an awaited stage that was entered. */
    method Invoke(at: Place, node: RouteNode, input: Message, route: Route) returns (answer: Answer)
      requires Valid() && StageOk(config, at, node, route, false) && input.kind == node.kind
      modifies this`log, this`runs
      ensures Valid() && runs == old(runs) + 1 && answer == answers(old(runs)) && |answer.emitted| <= emissions
      ensures log == old(log) + [Ran(at, node, input, route, false, answer)]
    {
      answer := answers(runs);
      runs := runs + 1;
      BalancedAfter(posting, log, postings, posted, Ran(at, node, input, route, false, answer));
      log := log + [Ran(at, node, input, route, false, answer)];
    }

    /** An emitted message becomes available to the pipeline's other stages and is routed on its own. */
    method Deliver(message: Message, route: Route, available: seq<Routed>) returns (available': seq<Routed>)
      requires Valid() && RouteOk(config, route)
      modifies this
      ensures Valid() && old(log) <= log && old(posted) <= posted && old(runs) <= runs
      ensures available' == available + [Routed(message, route)]
      ensures |log| > |old(log)| && log[|old(log)|] == Handled(message, route) && Complete(config, log, |old(log)|)
      ensures Spent() <= old(Spent()) + CostAt(route.hops)
      decreases config.hopLimit - route.hops, 3
    {
      available' := available + [Routed(message, route)];
      ProcessMessage(message, route);
    }

    method DeliverAll(emitted: seq<Message>, route: Route, available: seq<Routed>) returns (available': seq<Routed>)
      requires Valid() && RouteOk(config, route)
      modifies this
      ensures Valid() && old(log) <= log && old(posted) <= posted && old(runs) <= runs && available <= available'
      ensures available' == available + RoutedAll(emitted, route)
      ensures AllHandled(emitted, route, log[|old(log)|..]) && Complete(config, log, |old(log)|)
      ensures Spent() <= old(Spent()) + |emitted| * CostAt(route.hops)
      decreases config.hopLimit - route.hops, 4
    {
      available' := available;
      var i := 0;
      while i < |emitted|
        invariant i <= |emitted| && Valid() && old(log) <= log && old(posted) <= posted && old(runs) <= runs && available <= available'
        invariant available' == available + RoutedAll(emitted[..i], route)
        invariant AllHandled(emitted[..i], route, log[|old(log)|..]) && Complete(config, log, |old(log)|)
        invariant Spent() <= old(Spent()) + i * CostAt(route.hops)
      {
        ghost var before := log;
        available' := Deliver(emitted[i], route, available');
        LogGrows(old(log), before, log, emitted[..i], route);
        CompleteOn(config, before, log, |old(log)|);
        assert emitted[..i + 1] == emitted[..i] + [emitted[i]];
        MulSucc(i, CostAt(route.hops));
        i := i + 1;
      }
      assert emitted[..i] == emitted;
    }

    static lemma LogGrows(start: seq<Event>, before: seq<Event>, after: seq<Event>, emitted: seq<Message>, route: Route)
      requires start <= before <= after && AllHandled(emitted, route, before[|start|..])
      ensures AllHandled(emitted, route, after[|start|..])
      ensures |after| > |before| ==> after[|before|] in after[|start|..]
    {
      assert after[|start|..] == before[|start|..] + after[|before|..];
      if |after| > |before| {
        assert after[|before|] == after[|start|..][|before| - |start|];
      }
    }

    static lemma BothHandled(start: seq<Event>, before: seq<Event>, after: seq<Event>,
                             first: seq<Message>, rest: seq<Message>, route: Route)
      requires start <= before <= after
      requires AllHandled(first, route, before[|start|..]) && AllHandled(rest, route, after[|before|..])
      ensures AllHandled(first + rest, route, after[|start|..])
    {
      assert after[|start|..] == before[|start|..] + after[|before|..];
    }

    /** The failure of a stage becomes available and is routed on like an emitted message. */
    method DeliverFailure(answer: Answer, node: RouteNode, message: Message, route: Route, available: seq<Routed>)
      returns (available': seq<Routed>, ghost sent: seq<Message>)
      requires Valid() && RouteOk(config, route)
      modifies this
      ensures Valid() && old(log) <= log && old(posted) <= posted && old(runs) <= runs
      ensures sent == if answer.ok then [] else [FailureEnvelope(message, node)]
      ensures available' == available + RoutedAll(sent, route)
      ensures AllHandled(sent, route, log[|old(log)|..]) && Complete(config, log, |old(log)|)
      ensures Spent() <= old(Spent()) + CostAt(route.hops)
      decreases config.hopLimit - route.hops, 4
    {
      if answer.ok {
        return available, [];
      }
      sent := [FailureEnvelope(message, node)];
      available' := Deliver(FailureEnvelope(message, node), route, available);
      assert log[|old(log)|..][0] == Handled(sent[0], route);
    }

    /** What follows when the actor of a stage that was entered has answered. */
    method HandleAnswer(answer: Answer, node: RouteNode, message: Message, route: Route, available: seq<Routed>)
      returns (available': seq<Routed>)
      requires Valid() && RouteOk(config, route) && |answer.emitted| <= emissions
      modifies this
      ensures Valid() && old(log) <= log && old(posted) <= posted && old(runs) <= runs
      ensures available' == available + RoutedAll(Brought(answer, node, message), route)
      ensures AllHandled(Brought(answer, node, message), route, log[|old(log)|..]) && Complete(config, log, |old(log)|)
      ensures Spent() <= old(Spent()) + (emissions + 1) * CostAt(route.hops)
      decreases config.hopLimit - route.hops, 5
    {
      ghost var sent;
      available', sent := DeliverFailure(answer, node, message, route, available);
      ghost var before := log;
      available' := DeliverAll(answer.emitted, route, available');
      assert sent + answer.emitted == Brought(answer, node, message);
      BothHandled(old(log), before, log, sent, answer.emitted, route);
      CompleteOn(config, before, log, |old(log)|);
      RoutedBoth(available, sent, answer.emitted, route);
      AnswerCost(|answer.emitted|, emissions, CostAt(route.hops));
    }

    static lemma RoutedBoth(available: seq<Routed>, first: seq<Message>, rest: seq<Message>, route: Route)
      ensures available + RoutedAll(first, route) + RoutedAll(rest, route) == available + RoutedAll(first + rest, route)
    {
      assert RoutedAll(first + rest, route) == RoutedAll(first, route) + RoutedAll(rest, route);
    }

    static lemma AnswerCost(emitted: nat, emissions: nat, c: nat)
      requires emitted <= emissions
      ensures c + emitted * c <= (emissions + 1) * c
    {
      MulSucc(emitted, c);
      MulBound(emitted + 1, emissions + 1, c);
    }

    /** Whether it is the stage's turn, and then the position of its input. */
    method FindInput(p: nat, s: nat, terminal: bool, available: seq<Routed>, completed: set<string>)
      returns (input: Option<Routed>, ghost i: nat)
      requires p < |config.pipelines| && s < |config.pipelines[p].stages|
      ensures input.Some? <==> Runnable(config.pipelines[p], s, terminal, available, completed)
      ensures input.Some? ==> HasTurn(config, Place(p, s), terminal, available, completed, i) && available[i] == input.value
      ensures input.None? ==> forall k: nat :: !HasTurn(config, Place(p, s), terminal, available, completed, k)
    {
      var pipeline := config.pipelines[p];
      var stage := pipeline.stages[s];
      i := 0;
      TerminalIsPosted(config, Place(p, s));
      if stage.name in completed || TerminalAsync(pipeline, stage) != terminal || !DependenciesMet(stage, completed) {
        return None, 0;
      }
      input := FindMessage(available, stage.input);
      if input.Some? {
        i :| FirstOfKind(available, stage.input, i) && available[i] == input.value;
      }
    }

    /** One stage in one phase of a pass: skipped, refused, or entered and run. */
    method TryStage(p: nat, s: nat, terminal: bool, available: seq<Routed>, completed: set<string>, ghost hops: nat)
      returns (progress: bool, available': seq<Routed>, ghost i: nat)
      requires Valid() && p < |config.pipelines| && s < |config.pipelines[p].stages| && AvailableOk(available, hops)
      modifies this
      ensures Valid() && old(log) <= log && old(posted) <= posted && old(runs) <= runs && available <= available' && AvailableOk(available', hops)
      ensures Complete(config, log, |old(log)|)
      ensures progress <==> Runnable(config.pipelines[p], s, terminal, available, completed)
      ensures if progress then
                && HasTurn(config, Place(p, s), terminal, available, completed, i)
                && |log| > |old(log)| && log[|old(log)|] == StageEvent(config, Place(p, s), available[i], terminal)
              else
                && (forall k: nat :: !HasTurn(config, Place(p, s), terminal, available, completed, k))
                && log == old(log) && posted == old(posted)
      ensures !progress || (terminal && Registered(config, config.pipelines[p])) ==> available' == available
      ensures Spent() <= old(Spent()) + if progress then StageCostAt(hops) else 0
      decreases config.hopLimit - hops, 0, 1
    {
      progress, available' := false, available;
      var input;
      input, i := FindInput(p, s, terminal, available, completed);
      if input.None? {
        return;
      }
      progress := true;
      available' := RunStage(p, s, terminal, input.value, available, hops);
    }

    /** A stage whose turn it is: it is refused, or fails for want of its actor, or is posted, or runs. */
    method RunStage(p: nat, s: nat, terminal: bool, input: Routed, available: seq<Routed>, ghost hops: nat)
      returns (available': seq<Routed>)
      requires Valid() && p < |config.pipelines| && s < |config.pipelines[p].stages| && AvailableOk(available, hops)
      requires input in available && input.message.kind == config.pipelines[p].stages[s].input
      requires PostedExactlyIf(config, Place(p, s), terminal)
      modifies this
      ensures Valid() && old(log) <= log && old(posted) <= posted && old(runs) <= runs
      ensures available <= available' && AvailableOk(available', hops) && Complete(config, log, |old(log)|)
      ensures |log| > |old(log)| && log[|old(log)|] == StageEvent(config, Place(p, s), input, terminal)
      ensures var e := log[|old(log)|];
              match e
              case Entered(at, node, _, route, _) =>
                if terminal then
                  && log == old(log) + [e] && available' == available && runs == old(runs)
                  && posted == if posting(old(postings)) then old(posted) + [Work(at, node, input.message, route)]
                               else old(posted)
                else
                  && |log| > |old(log)| + 1
                  && log[|old(log)| + 1] == Ran(at, node, input.message, route, false, answers(old(runs)))
                  && available' == available + RoutedAll(Brought(answers(old(runs)), node, input.message), route)
              case Unregistered(_, node, _, route) =>
                available' == available + RoutedAll([FailureEnvelope(input.message, node)], route)
              case _ => log == old(log) + [e] && available' == available
      ensures Spent() <= old(Spent()) + StageCostAt(hops)
      decreases config.hopLimit - hops, 0, 0
    {
      var pipeline := config.pipelines[p];
      var stage := pipeline.stages[s];
      available' := available;
      var node := RouteNode(pipeline.name, stage.name, input.message.kind);
      NodeConfigured(config.pipelines, p, s);
      var code, route := EnterRouteNode(config, input.route, node);
      if code.Some? {
        Log(Refused(Place(p, s), node, route, code.value));
        return;
      }
      EnteredCost(hops, route.hops);
      available' := RunEntered(p, s, terminal, node, input.message, route, available, hops);
    }

    /** A stage that was entered fails for want of its actor, or is posted, or runs. */
    method RunEntered(p: nat, s: nat, terminal: bool, node: RouteNode, message: Message, route: Route,
                      available: seq<Routed>, ghost hops: nat)
      returns (available': seq<Routed>)
      requires Valid() && p < |config.pipelines| && s < |config.pipelines[p].stages| && AvailableOk(available, hops)
      requires StageOk(config, Place(p, s), node, route, terminal) && message.kind == node.kind && hops <= route.hops
      modifies this
      ensures Valid() && old(posted) <= posted && old(runs) <= runs
      ensures available <= available' && AvailableOk(available', hops) && Complete(config, log, |old(log)|)
      ensures if config.pipelines[p].stages[s].actor !in config.actors then
                && old(log) + [Unregistered(Place(p, s), node, message, route)] <= log
                && available' == available + RoutedAll([FailureEnvelope(message, node)], route)
              else if terminal then
                && log == old(log) + [Entered(Place(p, s), node, message, route, true)]
                && available' == available && runs == old(runs)
                && posted == if posting(old(postings)) then old(posted) + [Work(Place(p, s), node, message, route)]
                             else old(posted)
              else
                && old(log) + [Entered(Place(p, s), node, message, route, false),
                               Ran(Place(p, s), node, message, route, false, answers(old(runs)))] <= log
                && available' == available + RoutedAll(Brought(answers(old(runs)), node, message), route)
      ensures Spent() <= old(Spent()) + 1 + (emissions + 1) * CostAt(route.hops)
      decreases config.hopLimit - route.hops, 7
    {
      if config.pipelines[p].stages[s].actor !in config.actors {
        available' := FailUnregistered(Place(p, s), node, message, route, available);
        StayAvailable(available, [FailureEnvelope(message, node)], route, hops);
      } else if terminal {
        EnterTerminal(Work(Place(p, s), node, message, route));
        available' := available;
      } else {
        ghost var answer := answers(runs);
        available' := RunAwaited(Place(p, s), node, message, route, available);
        StayAvailable(available, Brought(answer, node, message), route, hops);
      }
    }

    /** Posts a terminal stage unless terminal work is no longer accepted. */
    method EnterTerminal(work: Work)
      requires Valid() && WorkOk(work)
      modifies this`log, this`posted, this`postings
      ensures Valid() && log == old(log) + [Entered(work.at, work.node, work.message, work.route, true)]
      ensures Complete(config, log, |old(log)|)
      ensures posted == if posting(old(postings)) then old(posted) + [work] else old(posted)
      ensures Spent() <= old(Spent()) + 1 + (emissions + 1) * CostAt(work.route.hops)
    {
      BalancedAfter(posting, log, postings, posted, Entered(work.at, work.node, work.message, work.route, true));
      log := log + [Entered(work.at, work.node, work.message, work.route, true)];
      var accepted := posting(postings);
      postings := postings + 1;
      if accepted {
        posted := posted + [work];
        assert posted[..|posted| - 1] == old(posted);
      }
    }

    lemma StayAvailable(available: seq<Routed>, messages: seq<Message>, route: Route, hops: nat)
      requires AvailableOk(available, hops) && RouteOk(config, route) && hops <= route.hops
      ensures AvailableOk(available + RoutedAll(messages, route), hops)
    {
    }

    /** The failure of a stage without actor becomes available like an emitted message. */
    method FailUnregistered(at: Place, node: RouteNode, message: Message, route: Route, available: seq<Routed>)
      returns (available': seq<Routed>)
      requires Valid() && EventOk(config, Unregistered(at, node, message, route))
      modifies this
      ensures Valid() && old(posted) <= posted && old(runs) <= runs
      ensures old(log) + [Unregistered(at, node, message, route)] <= log && Complete(config, log, |old(log)|)
      ensures available' == available + RoutedAll([FailureEnvelope(message, node)], route)
      ensures Spent() <= old(Spent()) + (emissions + 1) * CostAt(route.hops)
      decreases config.hopLimit - route.hops, 6
    {
      Log(Unregistered(at, node, message, route));
      available' := Deliver(FailureEnvelope(message, node), route, available);
      assert log[|old(log)|..][1] == Handled(FailureEnvelope(message, node), route);
      CompleteFrom(config, log, |old(log)|);
      MulBound(1, emissions + 1, CostAt(route.hops));
    }

    /** An awaited stage runs, and its messages are routed on before the next stage has its turn. */
    method RunAwaited(at: Place, node: RouteNode, message: Message, route: Route, available: seq<Routed>)
      returns (available': seq<Routed>)
      requires Valid() && StageOk(config, at, node, route, false) && message.kind == node.kind
      modifies this
      ensures Valid() && old(posted) <= posted && old(runs) <= runs && Complete(config, log, |old(log)|)
      ensures old(log) + [Entered(at, node, message, route, false), Ran(at, node, message, route, false, answers(old(runs)))] <= log
      ensures available' == available + RoutedAll(Brought(answers(old(runs)), node, message), route)
      ensures Spent() <= old(Spent()) + 1 + (emissions + 1) * CostAt(route.hops)
      decreases config.hopLimit - route.hops, 6
    {
      Log(Entered(at, node, message, route, false));
      var answer := Invoke(at, node, message, route);
      ghost var before := log;
      available' := HandleAnswer(answer, node, message, route, available);
      RunIsFollowed(before, log, |old(log)| + 1);
      CompleteFrom(config, log, |old(log)| + 1);
      CompleteFrom(config, log, |old(log)|);
    }

    /** What a stage brought has been routed on after its run. */
    lemma RunIsFollowed(before: seq<Event>, after: seq<Event>, i: nat)
      requires before <= after && |before| == i + 1 && before[i].Ran?
      requires AllHandled(Brought(before[i].answer, before[i].node, before[i].input), before[i].route, after[|before|..])
      ensures Followed(config, after, i)
    {
      assert after[i..] == [after[i]] + after[i + 1..];
      var e := before[i];
      assert forall m | m in e.answer.emitted :: m in Brought(e.answer, e.node, e.input);
    }

    /** An entered stage lies deeper, and everything it may lead to is paid for by the stage's cost. */
    lemma EnteredCost(hops: nat, entered: nat)
      requires hops < entered <= config.hopLimit
      ensures 1 + (emissions + 1) * CostAt(entered) <= StageCostAt(hops)
    {
      StageCostFalls(StagesInAll(), emissions, config.hopLimit, hops + 1, entered);
      MulMonotone(StagesInAll(), StageCostAt(entered), StageCostAt(hops + 1));
      MulMonotone(emissions + 1, CostAt(entered), CostAt(hops + 1));
    }

    static lemma MulSucc(k: nat, c: nat)
      ensures (k + 1) * c == k * c + c
    {
    }

    static lemma MulBound(k: nat, l: nat, c: nat)
      requires k <= l
      ensures k * c <= l * c
    {
    }

    predicate AvailableOk(available: seq<Routed>, hops: nat) {
      forall i | 0 <= i < |available| :: RouteOk(config, available[i].route) && hops <= available[i].route.hops
    }

    /** One phase of a pass: rounds over the stages until a round changes nothing. */
    method RunPhase(p: nat, terminal: bool, available: seq<Routed>, completed: set<string>, ghost order: seq<nat>,
                    ghost hops: nat)
      returns (available': seq<Routed>, completed': set<string>, ghost order': seq<nat>)
      requires Valid() && p < |config.pipelines| && AvailableOk(available, hops)
      requires CompletedInOrder(config.pipelines[p], order, completed)
      modifies this
      ensures Valid() && old(log) <= log && old(posted) <= posted && old(runs) <= runs && AvailableOk(available', hops)
      ensures Complete(config, log, |old(log)|)
      ensures Advanced(config, p, terminal, available, completed, order, available', completed', order')
      ensures Settled(config.pipelines[p], terminal, available', completed')
      ensures Spent() + |order| * StageCostAt(hops) <= old(Spent()) + |order'| * StageCostAt(hops)
      decreases config.hopLimit - hops, 1, 1
    {
      available', completed', order' := available, completed, order;
      var progress := true;
      while progress
        invariant Valid() && old(log) <= log && old(posted) <= posted && old(runs) <= runs && AvailableOk(available', hops)
        invariant Complete(config, log, |old(log)|)
        invariant Advanced(config, p, terminal, available, completed, order, available', completed', order')
        invariant Spent() + |order| * StageCostAt(hops) <= old(Spent()) + |order'| * StageCostAt(hops)
        invariant progress || Settled(config.pipelines[p], terminal, available', completed')
        decreases |config.pipelines[p].stages| - |order'|, progress
      {
        ghost var before := log;
        progress, available', completed', order' := RunRound(p, terminal, available', completed', order', hops);
        CompleteOn(config, before, log, |old(log)|);
        CompletionsFit(config.pipelines[p], order', completed');
      }
    }

    /** One round over the stages. */
    method RunRound(p: nat, terminal: bool, available: seq<Routed>, completed: set<string>, ghost order: seq<nat>,
                    ghost hops: nat)
      returns (progress: bool, available': seq<Routed>, completed': set<string>, ghost order': seq<nat>)
      requires Valid() && p < |config.pipelines| && AvailableOk(available, hops)
      requires CompletedInOrder(config.pipelines[p], order, completed)
      modifies this
      ensures Valid() && old(log) <= log && old(posted) <= posted && old(runs) <= runs && AvailableOk(available', hops)
      ensures Complete(config, log, |old(log)|)
      ensures Advanced(config, p, terminal, available, completed, order, available', completed', order')
      ensures progress ==> |order'| > |order|
      ensures !progress ==> available' == available && completed' == completed && order' == order
      ensures !progress ==> Settled(config.pipelines[p], terminal, available, completed)
      ensures Spent() + |order| * StageCostAt(hops) <= old(Spent()) + |order'| * StageCostAt(hops)
      decreases config.hopLimit - hops, 1, 0
    {
      progress, available', completed', order' := false, available, completed, order;
      var s := 0;
      while s < |config.pipelines[p].stages|
        invariant s <= |config.pipelines[p].stages|
        invariant Valid() && old(log) <= log && old(posted) <= posted && old(runs) <= runs && AvailableOk(available', hops)
        invariant Complete(config, log, |old(log)|)
        invariant Advanced(config, p, terminal, available, completed, order, available', completed', order')
        invariant progress ==> |order'| > |order|
        invariant !progress ==> available' == available && completed' == completed && order' == order
        invariant !progress ==>
                    forall k | 0 <= k < s :: !Runnable(config.pipelines[p], k, terminal, available, completed)
        invariant Spent() + |order| * StageCostAt(hops) <= old(Spent()) + |order'| * StageCostAt(hops)
      {
        var moved;
        ghost var before := log;
        moved, available', completed', order' := StageTurn(p, s, terminal, available', completed', order', hops);
        CompleteOn(config, before, log, |old(log)|);
        progress := progress || moved;
        s := s + 1;
      }
    }

    /** The turn of one stage within a round. */
    method StageTurn(p: nat, s: nat, terminal: bool, available: seq<Routed>, completed: set<string>,
                     ghost order: seq<nat>, ghost hops: nat)
      returns (moved: bool, available': seq<Routed>, completed': set<string>, ghost order': seq<nat>)
      requires Valid() && p < |config.pipelines| && s < |config.pipelines[p].stages| && AvailableOk(available, hops)
      requires CompletedInOrder(config.pipelines[p], order, completed)
      modifies this
      ensures Valid() && old(log) <= log && old(posted) <= posted && old(runs) <= runs && AvailableOk(available', hops)
      ensures Complete(config, log, |old(log)|)
      ensures moved <==> Runnable(config.pipelines[p], s, terminal, available, completed)
      ensures Advanced(config, p, terminal, available, completed, order, available', completed', order')
      ensures if moved then completed' == completed + {config.pipelines[p].stages[s].name} && order' == order + [s]
              else available' == available && completed' == completed && order' == order
      ensures Spent() + |order| * StageCostAt(hops) <= old(Spent()) + |order'| * StageCostAt(hops)
      decreases config.hopLimit - hops, 0, 2
    {
      completed', order' := completed, order;
      ghost var i;
      moved, available', i := TryStage(p, s, terminal, available, completed, hops);
      if moved {
        CompleteOne(config.pipelines[p], order, completed, s);
        MulSucc(|order|, StageCostAt(hops));
        completed', order' := completed + {config.pipelines[p].stages[s].name}, order + [s];
        assert NamesStage(config.pipelines[p], config.pipelines[p].stages[s].name, terminal);
      }
    }

    /** A pass over a pipeline: first the awaited stages, then the terminal asynchronous ones. */
    method RunPipeline(p: nat, message: Message, route: Route)
      requires Valid() && p < |config.pipelines| && RouteOk(config, route)
      modifies this
      ensures Valid() && old(log) <= log && old(posted) <= posted && old(runs) <= runs
      ensures PassOver(log[|old(log)|..], p, message, route) && Complete(config, log, |old(log)|)
      ensures Spent() <= old(Spent()) + PassCost(config.pipelines[p], StageCostAt(route.hops))
      decreases config.hopLimit - route.hops, 1, 2
    {
      var pipeline := config.pipelines[p];
      var available, completed := [Routed(message, route)], {};
      ghost var order: seq<nat> := [];
      assert CompletedInOrder(pipeline, order, completed);
      available, completed, order := RunPhase(p, false, available, completed, order, route.hops);
      ghost var awaited := completed;
      ghost var before := log;
      available, completed, order := RunPhase(p, true, available, completed, order, route.hops);
      CompleteOn(config, before, log, |old(log)|);
      CompletionsFit(pipeline, order, completed);
      MulBound(|order|, |pipeline.stages|, StageCostAt(route.hops));
      PassIsOk(p, message, route, order, available, awaited, completed);
      before := log;
      Log(PassEnded(p, message, route, order, available));
      CompleteOn(config, before, log, |old(log)|);
      assert log[|old(log)|..][|log| - 1 - |old(log)|] == PassEnded(p, message, route, order, available);
    }

    /** What two settled phases make of a pass. */
    lemma PassIsOk(p: nat, message: Message, route: Route, order: seq<nat>, available: seq<Routed>, awaited: set<string>,
                   completed: set<string>)
      requires p < |config.pipelines| && [Routed(message, route)] <= available
      requires CompletedInOrder(config.pipelines[p], order, completed) && awaited <= completed
      requires forall n | n in completed && n !in awaited :: NamesStage(config.pipelines[p], n, true)
      requires Settled(config.pipelines[p], true, available, completed)
      requires Registered(config, config.pipelines[p]) ==> Settled(config.pipelines[p], false, available, awaited)
      ensures EventOk(config, PassEnded(p, message, route, order, available))
    {
      var pipeline := config.pipelines[p];
      if Validated(pipeline) && Registered(config, pipeline) {
        PhasesSettle(pipeline, available, awaited, completed);
        OnlyStarvationBlocks(pipeline, available, completed);
      }
    }

    /** `process_message`: a pass over every pipeline whose source is the message's type. */
    method ProcessMessage(message: Message, route: Route)
      requires Valid() && RouteOk(config, route)
      modifies this
      ensures Valid() && old(log) <= log && old(posted) <= posted && old(runs) <= runs
      ensures |log| > |old(log)| && log[|old(log)|] == Handled(message, route)
      ensures forall p: nat | p < |config.pipelines| && config.pipelines[p].source == message.kind ::
                PassOver(log[|old(log)|..], p, message, route)
      ensures Complete(config, log, |old(log)|)
      ensures Spent() <= old(Spent()) + CostAt(route.hops)
      decreases config.hopLimit - route.hops, 2
    {
      Log(Handled(message, route));
      ghost var start := log;
      RunPasses(message, route);
      PassesBehind(start, log, |old(log)|, message, route);
      CompleteFrom(config, log, |old(log)|);
    }

    /** The pipelines that have the message's type as their source, one after another. */
    method RunPasses(message: Message, route: Route)
      requires Valid() && RouteOk(config, route)
      modifies this
      ensures Valid() && old(log) <= log && old(posted) <= posted && old(runs) <= runs
      ensures PassesOver(log[|old(log)|..], config.pipelines, |config.pipelines|, message, route)
      ensures Complete(config, log, |old(log)|)
      ensures Spent() <= old(Spent()) + CostAt(route.hops)
      decreases config.hopLimit - route.hops, 1, 3
    {
      var p := 0;
      var pipelines := config.pipelines;
      assert pipelines[0..] == pipelines;
      ghost var cost := PassesFit(route.hops);
      while p < |pipelines|
        invariant p <= |pipelines| && Valid() && old(log) <= log && old(posted) <= posted && old(runs) <= runs
        invariant PassesOver(log[|old(log)|..], pipelines, p, message, route)
        invariant Complete(config, log, |old(log)|)
        invariant Spent() + PassCosts(pipelines[p..], cost) <= old(Spent()) + CostAt(route.hops)
      {
        ghost var before := log;
        if pipelines[p].source == message.kind {
          RunPipeline(p, message, route);
          CompleteOn(config, before, log, |old(log)|);
        }
        PassesRemain(old(log), before, log, pipelines, p, message, route);
        NextCost(p, cost);
        p := p + 1;
      }
    }

    /** The passes after an event are also passes from the event on. */
    lemma PassesBehind(start: seq<Event>, after: seq<Event>, i: nat, message: Message, route: Route)
      requires |start| == i + 1 && start <= after
      requires PassesOver(after[|start|..], config.pipelines, |config.pipelines|, message, route)
      ensures PassesOver(after[i..], config.pipelines, |config.pipelines|, message, route)
    {
      var more := after[|start|..];
      assert after[i..] == [after[i]] + more;
      forall q: nat | q < |config.pipelines| && config.pipelines[q].source == message.kind
        ensures PassOver([after[i]] + more, q, message, route)
      {
        assert PassOver(more, q, message, route);
        var k :| 0 <= k < |more| && more[k].PassEnded? && more[k].pipeline == q && more[k].message == message
                 && more[k].route == route;
        assert ([after[i]] + more)[k + 1] == more[k];
      }
    }

    /** What a pass over a pipeline costs at most, if each stage costs at most `cost`. */
    static function PassCost(pipeline: Pipeline, cost: nat): nat {
      |pipeline.stages| * cost
    }

    static function PassCosts(pipelines: seq<Pipeline>, cost: nat): nat {
      if pipelines == [] then 0 else PassCost(pipelines[0], cost) + PassCosts(pipelines[1..], cost)
    }

    static lemma {:induction false} PassesCost(pipelines: seq<Pipeline>, cost: nat)
      ensures PassCosts(pipelines, cost) == StageCount(pipelines) * cost
    {
      if pipelines != [] {
        PassesCost(pipelines[1..], cost);
        MulSum(|pipelines[0].stages|, StageCount(pipelines[1..]), cost);
      }
    }

    /** The passes over all pipelines cost what a message may cost. */
    lemma PassesFit(hops: nat) returns (cost: nat)
      ensures cost == StageCostAt(hops) && PassCosts(config.pipelines, cost) == CostAt(hops)
    {
      cost := StageCostAt(hops);
      PassesCost(config.pipelines, cost);
    }

    lemma NextCost(p: nat, cost: nat)
      requires p < |config.pipelines|
      ensures PassCosts(config.pipelines[p..], cost)
              == PassCost(config.pipelines[p], cost) + PassCosts(config.pipelines[p + 1..], cost)
    {
      assert config.pipelines[p..][1..] == config.pipelines[p + 1..];
    }

    /** A pass has ended over every one of the first `n` pipelines whose source is the message's type. */
    ghost predicate PassesOver(events: seq<Event>, pipelines: seq<Pipeline>, n: nat, message: Message, route: Route)
      requires n <= |pipelines|
    {
      forall q: nat | q < n && pipelines[q].source == message.kind :: PassOver(events, q, message, route)
    }

    lemma PassesRemain(start: seq<Event>, before: seq<Event>, after: seq<Event>, pipelines: seq<Pipeline>, p: nat,
                       message: Message, route: Route)
      requires start <= before <= after && p < |pipelines|
      requires PassesOver(before[|start|..], pipelines, p, message, route)
      requires pipelines[p].source == message.kind ==> PassOver(after[|before|..], p, message, route)
      ensures PassesOver(after[|start|..], pipelines, p + 1, message, route)
    {
      var done, more := before[|start|..], after[|before|..];
      assert after[|start|..] == done + more;
      forall q: nat | q < p + 1 && pipelines[q].source == message.kind ensures PassOver(done + more, q, message, route) {
        if q < p {
          assert PassOver(done, q, message, route);
          PassStays(done, done + more, q, message, route);
        } else {
          var i :| 0 <= i < |more| && more[i].PassEnded? && more[i].pipeline == q && more[i].message == message && more[i].route == route;
          assert (done + more)[|done| + i] == more[i];
        }
      }
    }

    static lemma MulSum(a: nat, b: nat, c: nat)
      ensures (a + b) * c == a * c + b * c
    {
    }

    /** Starts any posted work; concurrent terminal stages finish in no particular order. */
    method StartPosted() returns (work: Work, answer: Answer)
      requires Valid() && posted != []
      modifies this`posted, this`log, this`runs
      ensures Valid() && |posted| == |old(posted)| - 1 && work in old(posted) && WorkOk(work)
      ensures runs == old(runs) + 1 && answer == answers(old(runs)) && |answer.emitted| <= emissions
      ensures log == old(log) + [Ran(work.at, work.node, work.message, work.route, true, answer)]
      ensures Spent() + (emissions + 1) * CostAt(work.route.hops) <= old(Spent())
    {
      var i :| 0 <= i < |posted|;
      work := posted[i];
      assert WorkOk(posted[i]);
      answer := answers(runs);
      runs := runs + 1;
      PostedWithout(StagesInAll(), emissions, config.hopLimit, posted, i);
      BalancedTaking(posting, log, postings, posted, i, Ran(work.at, work.node, work.message, work.route, true, answer));
      log := log + [Ran(work.at, work.node, work.message, work.route, true, answer)];
      posted := posted[..i] + posted[i + 1..];
    }

    /** `run_terminal_stage`, for any of the posted ones. */
    method RunTerminalStage() returns (work: Work)
      requires Valid() && posted != []
      modifies this
      ensures Valid() && old(runs) < runs && work in old(posted) && Complete(config, log, |old(log)|)
      ensures old(log) + [Ran(work.at, work.node, work.message, work.route, true, answers(old(runs)))] <= log
      ensures Spent() <= old(Spent())
    {
      var answer;
      work, answer := StartPosted();
      ghost var before := log;
      var ignored := HandleAnswer(answer, work.node, work.message, work.route, []);
      RunIsFollowed(before, log, |old(log)|);
      CompleteFrom(config, log, |old(log)|);
    }

    /** `process`, and all the terminal stages that it leads to: the routing of one message ends, within its bound. */
    method Process(message: Message)
      requires Valid() && posted == []
      modifies this
      ensures Valid() && posted == [] && Executed(log, |log|) == Accepted(posting, log, |log|)
      ensures old(log) + [Handled(message, NoRoute)] <= log && Complete(config, log, |old(log)|)
      ensures old(runs) <= runs <= old(runs) + GeometricSum(StagesInAll(), emissions, config.hopLimit)
    {
      ghost var most := runs + GeometricSum(StagesInAll(), emissions, config.hopLimit);
      ProcessMessage(message, NoRoute);
      CostIsGeometric(StagesInAll(), emissions, config.hopLimit, config.hopLimit);
      while posted != []
        invariant Valid() && old(log) + [Handled(message, NoRoute)] <= log && old(runs) <= runs
        invariant Spent() <= most && Complete(config, log, |old(log)|)
        decreases most - runs
      {
        ghost var before := log;
        var work := RunTerminalStage();
        CompleteOn(config, before, log, |old(log)|);
      }
    }
  }

  lemma {:induction false} PostedWithout(stages: nat, emissions: nat, limit: nat, posted: seq<Work>, i: nat)
    requires i < |posted|
    ensures PostedCost(stages, emissions, limit, posted)
            == PostedCost(stages, emissions, limit, posted[..i] + posted[i + 1..])
               + 1 + (emissions + 1) * MessageCost(stages, emissions, limit, posted[i].route.hops)
  {
    var n := |posted| - 1;
    if i == n {
      assert posted[..i] + posted[i + 1..] == posted[..n];
    } else {
      PostedWithout(stages, emissions, limit, posted[..n], i);
      var rest := posted[..i] + posted[i + 1..];
      assert rest[..n - 1] == posted[..n][..i] + posted[..n][i + 1..];
    }
  }

  /** Along every event of a routing, the route is free of repetitions and within both of its bounds. */
  lemma EventsRouteSoundly(config: Config, e: Event)
    requires EventOk(config, e) && !e.PassEnded?
    ensures e.route.hops == |e.route.nodes| && DistinctNodes(e.route.nodes)
    ensures e.route.hops <= StageCount(config.pipelines)
    ensures e.Entered? || e.Ran? || e.Unregistered? ==> e.route.hops <= config.hopLimit
    ensures e.Entered? || e.Ran? ==>
              && e.at.pipeline < |config.pipelines| && e.at.stage < |config.pipelines[e.at.pipeline].stages|
              && var stages := config.pipelines[e.at.pipeline].stages;
              && (e.terminal <==>
                    && stages[e.at.stage].mode == "async"
                    && (forall c | 0 <= c < |stages| :: stages[e.at.stage].name !in stages[c].after)
                    && (forall c | 0 <= c < |stages| :: stages[c].input !in stages[e.at.stage].outputs))
  {
    RoutesAreShort(config, e.route);
  }
}
