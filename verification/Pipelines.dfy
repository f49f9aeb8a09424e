/** Pipelines, routes and the pure decisions of the orchestrator. */
module Pipelines {
  import opened Wrappers
  import opened Graphs
  import opened DependencyOrder

  /** `kind` is the message type; everything else of an envelope is in `content`. */
  datatype Message = Message(kind: string, content: string)

  datatype Stage = Stage(name: string, actor: string, input: string, mode: string,
                         after: seq<string>, outputs: seq<string>)

  datatype Pipeline = Pipeline(name: string, source: string, stages: seq<Stage>)

  datatype Config = Config(actors: set<string>, pipelines: seq<Pipeline>, hopLimit: nat)

  datatype RouteNode = RouteNode(pipeline: string, stage: string, kind: string)

  /** A route: how many stages the message has come through, and which. */
  datatype Route = Route(hops: nat, nodes: seq<RouteNode>)

  const NoRoute := Route(0, [])

  datatype Routed = Routed(message: Message, route: Route)

  // ----- pure decisions -----

  function NormalizedMode(stage: Stage): string {
    if stage.mode == "" then "await" else stage.mode
  }

  predicate DependenciesMet(stage: Stage, completed: set<string>) {
    forall d | d in stage.after :: d in completed
  }

  /** The first available message of a type. */
  function FindMessage(available: seq<Routed>, kind: string): (m: Option<Routed>)
    ensures m.Some? <==> exists i | 0 <= i < |available| :: available[i].message.kind == kind
    ensures m.Some? ==> exists i | 0 <= i < |available| ::
              && available[i] == m.value && m.value.message.kind == kind
              && forall j | 0 <= j < i :: available[j].message.kind != kind
  {
    if available == [] then None
    else if available[0].message.kind == kind then Some(available[0])
    else FindMessage(available[1..], kind)
  }

  predicate HasDownstream(pipeline: Pipeline, stage: Stage) {
    exists i | 0 <= i < |pipeline.stages| ::
      stage.name in pipeline.stages[i].after || pipeline.stages[i].input in stage.outputs
  }

  predicate TerminalAsync(pipeline: Pipeline, stage: Stage) {
    NormalizedMode(stage) == "async" && !HasDownstream(pipeline, stage)
  }

  // ----- routes -----

  predicate DistinctNodes(nodes: seq<RouteNode>) {
    forall i, j | 0 <= i < j < |nodes| :: nodes[i] != nodes[j]
  }

  function StageNode(pipeline: Pipeline, stage: Stage): RouteNode {
    RouteNode(pipeline.name, stage.name, stage.input)
  }

  function PipelineNodes(pipeline: Pipeline): set<RouteNode> {
    set i | 0 <= i < |pipeline.stages| :: StageNode(pipeline, pipeline.stages[i])
  }

  function ConfiguredNodes(pipelines: seq<Pipeline>): set<RouteNode> {
    if pipelines == [] then {} else PipelineNodes(pipelines[0]) + ConfiguredNodes(pipelines[1..])
  }

  function StageCount(pipelines: seq<Pipeline>): nat {
    if pipelines == [] then 0 else |pipelines[0].stages| + StageCount(pipelines[1..])
  }

  /** What every route in flight satisfies. */
  predicate RouteOk(config: Config, route: Route) {
    && route.hops == |route.nodes| && DistinctNodes(route.nodes)
    && forall i | 0 <= i < |route.nodes| :: route.nodes[i] in ConfiguredNodes(config.pipelines)
  }

  lemma {:induction false} FewNodes(stages: seq<Stage>, pipeline: Pipeline)
    requires stages <= pipeline.stages
    ensures |set i | 0 <= i < |stages| :: StageNode(pipeline, stages[i])| <= |stages|
  {
    if stages != [] {
      var n := |stages| - 1;
      var init := stages[..n];
      FewNodes(init, pipeline);
      assert (set i | 0 <= i < |stages| :: StageNode(pipeline, stages[i]))
          == (set i | 0 <= i < |init| :: StageNode(pipeline, init[i])) + {StageNode(pipeline, stages[n])} by {
        assert stages == init + [stages[n]];
      }
    }
  }

  lemma {:induction false} FewConfigured(pipelines: seq<Pipeline>)
    ensures |ConfiguredNodes(pipelines)| <= StageCount(pipelines)
  {
    if pipelines != [] {
      FewNodes(pipelines[0].stages, pipelines[0]);
      FewConfigured(pipelines[1..]);
    }
  }

  lemma {:induction false} DistinctNodesFit(nodes: seq<RouteNode>, all: set<RouteNode>)
    requires DistinctNodes(nodes) && forall i | 0 <= i < |nodes| :: nodes[i] in all
    ensures |nodes| <= |all|
  {
    if nodes != [] {
      var last := nodes[|nodes| - 1];
      DistinctNodesFit(nodes[..|nodes| - 1], all - {last});
    }
  }

  /** A route never has more nodes than stages are configured. */
  lemma RoutesAreShort(config: Config, route: Route)
    requires RouteOk(config, route)
    ensures route.hops <= StageCount(config.pipelines)
  {
    DistinctNodesFit(route.nodes, ConfiguredNodes(config.pipelines));
    FewConfigured(config.pipelines);
  }

  lemma {:induction false} NodeConfigured(pipelines: seq<Pipeline>, p: nat, s: nat)
    requires p < |pipelines| && s < |pipelines[p].stages|
    ensures StageNode(pipelines[p], pipelines[p].stages[s]) in ConfiguredNodes(pipelines)
  {
    if p > 0 {
      NodeConfigured(pipelines[1..], p - 1, s);
    }
  }

  // ----- how many stages one message can run -----

  /**
   What processing a message may cost at most when its route has `hops` nodes: `stages` are the configured stages,
   `emissions` bounds the messages that one stage emits.
   */
  function StageCost(stages: nat, emissions: nat, limit: nat, hops: nat): nat
    decreases limit - hops, 0
  {
    if hops >= limit then 0 else 1 + (emissions + 1) * MessageCost(stages, emissions, limit, hops + 1)
  }

  function MessageCost(stages: nat, emissions: nat, limit: nat, hops: nat): nat
    decreases limit - hops, 1
  {
    stages * StageCost(stages, emissions, limit, hops)
  }

  function Power(b: nat, e: nat): nat {
    if e == 0 then 1 else b * Power(b, e - 1)
  }

  /** The sum over i = 1 .. n of stages^i * (emissions + 1)^(i - 1). */
  function GeometricSum(stages: nat, emissions: nat, n: nat): nat {
    if n == 0 then 0
    else GeometricSum(stages, emissions, n - 1) + Power(stages, n) * Power(emissions + 1, n - 1)
  }

  lemma StageCostFalls(stages: nat, emissions: nat, limit: nat, hops: nat, more: nat)
    requires hops <= more
    ensures StageCost(stages, emissions, limit, more) <= StageCost(stages, emissions, limit, hops)
    decreases limit - hops
  {
    if more < limit && hops < more {
      StageCostFalls(stages, emissions, limit, hops + 1, more + 1);
      MulMonotone(stages, StageCost(stages, emissions, limit, more + 1), StageCost(stages, emissions, limit, hops + 1));
      MulMonotone(emissions + 1, MessageCost(stages, emissions, limit, more + 1),
                  MessageCost(stages, emissions, limit, hops + 1));
    }
  }

  lemma MulMonotone(k: nat, a: nat, b: nat)
    requires a <= b
    ensures k * a <= k * b
  {
  }

  /** With n further hops the cost is the geometric sum of n terms. */
  lemma {:induction false} CostIsGeometric(stages: nat, emissions: nat, limit: nat, n: nat)
    requires n <= limit
    ensures MessageCost(stages, emissions, limit, limit - n) == GeometricSum(stages, emissions, n)
  {
    if n > 0 {
      CostIsGeometric(stages, emissions, limit, n - 1);
      GeometricStep(stages, emissions, n);
    } else {
      assert StageCost(stages, emissions, limit, limit) == 0;
    }
  }

  /** The sum in the form of the recursion: stages * (1 + (emissions + 1) * the sum of one term less). */
  lemma {:induction false} GeometricStep(stages: nat, emissions: nat, n: nat)
    requires n > 0
    ensures GeometricSum(stages, emissions, n) == stages * (1 + (emissions + 1) * GeometricSum(stages, emissions, n - 1))
  {
    var e := emissions + 1;
    if n == 1 {
      assert Power(stages, 1) == stages * Power(stages, 0) == stages;
      assert Power(e, 0) == 1 && GeometricSum(stages, emissions, 0) == 0;
      assert GeometricSum(stages, emissions, 1) == 0 + Power(stages, 1) * Power(e, 0);
    } else {
      GeometricStep(stages, emissions, n - 1);
      Distribute(stages, e, GeometricSum(stages, emissions, n - 2), Power(stages, n - 1), Power(e, n - 2));
    }
  }

  lemma Distribute(s: nat, e: nat, sum: nat, p: nat, q: nat)
    ensures s * (1 + e * sum) + (s * p) * (e * q) == s * (1 + e * (sum + p * q))
  {
    calc {
      s * (1 + e * (sum + p * q));
      s * (1 + (e * sum + e * (p * q)));
      s * (1 + e * sum) + s * (e * (p * q));
      { assert s * (e * (p * q)) == (s * p) * (e * q); }
      s * (1 + e * sum) + (s * p) * (e * q);
    }
  }

  // ----- one pass over a pipeline -----

  /** The stages of a pipeline as nodes of their dependency graph. */
  function StageNodes(pipeline: Pipeline): (nodes: seq<Node>)
    ensures |nodes| == |pipeline.stages|
    ensures forall i | 0 <= i < |nodes| :: nodes[i] == Node(pipeline.stages[i].name, pipeline.stages[i].after)
  {
    seq(|pipeline.stages|, i requires 0 <= i < |pipeline.stages| => Node(pipeline.stages[i].name, pipeline.stages[i].after))
  }

  /** Whether a phase of the pass runs the stage now. */
  predicate Runnable(pipeline: Pipeline, s: nat, terminal: bool, available: seq<Routed>, completed: set<string>)
    requires s < |pipeline.stages|
  {
    var stage := pipeline.stages[s];
    && stage.name !in completed
    && TerminalAsync(pipeline, stage) == terminal
    && DependenciesMet(stage, completed)
    && FindMessage(available, stage.input).Some?
  }

  /** The phase has nothing left to do. */
  predicate Settled(pipeline: Pipeline, terminal: bool, available: seq<Routed>, completed: set<string>) {
    forall s | 0 <= s < |pipeline.stages| :: !Runnable(pipeline, s, terminal, available, completed)
  }

  predicate Starved(stage: Stage, available: seq<Routed>, completed: set<string>) {
    stage.name !in completed && FindMessage(available, stage.input).None?
  }

  /** Some stage that `name` is or transitively waits for has no input message. */
  ghost predicate HasStarvedAncestor(pipeline: Pipeline, name: string, available: seq<Routed>, completed: set<string>) {
    exists p: seq<string> :: StarvedPath(pipeline, p, name, available, completed)
  }

  ghost predicate StarvedPath(pipeline: Pipeline, p: seq<string>, name: string, available: seq<Routed>, completed: set<string>) {
    && p != [] && Path(StageNodes(pipeline), p) && p[|p| - 1] == name
    && exists s | 0 <= s < |pipeline.stages| ::
         pipeline.stages[s].name == p[0] && Starved(pipeline.stages[s], available, completed)
  }

  /** An uncompleted stage has no input or waits for an uncompleted name. */
  predicate Excused(pipeline: Pipeline, s: nat, available: seq<Routed>, completed: set<string>)
    requires s < |pipeline.stages|
  {
    || pipeline.stages[s].name in completed
    || FindMessage(available, pipeline.stages[s].input).None?
    || exists d | d in pipeline.stages[s].after :: d !in completed
  }

  /** What `validate_actor_pipeline_configs` establishes about dependencies. */
  ghost predicate Validated(pipeline: Pipeline) {
    Closed(StageNodes(pipeline)) && !Cyclic(StageNodes(pipeline))
  }

  /** The dependency checks of `validate_actor_pipeline_configs` on one pipeline. */
  method ReportsDependencyError(pipeline: Pipeline) returns (error: bool)
    ensures error <==> !Validated(pipeline)
  {
    var missing := MissesDependency(StageNodes(pipeline));
    var cyclic := HasCycle(StageNodes(pipeline));
    error := missing || cyclic;
  }

  lemma ExtendPath(pipeline: Pipeline, d: string, name: string, available: seq<Routed>, completed: set<string>)
    requires Edge(StageNodes(pipeline), d, name) && HasStarvedAncestor(pipeline, d, available, completed)
    ensures HasStarvedAncestor(pipeline, name, available, completed)
  {
    var p :| StarvedPath(pipeline, p, d, available, completed);
    var longer := p + [name];
    forall i | 0 <= i < |longer| - 1 ensures Edge(StageNodes(pipeline), longer[i], longer[i + 1]) {
      if i < |p| - 1 {
        assert Edge(StageNodes(pipeline), p[i], p[i + 1]);
      }
    }
    assert StarvedPath(pipeline, longer, name, available, completed);
  }

  /** The uncompleted names that wait only for uncompleted names, all of them with input. */
  ghost function Deadlocked(pipeline: Pipeline, available: seq<Routed>, completed: set<string>): set<string> {
    set n | n in Names(StageNodes(pipeline)) && n !in completed && !HasStarvedAncestor(pipeline, n, available, completed)
  }

  lemma DeadlockedWait(pipeline: Pipeline, available: seq<Routed>, completed: set<string>, n: string)
    requires forall s | 0 <= s < |pipeline.stages| :: Excused(pipeline, s, available, completed)
    requires Closed(StageNodes(pipeline)) && n in Deadlocked(pipeline, available, completed)
    ensures Waits(StageNodes(pipeline), n, Deadlocked(pipeline, available, completed))
  {
    var nodes := StageNodes(pipeline);
    var s :| 0 <= s < |nodes| && nodes[s].name == n;
    if FindMessage(available, pipeline.stages[s].input).None? {
      assert StarvedPath(pipeline, [n], n, available, completed);
    }
    assert Excused(pipeline, s, available, completed);
    var d :| d in pipeline.stages[s].after && d !in completed;
    assert d in nodes[s].deps;
    assert Edge(nodes, d, n);
    if HasStarvedAncestor(pipeline, d, available, completed) {
      ExtendPath(pipeline, d, n, available, completed);
    }
  }

  /** In a validated pipeline nothing waits on dependencies alone. */
  lemma OnlyStarvationBlocks(pipeline: Pipeline, available: seq<Routed>, completed: set<string>)
    requires Validated(pipeline)
    requires forall s | 0 <= s < |pipeline.stages| :: Excused(pipeline, s, available, completed)
    ensures forall s | 0 <= s < |pipeline.stages| && pipeline.stages[s].name !in completed ::
              HasStarvedAncestor(pipeline, pipeline.stages[s].name, available, completed)
  {
    var stuck := Deadlocked(pipeline, available, completed);
    forall n | n in stuck ensures Waits(StageNodes(pipeline), n, stuck) {
      DeadlockedWait(pipeline, available, completed, n);
    }
    if stuck != {} {
      StuckIsCyclic(StageNodes(pipeline), stuck);
    }
    forall s | 0 <= s < |pipeline.stages| && pipeline.stages[s].name !in completed
      ensures HasStarvedAncestor(pipeline, pipeline.stages[s].name, available, completed)
    {
      assert StageNodes(pipeline)[s].name == pipeline.stages[s].name;
      assert pipeline.stages[s].name !in stuck;
    }
  }

  // ----- the order of completion -----

  /** The nodes of the stages at the given positions. */
  function PickedNodes(pipeline: Pipeline, order: seq<nat>): (nodes: seq<Node>)
    requires forall k | 0 <= k < |order| :: order[k] < |pipeline.stages|
    ensures |nodes| == |order|
    ensures forall k | 0 <= k < |order| :: nodes[k] == StageNodes(pipeline)[order[k]]
  {
    seq(|order|, k requires 0 <= k < |order| => StageNodes(pipeline)[order[k]])
  }

  /** The stages at the positions `order` completed in that order: each name once, each after its `after` stages. */
  ghost predicate CompletedInOrder(pipeline: Pipeline, order: seq<nat>, completed: set<string>) {
    && (forall k | 0 <= k < |order| :: order[k] < |pipeline.stages|)
    && Ordering(StageNodes(pipeline), PickedNodes(pipeline, order), order)
    && completed == Names(PickedNodes(pipeline, order))
  }

  lemma CompleteOne(pipeline: Pipeline, order: seq<nat>, completed: set<string>, s: nat)
    requires CompletedInOrder(pipeline, order, completed) && s < |pipeline.stages|
    requires pipeline.stages[s].name !in completed && DependenciesMet(pipeline.stages[s], completed)
    ensures CompletedInOrder(pipeline, order + [s], completed + {pipeline.stages[s].name})
  {
    var nodes := StageNodes(pipeline);
    assert PickedNodes(pipeline, order + [s]) == PickedNodes(pipeline, order) + [nodes[s]];
    Append(nodes, PickedNodes(pipeline, order), order, s);
  }

  lemma CompletionsFit(pipeline: Pipeline, order: seq<nat>, completed: set<string>)
    requires CompletedInOrder(pipeline, order, completed)
    ensures |order| <= |pipeline.stages|
  {
    var nodes := StageNodes(pipeline);
    PickedSelects(nodes, PickedNodes(pipeline, order), order);
    if |order| > |nodes| {
      FullSet(Positions(order), |nodes|);
    }
  }

  /** Whether some stage of the phase has the name. */
  predicate NamesStage(pipeline: Pipeline, name: string, terminal: bool) {
    exists s | 0 <= s < |pipeline.stages| ::
      pipeline.stages[s].name == name && TerminalAsync(pipeline, pipeline.stages[s]) == terminal
  }

  /** How the two phases of a pass fit together: what the first left over is still excused after the second. */
  lemma PhasesSettle(pipeline: Pipeline, available: seq<Routed>, awaited: set<string>, completed: set<string>)
    requires Settled(pipeline, false, available, awaited) && Settled(pipeline, true, available, completed)
    requires awaited <= completed
    requires forall n | n in completed && n !in awaited :: NamesStage(pipeline, n, true)
    ensures forall s | 0 <= s < |pipeline.stages| :: Excused(pipeline, s, available, completed)
  {
    forall s | 0 <= s < |pipeline.stages| ensures Excused(pipeline, s, available, completed) {
      var stage := pipeline.stages[s];
      assert !Runnable(pipeline, s, false, available, awaited) && !Runnable(pipeline, s, true, available, completed);
      if !TerminalAsync(pipeline, stage) && !DependenciesMet(stage, awaited) {
        var d :| d in stage.after && d !in awaited;
      }
    }
  }
}
