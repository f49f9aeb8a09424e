/** The two searches for dependency cycles and the ordering of actors, as loops over lists and maps. */
module DependencyOrder {
  import opened Wrappers
  import opened Graphs

  type Dependents = map<string, seq<string>>
  type Degrees = map<string, nat>

  // ----- counting dependencies -----

  ghost predicate Counted(names: set<string>, dependents: Dependents, degrees: Degrees,
                          to: (string, string) -> nat, into: string -> nat) {
    && dependents.Keys == names && degrees.Keys == names
    && (forall d, n | d in names && n in names :: multiset(dependents[d])[n] == to(d, n))
    && (forall n | n in names :: degrees[n] == into(n))
    && (forall d | d in names :: forall n | n in dependents[d] :: n in names)
  }

  ghost function Upto(name: string, deps: seq<string>, n: string, alive: set<string>): nat {
    if name == n then CountIn(deps, alive) else 0
  }

  /** The edges of the first `i` nodes and of the first `j` dependencies of the next one have been counted. */
  ghost predicate Partly(nodes: seq<Node>, i: nat, j: nat, dependents: Dependents, degrees: Degrees)
    requires i < |nodes| && j <= |nodes[i].deps|
  {
    var names, done := Names(nodes), nodes[i].deps[..j];
    Counted(names, dependents, degrees,
            (d, n) => Degree(nodes[..i], n, {d}) + Upto(nodes[i].name, done, n, {d}),
            n => Degree(nodes[..i], n, names) + Upto(nodes[i].name, done, n, names))
  }

  /** The edges of the nodes in `done` have been counted. */
  ghost predicate Wholly(names: set<string>, done: seq<Node>, dependents: Dependents, degrees: Degrees) {
    Counted(names, dependents, degrees, (d, n) => Degree(done, n, {d}), n => Degree(done, n, names))
  }

  lemma StartNode(nodes: seq<Node>, i: nat, dependents: Dependents, degrees: Degrees)
    requires i < |nodes| && Wholly(Names(nodes), nodes[..i], dependents, degrees)
    ensures Partly(nodes, i, 0, dependents, degrees)
  {
  }

  lemma EndNode(nodes: seq<Node>, i: nat, dependents: Dependents, degrees: Degrees)
    requires i < |nodes| && Partly(nodes, i, |nodes[i].deps|, dependents, degrees)
    ensures Wholly(Names(nodes), nodes[..i + 1], dependents, degrees)
  {
    assert nodes[..i + 1][..i] == nodes[..i];
    assert nodes[i].deps[..|nodes[i].deps|] == nodes[i].deps;
  }

  lemma CountNext(deps: seq<string>, j: nat, alive: set<string>)
    requires j < |deps|
    ensures CountIn(deps[..j + 1], alive) == CountIn(deps[..j], alive) + if deps[j] in alive then 1 else 0
  {
    assert deps[..j + 1][..j] == deps[..j];
  }

  /** One dependency of node `i` is entered in both maps, unless it names nothing. */
  method CountDependency(nodes: seq<Node>, i: nat, j: nat, dependents: Dependents, degrees: Degrees)
    returns (dependents': Dependents, degrees': Degrees)
    requires i < |nodes| && j < |nodes[i].deps| && Partly(nodes, i, j, dependents, degrees)
    ensures Partly(nodes, i, j + 1, dependents', degrees')
  {
    dependents', degrees' := dependents, degrees;
    var name, dep := nodes[i].name, nodes[i].deps[j];
    if dep in Names(nodes) {
      KnownDependency(nodes, i, j, dependents, degrees);
      dependents' := dependents[dep := dependents[dep] + [name]];
      degrees' := degrees[name := degrees[name] + 1];
    } else {
      UnknownDependency(nodes, i, j, dependents, degrees);
    }
  }

  lemma UnknownDependency(nodes: seq<Node>, i: nat, j: nat, dependents: Dependents, degrees: Degrees)
    requires i < |nodes| && j < |nodes[i].deps| && Partly(nodes, i, j, dependents, degrees)
    requires nodes[i].deps[j] !in Names(nodes)
    ensures Partly(nodes, i, j + 1, dependents, degrees)
  {
    var deps, names := nodes[i].deps, Names(nodes);
    CountNext(deps, j, names);
    forall d | d in names ensures CountIn(deps[..j + 1], {d}) == CountIn(deps[..j], {d}) {
      CountNext(deps, j, {d});
    }
  }

  lemma KnownDependency(nodes: seq<Node>, i: nat, j: nat, dependents: Dependents, degrees: Degrees)
    requires i < |nodes| && j < |nodes[i].deps| && Partly(nodes, i, j, dependents, degrees)
    requires nodes[i].deps[j] in Names(nodes)
    ensures nodes[i].name in Names(nodes)
    ensures var name, dep := nodes[i].name, nodes[i].deps[j];
            Partly(nodes, i, j + 1, dependents[dep := dependents[dep] + [name]], degrees[name := degrees[name] + 1])
  {
    var deps, names, name, dep := nodes[i].deps, Names(nodes), nodes[i].name, nodes[i].deps[j];
    assert name in names;
    CountNext(deps, j, names);
    forall d | d in names
      ensures CountIn(deps[..j + 1], {d}) == CountIn(deps[..j], {d}) + if d == dep then 1 else 0
    {
      CountNext(deps, j, {d});
    }
    Entered(names, dependents, degrees,
            (d, n) => Degree(nodes[..i], n, {d}) + Upto(name, deps[..j], n, {d}),
            n => Degree(nodes[..i], n, names) + Upto(name, deps[..j], n, names),
            (d, n) => Degree(nodes[..i], n, {d}) + Upto(name, deps[..j + 1], n, {d}),
            n => Degree(nodes[..i], n, names) + Upto(name, deps[..j + 1], n, names), name, dep);
  }

  /** One more edge from `dep` to `name`. */
  lemma Entered(names: set<string>, dependents: Dependents, degrees: Degrees,
                to: (string, string) -> nat, into: string -> nat, to': (string, string) -> nat, into': string -> nat,
                name: string, dep: string)
    requires Counted(names, dependents, degrees, to, into) && name in names && dep in names
    requires forall d, n | d in names && n in names :: to'(d, n) == to(d, n) + if d == dep && n == name then 1 else 0
    requires forall n | n in names :: into'(n) == into(n) + if n == name then 1 else 0
    ensures Counted(names, dependents[dep := dependents[dep] + [name]], degrees[name := degrees[name] + 1], to', into')
  {
  }

  method CountDependencies(nodes: seq<Node>) returns (dependents: Dependents, degrees: Degrees)
    ensures dependents.Keys == Names(nodes) && degrees.Keys == Names(nodes)
    ensures forall d, n | d in Names(nodes) && n in Names(nodes) :: multiset(dependents[d])[n] == Degree(nodes, n, {d})
    ensures forall n | n in Names(nodes) :: degrees[n] == Degree(nodes, n, Names(nodes))
    ensures forall d | d in Names(nodes) :: forall n | n in dependents[d] :: n in Names(nodes)
  {
    dependents, degrees := EmptyMaps(nodes);
    var i := 0;
    while i < |nodes|
      invariant i <= |nodes|
      invariant Wholly(Names(nodes), nodes[..i], dependents, degrees)
    {
      dependents, degrees := CountNode(nodes, i, dependents, degrees);
      i := i + 1;
    }
    assert nodes[..i] == nodes;
    AllCounted(nodes, dependents, degrees);
  }

  lemma AllCounted(nodes: seq<Node>, dependents: Dependents, degrees: Degrees)
    requires Wholly(Names(nodes), nodes, dependents, degrees)
    ensures dependents.Keys == Names(nodes) && degrees.Keys == Names(nodes)
    ensures forall d, n | d in Names(nodes) && n in Names(nodes) :: multiset(dependents[d])[n] == Degree(nodes, n, {d})
    ensures forall n | n in Names(nodes) :: degrees[n] == Degree(nodes, n, Names(nodes))
    ensures forall d | d in Names(nodes) :: forall n | n in dependents[d] :: n in Names(nodes)
  {
  }

  method EmptyMaps(nodes: seq<Node>) returns (dependents: Dependents, degrees: Degrees)
    ensures Wholly(Names(nodes), [], dependents, degrees)
  {
    dependents, degrees := map[], map[];
    var i := 0;
    while i < |nodes|
      invariant i <= |nodes|
      invariant dependents == map n | n in Names(nodes[..i]) :: []
      invariant degrees == map n | n in Names(nodes[..i]) :: 0
    {
      assert nodes[..i + 1] == nodes[..i] + [nodes[i]];
      assert Names(nodes[..i + 1]) == Names(nodes[..i]) + {nodes[i].name};
      dependents := dependents[nodes[i].name := []];
      degrees := degrees[nodes[i].name := 0];
      i := i + 1;
    }
    assert nodes[..i] == nodes;
  }

  method CountNode(nodes: seq<Node>, i: nat, dependents: Dependents, degrees: Degrees)
    returns (dependents': Dependents, degrees': Degrees)
    requires i < |nodes| && Wholly(Names(nodes), nodes[..i], dependents, degrees)
    ensures Wholly(Names(nodes), nodes[..i + 1], dependents', degrees')
  {
    dependents', degrees' := dependents, degrees;
    StartNode(nodes, i, dependents, degrees);
    var j := 0;
    while j < |nodes[i].deps|
      invariant j <= |nodes[i].deps|
      invariant Partly(nodes, i, j, dependents', degrees')
    {
      dependents', degrees' := CountDependency(nodes, i, j, dependents', degrees');
      j := j + 1;
    }
    EndNode(nodes, i, dependents', degrees');
  }

  // ----- the queue -----

  method InitiallyReady(degrees: Degrees) returns (ready: seq<string>)
    ensures Distinct(ready)
    ensures forall n :: n in ready <==> n in degrees && degrees[n] == 0
  {
    ready := [];
    var todo := degrees.Keys;
    while todo != {}
      invariant todo <= degrees.Keys && Distinct(ready)
      invariant forall n :: n in ready <==> n in degrees && n !in todo && degrees[n] == 0
      decreases todo
    {
      var n :| n in todo;
      todo := todo - {n};
      if degrees[n] == 0 {
        ready := ready + [n];
      }
    }
  }

  /** Lowers the degree of every listed dependent; those that reach zero join the queue. */
  method Release(listed: seq<string>, degrees: Degrees, ready: seq<string>)
    returns (degrees': Degrees, ready': seq<string>)
    requires Ample(degrees, listed) && Distinct(ready) && Zero(degrees, ready)
    ensures Lowered(degrees, degrees', multiset(listed))
    ensures Distinct(ready') && Queues(degrees, ready, degrees', ready')
  {
    degrees', ready' := degrees, ready;
    var k := 0;
    assert listed[..0] == [];
    while k < |listed|
      invariant k <= |listed| && Lowered(degrees, degrees', multiset(listed[..k]))
      invariant Distinct(ready') && Queues(degrees, ready, degrees', ready')
    {
      StillCounted(listed, k, degrees, degrees');
      LowerOne(degrees, ready, degrees', ready', multiset(listed[..k]), listed[k]);
      ListedNext(listed, k);
      var n := listed[k];
      degrees' := degrees'[n := degrees'[n] - 1];
      if degrees'[n] == 0 {
        ready' := ready' + [n];
      }
      k := k + 1;
    }
    assert listed[..k] == listed;
  }

  /** Every listed name has a degree that is at least the number of times that it is listed. */
  ghost predicate Ample(degrees: Degrees, listed: seq<string>) {
    && (forall n | n in listed :: n in degrees)
    && forall n | n in degrees :: multiset(listed)[n] <= degrees[n]
  }

  ghost predicate Zero(degrees: Degrees, ready: seq<string>) {
    forall n | n in ready :: n in degrees && degrees[n] == 0
  }

  /** Every degree has been lowered by the number of times that its name was listed. */
  ghost predicate Lowered(degrees: Degrees, degrees': Degrees, listed: multiset<string>) {
    && degrees'.Keys == degrees.Keys
    && forall n | n in degrees :: degrees'[n] + listed[n] == degrees[n]
  }

  /** The queue has gained exactly the names whose degree has reached zero. */
  ghost predicate Queues(degrees: Degrees, ready: seq<string>, degrees': Degrees, ready': seq<string>)
    requires degrees'.Keys == degrees.Keys
  {
    forall n :: n in ready' <==> n in ready || (n in degrees && degrees[n] > 0 && degrees'[n] == 0)
  }

  lemma StillCounted(listed: seq<string>, k: nat, degrees: Degrees, degrees': Degrees)
    requires k < |listed| && Ample(degrees, listed) && Lowered(degrees, degrees', multiset(listed[..k]))
    ensures listed[k] in degrees && degrees'[listed[k]] > 0
  {
    assert listed == listed[..k] + [listed[k]] + listed[k + 1..];
  }

  lemma LowerOne(degrees: Degrees, ready: seq<string>, degrees': Degrees, ready': seq<string>,
                 listed: multiset<string>, n: string)
    requires Lowered(degrees, degrees', listed) && Queues(degrees, ready, degrees', ready')
    requires n in degrees && degrees'[n] > 0 && Distinct(ready')
    requires Zero(degrees, ready)
    ensures var lower := degrees'[n := degrees'[n] - 1];
            var queue := if lower[n] == 0 then ready' + [n] else ready';
            && Lowered(degrees, lower, listed + multiset{n})
            && Queues(degrees, ready, lower, queue) && Distinct(queue)
  {
  }

  lemma ListedNext(listed: seq<string>, k: nat)
    requires k < |listed|
    ensures multiset(listed[..k + 1]) == multiset(listed[..k]) + multiset{listed[k]}
  {
    assert listed[..k + 1] == listed[..k] + [listed[k]];
  }

  // ----- cycles -----

  /** What the search knows: `order` has been visited, `ready` is queued, and degrees count unvisited dependencies. */
  ghost predicate Searching(nodes: seq<Node>, order: seq<string>, ready: seq<string>, degrees: Degrees) {
    var alive := Names(nodes) - Elements(order);
    && degrees.Keys == Names(nodes)
    && Distinct(order) && Distinct(ready) && Elements(order) !! Elements(ready)
    && (forall n | n in Names(nodes) :: degrees[n] == Degree(nodes, n, alive))
    && (forall n :: n in order || n in ready <==> n in degrees && degrees[n] == 0)
  }

  function Elements(s: seq<string>): set<string> {
    set x | x in s
  }

  lemma {:induction false} DistinctCount(s: seq<string>)
    requires Distinct(s)
    ensures |Elements(s)| == |s|
  {
    if s != [] {
      var init, last := s[..|s| - 1], s[|s| - 1];
      DistinctCount(init);
      assert s == init + [last];
      assert last !in init;
      assert Elements(s) == Elements(init) + {last};
    }
  }

  /** The dependencies of a visited name were visited before it. */
  ghost predicate Sorted(nodes: seq<Node>, order: seq<string>) {
    forall d, n {:trigger Edge(nodes, d, n)} | Edge(nodes, d, n) && n in order ::
      d in order && Position(order, d) < Position(order, n)
  }

  /** Visiting a queued name whose dependencies are all visited keeps the order. */
  lemma VisitRespects(nodes: seq<Node>, order: seq<string>, name: string)
    requires Sorted(nodes, order)
    requires name !in order && forall d | Edge(nodes, d, name) :: d in order
    ensures Sorted(nodes, order + [name])
  {
    var order' := order + [name];
    forall d, n | Edge(nodes, d, n) && n in order' ensures d in order' && Position(order', d) < Position(order', n) {
      PositionAppend(order, name, d);
      PositionAppend(order, name, n);
    }
  }

  lemma {:induction false} PositionAppend(order: seq<string>, name: string, x: string)
    ensures x in order ==> Position(order + [name], x) == Position(order, x)
    ensures x !in order && x == name ==> Position(order + [name], x) == |order|
  {
    if order != [] {
      assert (order + [name])[1..] == order[1..] + [name];
      PositionAppend(order[1..], name, x);
    }
  }

  lemma ZeroDegree(nodes: seq<Node>, order: seq<string>, ready: seq<string>, degrees: Degrees, name: string)
    requires Searching(nodes, order, ready, degrees) && name in ready
    ensures forall d | Edge(nodes, d, name) :: d in order
  {
    DegreeIsEdge(nodes, name, Names(nodes) - Elements(order));
  }

  /** One round of the search: the front of the queue is visited and its dependents are released. */
  method Visit(nodes: seq<Node>, dependents: Dependents, ghost order: seq<string>, ready: seq<string>, degrees: Degrees)
    returns (ready': seq<string>, degrees': Degrees)
    requires Searching(nodes, order, ready, degrees) && ready != []
    requires dependents.Keys == Names(nodes)
    requires forall d, n | d in Names(nodes) && n in Names(nodes) :: multiset(dependents[d])[n] == Degree(nodes, n, {d})
    requires forall d | d in Names(nodes) :: forall n | n in dependents[d] :: n in Names(nodes)
    ensures Searching(nodes, order + [ready[0]], ready', degrees')
  {
    var current, rest := ready[0], ready[1..];
    ghost var alive := Names(nodes) - Elements(order);
    assert ready == [current] + rest;
    assert current in alive;
    assert alive - {current} == Names(nodes) - Elements(order + [current]);
    forall n | n in Names(nodes)
      ensures Degree(nodes, n, alive) == Degree(nodes, n, alive - {current}) + multiset(dependents[current])[n]
    {
      DegreeSplits(nodes, n, alive, current);
    }
    degrees', ready' := Release(dependents[current], degrees, rest);
    AfterVisit(nodes, order, ready, degrees, ready', degrees');
  }

  lemma AfterVisit(nodes: seq<Node>, order: seq<string>, ready: seq<string>, degrees: Degrees,
                   ready': seq<string>, degrees': Degrees)
    requires Searching(nodes, order, ready, degrees) && ready != [] && degrees'.Keys == degrees.Keys
    requires forall n | n in Names(nodes) ::
               degrees'[n] == Degree(nodes, n, Names(nodes) - Elements(order + [ready[0]])) <= degrees[n]
    requires Distinct(ready')
    requires forall n :: n in ready' <==> n in ready[1..] || (n in degrees && degrees[n] > 0 && degrees'[n] == 0)
    ensures Searching(nodes, order + [ready[0]], ready', degrees')
  {
    assert ready == [ready[0]] + ready[1..];
    assert ready[0] !in ready[1..];
    assert Elements(order + [ready[0]]) == Elements(order) + {ready[0]};
    assert Elements(ready') !! Elements(order + [ready[0]]);
  }

  lemma SearchStarts(nodes: seq<Node>, ready: seq<string>, degrees: Degrees)
    requires degrees.Keys == Names(nodes) && forall n | n in Names(nodes) :: degrees[n] == Degree(nodes, n, Names(nodes))
    requires Distinct(ready) && forall n :: n in ready <==> n in degrees && degrees[n] == 0
    ensures Searching(nodes, [], ready, degrees) && Sorted(nodes, [])
  {
    assert Names(nodes) - Elements([]) == Names(nodes);
  }

  lemma VisitSorted(nodes: seq<Node>, order: seq<string>, ready: seq<string>, degrees: Degrees)
    requires Searching(nodes, order, ready, degrees) && ready != [] && Sorted(nodes, order)
    ensures Sorted(nodes, order + [ready[0]]) && |order| < |Names(nodes)|
  {
    ZeroDegree(nodes, order, ready, degrees, ready[0]);
    assert ready[0] in Elements(ready) && ready[0] !in Elements(order);
    VisitRespects(nodes, order, ready[0]);
    OrderFits(nodes, order + [ready[0]]);
  }

  /** The loop shared by `has_stage_dependency_cycle` and `has_actor_dependency_cycle`. */
  method HasCycle(nodes: seq<Node>) returns (cyclic: bool)
    ensures cyclic <==> Cyclic(nodes)
  {
    var dependents, degrees := CountDependencies(nodes);
    var ready := InitiallyReady(degrees);
    var visited := 0;
    ghost var order: seq<string> := [];
    SearchStarts(nodes, ready, degrees);
    while ready != []
      invariant Searching(nodes, order, ready, degrees) && Sorted(nodes, order) && visited == |order|
      decreases |Names(nodes)| - |order|
    {
      VisitSorted(nodes, order, ready, degrees);
      ghost var current := ready[0];
      ready, degrees := Visit(nodes, dependents, order, ready, degrees);
      order := order + [current];
      visited := visited + 1;
    }
    cyclic := visited != |Names(nodes)|;
    SearchEnds(nodes, order, degrees);
  }

  lemma OrderFits(nodes: seq<Node>, order: seq<string>)
    requires Distinct(order) && Elements(order) <= Names(nodes)
    ensures |order| <= |Names(nodes)|
  {
    DistinctFits(order, Names(nodes));
  }

  lemma AllVisited(nodes: seq<Node>, order: seq<string>)
    requires Sorted(nodes, order) && Names(nodes) <= Elements(order)
    ensures !Cyclic(nodes)
  {
    forall d, n | Edge(nodes, d, n) ensures Position(order, d) < Position(order, n) {
      assert n in Names(nodes);
      assert n in order;
    }
    OrderedIsAcyclic(nodes, order);
  }

  lemma SomeLeft(nodes: seq<Node>, order: seq<string>, degrees: Degrees)
    requires Searching(nodes, order, [], degrees) && !(Names(nodes) <= Elements(order))
    ensures Cyclic(nodes)
  {
    var left := Names(nodes) - Elements(order);
    var missed :| missed in Names(nodes) && missed !in Elements(order);
    assert missed in left;
    forall n | n in left ensures Waits(nodes, n, left) {
      DegreeIsEdge(nodes, n, left);
    }
    StuckIsCyclic(nodes, left);
  }

  /** The order misses a name exactly if it is shorter than the list of names. */
  lemma MissesByCount(names: set<string>, order: seq<string>)
    requires Distinct(order) && Elements(order) <= names
    ensures |order| != |names| <==> !(names <= Elements(order))
  {
    DistinctCount(order);
    var left := names - Elements(order);
    assert names == Elements(order) + left;
  }

  lemma OnlyNames(nodes: seq<Node>, order: seq<string>, degrees: Degrees)
    requires Searching(nodes, order, [], degrees)
    ensures Distinct(order) && Elements(order) <= Names(nodes)
  {
    forall n | n in Elements(order) ensures n in Names(nodes) {
      assert n in order;
    }
  }

  lemma SearchEnds(nodes: seq<Node>, order: seq<string>, degrees: Degrees)
    requires Searching(nodes, order, [], degrees) && Sorted(nodes, order)
    ensures |order| != |Names(nodes)| <==> Cyclic(nodes)
  {
    OnlyNames(nodes, order, degrees);
    MissesByCount(Names(nodes), order);
    if Names(nodes) <= Elements(order) {
      AllVisited(nodes, order);
    } else {
      SomeLeft(nodes, order, degrees);
    }
  }

  // ----- actors -----

  datatype Actor = Actor(name: string, enabled: bool, required: seq<string>)

  /** The enabled actors as nodes of their dependency graph. */
  function EnabledNodes(actors: seq<Actor>): seq<Node> {
    if actors == [] then []
    else
      var rest := EnabledNodes(actors[..|actors| - 1]);
      var last := actors[|actors| - 1];
      if last.enabled then rest + [Node(last.name, last.required)] else rest
  }

  method EnabledActors(actors: seq<Actor>) returns (nodes: seq<Node>)
    ensures nodes == EnabledNodes(actors)
  {
    nodes := [];
    var i := 0;
    while i < |actors|
      invariant i <= |actors| && nodes == EnabledNodes(actors[..i])
    {
      assert actors[..i + 1][..i] == actors[..i];
      if actors[i].enabled {
        nodes := nodes + [Node(actors[i].name, actors[i].required)];
      }
      i := i + 1;
    }
    assert actors[..i] == actors;
  }

  /** An enabled actor requires an enabled one. */
  predicate Requires(actors: seq<Actor>, d: string, n: string) {
    && (exists i | 0 <= i < |actors| :: actors[i].enabled && actors[i].name == d)
    && exists j | 0 <= j < |actors| :: actors[j].enabled && actors[j].name == n && d in actors[j].required
  }

  /** The enabled actors, each with what it requires, make up the nodes. */
  lemma {:induction false} EnabledMeans(actors: seq<Actor>, node: Node)
    ensures node in EnabledNodes(actors) <==>
            exists i | 0 <= i < |actors| :: actors[i].enabled && node == Node(actors[i].name, actors[i].required)
  {
    if actors != [] {
      var init := actors[..|actors| - 1];
      EnabledMeans(init, node);
      assert forall i | 0 <= i < |init| :: init[i] == actors[i];
    }
  }

  lemma RequiresIsEdge(actors: seq<Actor>, d: string, n: string)
    ensures Edge(EnabledNodes(actors), d, n) <==> Requires(actors, d, n)
  {
    var nodes := EnabledNodes(actors);
    if Requires(actors, d, n) {
      var i :| 0 <= i < |actors| && actors[i].enabled && actors[i].name == d;
      var j :| 0 <= j < |actors| && actors[j].enabled && actors[j].name == n && d in actors[j].required;
      EnabledMeans(actors, Node(d, actors[i].required));
      EnabledMeans(actors, Node(n, actors[j].required));
      var k :| 0 <= k < |nodes| && nodes[k] == Node(d, actors[i].required);
      var l :| 0 <= l < |nodes| && nodes[l] == Node(n, actors[j].required);
    }
    if Edge(nodes, d, n) {
      var k :| 0 <= k < |nodes| && nodes[k].name == d;
      var l :| 0 <= l < |nodes| && nodes[l].name == n && d in nodes[l].deps;
      EnabledMeans(actors, nodes[k]);
      EnabledMeans(actors, nodes[l]);
    }
  }

  /** A chain of enabled actors, each requiring the one before it, that comes back to where it began. */
  ghost predicate RequireInACircle(actors: seq<Actor>, p: seq<string>) {
    |p| >= 2 && p[0] == p[|p| - 1] && forall k | 0 <= k < |p| - 1 :: Requires(actors, p[k], p[k + 1])
  }

  lemma CirclesAreCycles(actors: seq<Actor>)
    ensures Cyclic(EnabledNodes(actors)) <==> exists p :: RequireInACircle(actors, p)
  {
    forall d, n ensures Edge(EnabledNodes(actors), d, n) <==> Requires(actors, d, n) {
      RequiresIsEdge(actors, d, n);
    }
    if p: seq<string> :| |p| >= 2 && Path(EnabledNodes(actors), p) && p[0] == p[|p| - 1] {
      assert RequireInACircle(actors, p);
    }
    if p :| RequireInACircle(actors, p) {
      assert Path(EnabledNodes(actors), p);
    }
  }

  method HasActorDependencyCycle(actors: seq<Actor>) returns (cyclic: bool)
    ensures cyclic <==> Cyclic(EnabledNodes(actors))
    ensures cyclic <==> exists p :: RequireInACircle(actors, p)
  {
    var nodes := EnabledActors(actors);
    cyclic := HasCycle(nodes);
    CirclesAreCycles(actors);
  }

  /** The check for missing dependencies in `validate_actor_pipeline_configs`. */
  method MissesDependency(nodes: seq<Node>) returns (missing: bool)
    ensures missing <==> !Closed(nodes)
  {
    var i := 0;
    while i < |nodes|
      invariant i <= |nodes|
      invariant forall k | 0 <= k < i :: forall d | d in nodes[k].deps :: d in Names(nodes)
    {
      var j := 0;
      while j < |nodes[i].deps|
        invariant j <= |nodes[i].deps|
        invariant forall k | 0 <= k < j :: nodes[i].deps[k] in Names(nodes)
      {
        if nodes[i].deps[j] !in Names(nodes) {
          return true;
        }
        j := j + 1;
      }
      i := i + 1;
    }
    missing := false;
  }

  // ----- the second ordering -----

  predicate Listed(ordered: seq<Node>, k: nat, d: string)
    requires k <= |ordered|
  {
    exists l | 0 <= l < k :: ordered[l].name == d
  }

  /** Each node comes after everything that it depends on. */
  predicate DepsFirst(ordered: seq<Node>) {
    forall k: nat, d {:trigger Listed(ordered, k, d)} | k < |ordered| && d in ordered[k].deps :: Listed(ordered, k, d)
  }

  /** `ordered` lists the nodes at the distinct positions `picked`, each after everything that it depends on. */
  ghost predicate Ordering(nodes: seq<Node>, ordered: seq<Node>, picked: seq<nat>) {
    && |ordered| == |picked|
    && (forall k | 0 <= k < |picked| :: picked[k] < |nodes| && ordered[k] == nodes[picked[k]])
    && (forall k, l | 0 <= k < l < |ordered| :: ordered[k].name != ordered[l].name)
    && DepsFirst(ordered)
  }

  /** Nothing can be added: every node is listed by name or waits for a name that is not. */
  predicate Exhausted(nodes: seq<Node>, names: set<string>) {
    forall i {:trigger Held(nodes[i], names)} | 0 <= i < |nodes| :: Held(nodes[i], names)
  }

  predicate Held(node: Node, names: set<string>) {
    node.name in names || exists d | d in node.deps :: d !in names
  }

  method AllIn(deps: seq<string>, names: set<string>) returns (all: bool)
    ensures all <==> forall d | d in deps :: d in names
  {
    var j := 0;
    while j < |deps|
      invariant j <= |deps|
      invariant forall k | 0 <= k < j :: deps[k] in names
    {
      if deps[j] !in names {
        return false;
      }
      j := j + 1;
    }
    all := true;
  }

  lemma Append(nodes: seq<Node>, ordered: seq<Node>, picked: seq<nat>, i: nat)
    requires Ordering(nodes, ordered, picked) && i < |nodes|
    requires nodes[i].name !in Names(ordered) && forall d | d in nodes[i].deps :: d in Names(ordered)
    ensures Ordering(nodes, ordered + [nodes[i]], picked + [i])
    ensures Names(ordered + [nodes[i]]) == Names(ordered) + {nodes[i].name}
  {
    var longer := ordered + [nodes[i]];
    forall k: nat, d | k < |longer| && d in longer[k].deps ensures Listed(longer, k, d) {
      if k < |ordered| {
        assert Listed(ordered, k, d);
        var l :| 0 <= l < k && ordered[l].name == d;
        assert longer[l].name == d;
      } else {
        var l :| 0 <= l < |ordered| && ordered[l].name == d;
        assert longer[l].name == d;
      }
    }
    forall x | x in Names(ordered) + {nodes[i].name} ensures x in Names(longer) {
      if x in Names(ordered) {
        var l :| 0 <= l < |ordered| && ordered[l].name == x;
        assert longer[l].name == x;
      } else {
        assert longer[|ordered|].name == x;
      }
    }
  }

  /** One pass of `ordered_actors`. */
  method OrderingPass(nodes: seq<Node>, ordered: seq<Node>, names: set<string>, ghost picked: seq<nat>)
    returns (ordered': seq<Node>, names': set<string>, ghost picked': seq<nat>)
    requires Ordering(nodes, ordered, picked) && names == Names(ordered)
    ensures Ordering(nodes, ordered', picked') && names' == Names(ordered')
    ensures ordered <= ordered'
    ensures ordered' == ordered ==> Exhausted(nodes, names)
  {
    ordered', names', picked' := ordered, names, picked;
    var i := 0;
    while i < |nodes|
      invariant i <= |nodes| && Ordering(nodes, ordered', picked') && names' == Names(ordered') && ordered <= ordered'
      invariant ordered' == ordered ==> Exhausted(nodes[..i], names)
    {
      assert nodes[..i + 1] == nodes[..i] + [nodes[i]];
      var ready := AllIn(nodes[i].deps, names');
      if nodes[i].name !in names' && ready {
        Append(nodes, ordered', picked', i);
        ordered' := ordered' + [nodes[i]];
        names' := names' + {nodes[i].name};
        picked' := picked' + [i];
      }
      i := i + 1;
    }
    assert nodes[..i] == nodes;
  }

  /** What a successful ordering is: every node once, each after everything that it depends on. */
  ghost predicate IsOrderOf(ordered: seq<Node>, nodes: seq<Node>) {
    && multiset(ordered) == multiset(nodes)
    && DepsFirst(ordered)
  }

  /** When an ordering exists at all. */
  ghost predicate Orderable(nodes: seq<Node>) {
    UniqueNames(nodes) && Closed(nodes) && !Cyclic(nodes)
  }

  function NameList(nodes: seq<Node>): (r: seq<string>)
    ensures |r| == |nodes| && forall i | 0 <= i < |nodes| :: r[i] == nodes[i].name
  {
    seq(|nodes|, i requires 0 <= i < |nodes| => nodes[i].name)
  }

  lemma NameCount(nodes: seq<Node>)
    requires UniqueNames(nodes)
    ensures |Names(nodes)| == |nodes|
  {
    DistinctCount(NameList(nodes));
    assert Elements(NameList(nodes)) == Names(nodes) by {
      forall x | x in Names(nodes) ensures x in NameList(nodes) {
        var i :| 0 <= i < |nodes| && nodes[i].name == x;
        assert NameList(nodes)[i] == x;
      }
    }
  }

  /** A pass that adds nothing while nodes are missing shows that no ordering exists. */
  lemma ExhaustedFails(nodes: seq<Node>, ordered: seq<Node>, picked: seq<nat>)
    requires Ordering(nodes, ordered, picked) && |ordered| < |nodes| && Exhausted(nodes, Names(ordered))
    ensures !Orderable(nodes)
  {
    if UniqueNames(nodes) && Closed(nodes) {
      var left := Names(nodes) - Names(ordered);
      NameCount(nodes);
      NameCount(ordered);
      if left == {} {
        forall n | n in Names(nodes) ensures n in Names(ordered) {
          assert n !in left;
        }
        SubsetCount(Names(nodes), Names(ordered));
      }
      LeftIsStuck(nodes, Names(ordered), left);
      StuckIsCyclic(nodes, left);
    }
  }

  lemma LeftIsStuck(nodes: seq<Node>, names: set<string>, left: set<string>)
    requires Closed(nodes) && Exhausted(nodes, names) && left == Names(nodes) - names
    ensures Stuck(nodes, left)
  {
    forall n | n in left ensures Waits(nodes, n, left) {
      var i :| 0 <= i < |nodes| && nodes[i].name == n;
      assert Held(nodes[i], names);
      var d :| d in nodes[i].deps && d !in names;
      assert Edge(nodes, d, n);
    }
  }

  lemma SubsetCount(a: set<string>, b: set<string>)
    requires a <= b
    ensures |a| <= |b|
  {
    assert b == a + (b - a);
  }

  // ----- a full ordering is a permutation -----

  /** The nodes at the positions of a set, below a bound. */
  ghost function Selected(nodes: seq<Node>, at: set<nat>, n: nat): multiset<Node>
    requires n <= |nodes|
  {
    if n == 0 then multiset{}
    else if n - 1 in at then Selected(nodes, at, n - 1) + multiset{nodes[n - 1]}
    else Selected(nodes, at, n - 1)
  }

  lemma {:induction false} SelectMore(nodes: seq<Node>, at: set<nat>, i: nat, n: nat)
    requires n <= |nodes| && i !in at
    ensures Selected(nodes, at + {i}, n)
            == if i < n then Selected(nodes, at, n) + multiset{nodes[i]} else Selected(nodes, at, n)
  {
    if n > 0 {
      SelectMore(nodes, at, i, n - 1);
      assert n - 1 in at + {i} <==> n - 1 in at || n - 1 == i;
    }
  }

  lemma {:induction false} SelectAll(nodes: seq<Node>, at: set<nat>, n: nat)
    requires n <= |nodes| && forall i: nat | i < n :: i in at
    ensures Selected(nodes, at, n) == multiset(nodes[..n])
  {
    if n > 0 {
      SelectAll(nodes, at, n - 1);
      assert nodes[..n] == nodes[..n - 1] + [nodes[n - 1]];
    }
  }

  function Positions(picked: seq<nat>): set<nat> {
    set i | i in picked
  }

  lemma {:induction false} PickedSelects(nodes: seq<Node>, ordered: seq<Node>, picked: seq<nat>)
    requires Ordering(nodes, ordered, picked)
    ensures multiset(ordered) == Selected(nodes, Positions(picked), |nodes|)
    ensures |Positions(picked)| == |picked|
  {
    if picked == [] {
      SelectNone(nodes, |nodes|);
      assert ordered == [] && Positions(picked) == {};
    } else {
      var n := |picked| - 1;
      Shorten(nodes, ordered, picked);
      PickedSelects(nodes, ordered[..n], picked[..n]);
      assert ordered == ordered[..n] + [ordered[n]];
      PositionsMore(nodes, ordered, picked);
      SelectMore(nodes, Positions(picked[..n]), picked[n], |nodes|);
    }
  }

  lemma PositionsMore(nodes: seq<Node>, ordered: seq<Node>, picked: seq<nat>)
    requires Ordering(nodes, ordered, picked) && picked != []
    ensures var n := |picked| - 1;
            picked[n] !in Positions(picked[..n]) && Positions(picked) == Positions(picked[..n]) + {picked[n]}
  {
    var n := |picked| - 1;
    assert picked == picked[..n] + [picked[n]];
    assert picked[n] !in picked[..n];
  }

  lemma {:induction false} SelectNone(nodes: seq<Node>, n: nat)
    requires n <= |nodes|
    ensures Selected(nodes, {}, n) == multiset{}
  {
    if n > 0 {
      SelectNone(nodes, n - 1);
    }
  }

  lemma Shorten(nodes: seq<Node>, ordered: seq<Node>, picked: seq<nat>)
    requires Ordering(nodes, ordered, picked) && picked != []
    ensures Ordering(nodes, ordered[..|picked| - 1], picked[..|picked| - 1])
  {
    var shorter := ordered[..|picked| - 1];
    forall k: nat, d | k < |shorter| && d in shorter[k].deps ensures Listed(shorter, k, d) {
      assert Listed(ordered, k, d);
      var l :| 0 <= l < k && ordered[l].name == d;
      assert shorter[l].name == d;
    }
  }

  lemma {:induction false} FullSet(at: set<nat>, n: nat)
    requires (forall i | i in at :: i < n) && |at| >= n
    ensures |at| == n && forall i: nat | i < n :: i in at
  {
    if n == 0 {
      assert at == {};
    } else {
      FullSet(at - {n - 1}, n - 1);
    }
  }

  lemma FullOrdering(nodes: seq<Node>, ordered: seq<Node>, picked: seq<nat>)
    requires Ordering(nodes, ordered, picked) && |ordered| >= |nodes|
    ensures IsOrderOf(ordered, nodes) && Orderable(nodes)
  {
    PickedSelects(nodes, ordered, picked);
    FullSet(Positions(picked), |nodes|);
    SelectAll(nodes, Positions(picked), |nodes|);
    assert nodes[..|nodes|] == nodes;
    forall i: nat | i < |nodes| ensures i in picked {
      assert i in Positions(picked);
    }
    FullUnique(nodes, ordered, picked);
    FullClosed(nodes, ordered, picked);
    FullAcyclic(nodes, ordered, picked);
  }

  lemma FullUnique(nodes: seq<Node>, ordered: seq<Node>, picked: seq<nat>)
    requires Ordering(nodes, ordered, picked) && forall i: nat | i < |nodes| :: i in picked
    ensures UniqueNames(nodes)
  {
    forall i, j | 0 <= i < j < |nodes| ensures nodes[i].name != nodes[j].name {
      assert i in picked;
      var k :| 0 <= k < |picked| && picked[k] == i;
      assert j in picked;
      var l :| 0 <= l < |picked| && picked[l] == j;
      assert ordered[k] == nodes[i] && ordered[l] == nodes[j];
    }
  }

  lemma FullClosed(nodes: seq<Node>, ordered: seq<Node>, picked: seq<nat>)
    requires Ordering(nodes, ordered, picked) && forall i: nat | i < |nodes| :: i in picked
    ensures Closed(nodes)
  {
    forall i | 0 <= i < |nodes| ensures forall d | d in nodes[i].deps :: d in Names(nodes) {
      assert i in picked;
      var k :| 0 <= k < |picked| && picked[k] == i;
      forall d | d in nodes[i].deps ensures d in Names(nodes) {
        assert Listed(ordered, k, d);
        var l :| 0 <= l < k && ordered[l].name == d;
        assert nodes[picked[l]].name == d;
      }
    }
  }

  lemma {:induction false} PositionIs(order: seq<string>, k: nat)
    requires k < |order|
    ensures Position(order, order[k]) <= k
    ensures Distinct(order) ==> Position(order, order[k]) == k
  {
    if k > 0 {
      PositionIs(order[1..], k - 1);
      assert order[1..][k - 1] == order[k];
    }
  }

  lemma FullAcyclic(nodes: seq<Node>, ordered: seq<Node>, picked: seq<nat>)
    requires Ordering(nodes, ordered, picked) && forall i: nat | i < |nodes| :: i in picked
    ensures !Cyclic(nodes)
  {
    var order := NameList(ordered);
    forall d, n | Edge(nodes, d, n) ensures Position(order, d) < Position(order, n) {
      var i :| 0 <= i < |nodes| && nodes[i].name == n && d in nodes[i].deps;
      assert i in picked;
      var k :| 0 <= k < |picked| && picked[k] == i;
      assert Listed(ordered, k, d);
      var l :| 0 <= l < k && ordered[l].name == d;
      PositionIs(order, k);
      PositionIs(order, l);
      assert order[k] == n && order[l] == d;
    }
    OrderedIsAcyclic(nodes, order);
  }

  /** `ordered_actors` succeeds exactly on uniquely named actors without missing dependencies and cycles. */
  method OrderedActors(nodes: seq<Node>) returns (result: Option<seq<Node>>)
    ensures result.Some? <==> Orderable(nodes)
    ensures result.Some? ==> IsOrderOf(result.value, nodes)
  {
    var ordered, names := [], {};
    ghost var picked: seq<nat> := [];
    while |ordered| < |nodes|
      invariant Ordering(nodes, ordered, picked) && names == Names(ordered)
      decreases |nodes| - |ordered|
    {
      var before := |ordered|;
      ghost var was := ordered;
      ordered, names, picked := OrderingPass(nodes, ordered, names, picked);
      if |ordered| == before {
        assert ordered == was;
        ExhaustedFails(nodes, ordered, picked);
        return None;
      }
    }
    FullOrdering(nodes, ordered, picked);
    result := Some(ordered);
  }

  /** Validation and builder together: on uniquely named actors the second ordering fails only after a reported error. */
  method ValidateAndOrder(actors: seq<Actor>) returns (errors: bool, ordered: Option<seq<Node>>)
    ensures errors <==> !Closed(EnabledNodes(actors)) || Cyclic(EnabledNodes(actors))
    ensures UniqueNames(EnabledNodes(actors)) ==> (ordered.None? <==> errors)
    ensures ordered.Some? ==> IsOrderOf(ordered.value, EnabledNodes(actors))
  {
    var nodes := EnabledActors(actors);
    var missing := MissesDependency(nodes);
    var cyclic := HasActorDependencyCycle(actors);
    errors := missing || cyclic;
    ordered := OrderedActors(nodes);
  }
}
