/**
 Dependency graphs as the configuration declares them: a list of named nodes with the names that they depend on.
 Names may repeat, a dependency may be listed twice, name its own node, or name nothing that exists.
 */
module Graphs {
  datatype Node = Node(name: string, deps: seq<string>)

  function Names(nodes: seq<Node>): set<string> {
    set i | 0 <= i < |nodes| :: nodes[i].name
  }

  /** `dep` is a known name that a node called `name` depends on. */
  predicate Edge(nodes: seq<Node>, dep: string, name: string) {
    dep in Names(nodes) && exists i | 0 <= i < |nodes| :: nodes[i].name == name && dep in nodes[i].deps
  }

  /** Every name on the path depends on the one before it. */
  predicate Path(nodes: seq<Node>, p: seq<string>) {
    forall i | 0 <= i < |p| - 1 :: Edge(nodes, p[i], p[i + 1])
  }

  ghost predicate Cyclic(nodes: seq<Node>) {
    exists p: seq<string> :: |p| >= 2 && Path(nodes, p) && p[0] == p[|p| - 1]
  }

  predicate UniqueNames(nodes: seq<Node>) {
    forall i, j | 0 <= i < j < |nodes| :: nodes[i].name != nodes[j].name
  }

  /** No node depends on a name that does not exist. */
  predicate Closed(nodes: seq<Node>) {
    forall i | 0 <= i < |nodes| :: forall d | d in nodes[i].deps :: d in Names(nodes)
  }

  // ----- ordered graphs have no cycle -----

  function Position(order: seq<string>, name: string): (i: nat)
    ensures i <= |order|
    ensures i < |order| <==> name in order
    ensures i < |order| ==> order[i] == name
  {
    if order == [] then 0 else if order[0] == name then 0 else 1 + Position(order[1..], name)
  }

  /** Every dependency on a known name comes earlier. */
  ghost predicate Respects(nodes: seq<Node>, order: seq<string>) {
    forall d, n | Edge(nodes, d, n) :: Position(order, d) < Position(order, n)
  }

  lemma {:induction false} PathClimbs(nodes: seq<Node>, order: seq<string>, p: seq<string>, i: nat, j: nat)
    requires Respects(nodes, order) && Path(nodes, p) && i < j < |p|
    ensures Position(order, p[i]) < Position(order, p[j])
  {
    assert Edge(nodes, p[j - 1], p[j]);
    if i < j - 1 {
      PathClimbs(nodes, order, p, i, j - 1);
    }
  }

  lemma OrderedIsAcyclic(nodes: seq<Node>, order: seq<string>)
    requires Respects(nodes, order)
    ensures !Cyclic(nodes)
  {
    if p: seq<string> :| |p| >= 2 && Path(nodes, p) && p[0] == p[|p| - 1] {
      PathClimbs(nodes, order, p, 0, |p| - 1);
    }
  }

  // ----- stuck graphs have a cycle -----

  /** Every name in the set has a dependency in the set. */
  ghost predicate Stuck(nodes: seq<Node>, stuck: set<string>) {
    forall n {:trigger Waits(nodes, n, stuck)} | n in stuck :: Waits(nodes, n, stuck)
  }

  ghost predicate Waits(nodes: seq<Node>, name: string, stuck: set<string>) {
    exists d :: d in stuck && Edge(nodes, d, name)
  }

  predicate Distinct(p: seq<string>) {
    forall i, j | 0 <= i < j < |p| :: p[i] != p[j]
  }

  lemma {:induction false} DistinctFits(p: seq<string>, names: set<string>)
    requires Distinct(p) && forall i | 0 <= i < |p| :: p[i] in names
    ensures |p| <= |names|
  {
    if p != [] {
      var last := p[|p| - 1];
      DistinctFits(p[..|p| - 1], names - {last});
    }
  }

  /** Walking from dependency to dependency inside a finite set closes a cycle. */
  lemma StuckIsCyclic(nodes: seq<Node>, stuck: set<string>)
    requires stuck != {} && Stuck(nodes, stuck)
    ensures Cyclic(nodes)
  {
    var start :| start in stuck;
    WalkBack(nodes, stuck, [start]);
  }

  lemma {:induction false} WalkBack(nodes: seq<Node>, stuck: set<string>, p: seq<string>)
    requires Stuck(nodes, stuck) && p != [] && Path(nodes, p) && Distinct(p)
    requires forall i | 0 <= i < |p| :: p[i] in stuck
    ensures Cyclic(nodes)
    decreases |stuck| + 1 - |p|
  {
    DistinctFits(p, stuck);
    assert Waits(nodes, p[0], stuck);
    var d :| d in stuck && Edge(nodes, d, p[0]);
    var longer := [d] + p;
    assert Path(nodes, longer) by {
      forall i | 0 <= i < |longer| - 1 ensures Edge(nodes, longer[i], longer[i + 1]) {
        if i > 0 {
          assert Edge(nodes, p[i - 1], p[i]);
        }
      }
    }
    if d in p {
      var k := Position(p, d);
      var loop := longer[..k + 2];
      assert loop[k + 1] == p[k] == d && loop[0] == d;
      assert Path(nodes, loop) by {
        forall i | 0 <= i < |loop| - 1 ensures Edge(nodes, loop[i], loop[i + 1]) {
          assert Edge(nodes, longer[i], longer[i + 1]);
        }
      }
    } else {
      DistinctFits(longer, stuck);
      WalkBack(nodes, stuck, longer);
    }
  }

  // ----- degrees -----

  /** How often the names of a set occur in a list. */
  function CountIn(deps: seq<string>, alive: set<string>): nat {
    if deps == [] then 0
    else CountIn(deps[..|deps| - 1], alive) + if deps[|deps| - 1] in alive then 1 else 0
  }

  /** The number of declared dependencies of `name` on names in the set. */
  function Degree(nodes: seq<Node>, name: string, alive: set<string>): nat {
    if nodes == [] then 0
    else
      var last := nodes[|nodes| - 1];
      Degree(nodes[..|nodes| - 1], name, alive) + if last.name == name then CountIn(last.deps, alive) else 0
  }

  lemma {:induction false} CountSplits(deps: seq<string>, alive: set<string>, d: string)
    requires d in alive
    ensures CountIn(deps, alive) == CountIn(deps, alive - {d}) + CountIn(deps, {d})
  {
    if deps != [] {
      CountSplits(deps[..|deps| - 1], alive, d);
    }
  }

  lemma {:induction false} DegreeSplits(nodes: seq<Node>, name: string, alive: set<string>, d: string)
    requires d in alive
    ensures Degree(nodes, name, alive) == Degree(nodes, name, alive - {d}) + Degree(nodes, name, {d})
  {
    if nodes != [] {
      DegreeSplits(nodes[..|nodes| - 1], name, alive, d);
      CountSplits(nodes[|nodes| - 1].deps, alive, d);
    }
  }

  lemma {:induction false} CountPositive(deps: seq<string>, alive: set<string>)
    ensures CountIn(deps, alive) > 0 <==> exists d :: d in alive && d in deps
  {
    if deps != [] {
      var last := deps[|deps| - 1];
      CountPositive(deps[..|deps| - 1], alive);
      assert deps == deps[..|deps| - 1] + [last];
    }
  }

  lemma {:induction false} DegreePositive(nodes: seq<Node>, name: string, alive: set<string>)
    ensures Degree(nodes, name, alive) > 0 <==>
            exists i, d :: 0 <= i < |nodes| && nodes[i].name == name && d in alive && d in nodes[i].deps
  {
    if nodes != [] {
      var init, last := nodes[..|nodes| - 1], nodes[|nodes| - 1];
      DegreePositive(init, name, alive);
      CountPositive(last.deps, alive);
      if last.name == name && CountIn(last.deps, alive) > 0 {
        var d :| d in alive && d in last.deps;
        assert nodes[|nodes| - 1].name == name && d in nodes[|nodes| - 1].deps;
      }
      forall i, d | 0 <= i < |init| && init[i].name == name && d in alive && d in init[i].deps
        ensures exists k, e :: 0 <= k < |nodes| && nodes[k].name == name && e in alive && e in nodes[k].deps
      {
        assert nodes[i] == init[i];
      }
    }
  }

  /** A positive degree over known names is an edge. */
  lemma DegreeIsEdge(nodes: seq<Node>, name: string, alive: set<string>)
    requires alive <= Names(nodes)
    ensures Degree(nodes, name, alive) > 0 <==> exists d :: d in alive && Edge(nodes, d, name)
  {
    DegreePositive(nodes, name, alive);
    if d :| d in alive && Edge(nodes, d, name) {
      var i :| 0 <= i < |nodes| && nodes[i].name == name && d in nodes[i].deps;
    }
    if Degree(nodes, name, alive) > 0 {
      var i, d :| 0 <= i < |nodes| && nodes[i].name == name && d in alive && d in nodes[i].deps;
      assert Edge(nodes, d, name);
    }
  }
}
