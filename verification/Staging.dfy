/**
 Staging an actor package: the worklist that collects the library and the private dependencies it needs, and the
 rewriting of their dependency lists.
 */
module Staging {
  import opened Wrappers
  import opened Identities
  import opened Packages

  datatype Edge = Edge(original: string, key: string)

  datatype Object = Object(source: string, edges: seq<Edge>)

  datatype Problem = Uninspectable | IdentityChanged(name: string) | NotLive(name: string) | Conflict(name: string)

  datatype Result = Staged(objects: seq<Object>, index: map<string, nat>, owned: Table) | Failed(problem: Problem)

  function EdgesOf(pkg: Package, source: string, needed: seq<string>): (edges: seq<Edge>)
    ensures forall e | e in edges :: e.original in needed && PrivateTarget(pkg, source, e.original) == Some(e.key)
    ensures forall n | n in needed && PrivateTarget(pkg, source, n).Some? ::
              Edge(n, PrivateTarget(pkg, source, n).value) in edges
  {
    if needed == [] then []
    else
      var last := needed[|needed| - 1];
      assert needed == needed[..|needed| - 1] + [last];
      var init := EdgesOf(pkg, source, needed[..|needed| - 1]);
      var target := PrivateTarget(pkg, source, last);
      if target.Some? then init + [Edge(last, target.value)] else init
  }

  /** The set contains whatever private dependencies its members need. */
  ghost predicate ClosedUnder(pkg: Package, files: set<string>) {
    forall s, n | s in files && pkg.needed(s).Some? && n in pkg.needed(s).value && PrivateTarget(pkg, s, n).Some? ::
      PrivateTarget(pkg, s, n).value in files
  }

  function Sources(objects: seq<Object>): set<string> {
    set i | 0 <= i < |objects| :: objects[i].source
  }

  function SourceList(objects: seq<Object>): (r: seq<string>)
    ensures |r| == |objects| && forall i | 0 <= i < |objects| :: r[i] == objects[i].source
  {
    seq(|objects|, i requires 0 <= i < |objects| => objects[i].source)
  }

  /** The map sends every source to its one object. */
  ghost predicate Indexed(objects: seq<Object>, index: map<string, nat>) {
    && (forall i | 0 <= i < |objects| :: objects[i].source in index && index[objects[i].source] == i)
    && (forall k | k in index :: index[k] < |objects| && objects[index[k]].source == k)
  }

  /** Every closed set with the library in it contains the source. */
  ghost predicate Inevitable(pkg: Package, library: string, source: string) {
    forall files: set<string> {:trigger ClosedUnder(pkg, files)} | library in files && ClosedUnder(pkg, files) :: source in files
  }

  ghost predicate AllInevitable(pkg: Package, library: string, objects: seq<Object>) {
    forall i | 0 <= i < |objects| :: Inevitable(pkg, library, objects[i].source)
  }

  /** The object lists exactly its private dependencies, and all of them are known. */
  ghost predicate Wired(pkg: Package, o: Object, index: map<string, nat>) {
    && pkg.needed(o.source).Some?
    && o.edges == EdgesOf(pkg, o.source, pkg.needed(o.source).value)
    && forall e | e in o.edges :: e.key in index
  }

  /** What staging produces: the least closed set with the library in it, fully wired. */
  ghost predicate IsClosure(pkg: Package, library: string, objects: seq<Object>, index: map<string, nat>) {
    && objects != [] && objects[0].source == library
    && Indexed(objects, index)
    && (forall i | 0 <= i < |objects| :: Wired(pkg, objects[i], index))
    && ClosedUnder(pkg, Sources(objects))
    && AllInevitable(pkg, library, objects)
  }

  lemma TargetInevitable(pkg: Package, library: string, source: string, needed: seq<string>, name: string)
    requires Inevitable(pkg, library, source) && pkg.needed(source) == Some(needed) && name in needed
    requires PrivateTarget(pkg, source, name).Some?
    ensures Inevitable(pkg, library, PrivateTarget(pkg, source, name).value)
  {
  }

  lemma {:induction false} FewObjects(objects: seq<Object>, index: map<string, nat>, files: set<string>)
    requires Indexed(objects, index) && forall i | 0 <= i < |objects| :: objects[i].source in files
    ensures |objects| <= |files|
  {
    var all := set i | 0 <= i < |objects| :: objects[i].source;
    DistinctSources(objects, index, |objects|);
    assert files == all + (files - all);
  }

  lemma {:induction false} DistinctSources(objects: seq<Object>, index: map<string, nat>, n: nat)
    requires Indexed(objects, index) && n <= |objects|
    ensures |set i | 0 <= i < n :: objects[i].source| == n
  {
    if n > 0 {
      DistinctSources(objects, index, n - 1);
      var before := set i | 0 <= i < n - 1 :: objects[i].source;
      assert (set i | 0 <= i < n :: objects[i].source) == before + {objects[n - 1].source};
      assert objects[n - 1].source !in before;
    }
  }

  // ----- dependencies that stay owned by the process -----

  /** A reached library lists the name, which is not private to the package. */
  ghost predicate Lists(pkg: Package, library: string, source: string, name: string) {
    && Inevitable(pkg, library, source)
    && pkg.needed(source).Some? && name in pkg.needed(source).value && PrivateTarget(pkg, source, name).None?
  }

  /** What has to be true of a package for staging to report the problem. */
  ghost predicate Justified(pkg: Package, library: string, expected: Table, problem: Problem) {
    match problem
    case Uninspectable => exists s :: Inevitable(pkg, library, s) && pkg.needed(s).None?
    case IdentityChanged(n) => exists s :: Lists(pkg, library, s, n) && Changed(pkg, expected, s, n)
    case NotLive(n) => exists s :: Lists(pkg, library, s, n) && BundledButNotLive(pkg, s, n)
    case Conflict(n) =>
      exists s, t :: Lists(pkg, library, s, n) && Lists(pkg, library, t, n)
                     && Clashing(Entry(n, pkg.identity(s, n)), Entry(n, pkg.identity(t, n)))
                     && pkg.identity(s, n) != pkg.identity(t, n)
  }

  /** Every collected identity was found for some reached library. */
  ghost predicate OwnedByReached(pkg: Package, library: string, owned: Table) {
    forall n | n in owned :: exists s :: Lists(pkg, library, s, n) && pkg.identity(s, n) == owned[n]
  }

  /** The identity checks of a dependency that stays owned by the process. */
  method CheckOwned(pkg: Package, source: string, name: string, expected: Table, owned: Table)
    returns (problem: Option<Problem>, owned': Table)
    ensures problem == if Changed(pkg, expected, source, name) then Some(IdentityChanged(name))
                       else if BundledButNotLive(pkg, source, name) then Some(NotLive(name))
                       else if Emplaced(owned, Entry(name, pkg.identity(source, name))).None? then Some(Conflict(name))
                       else None
    ensures problem.None? <==>
              var found, id := pkg.resolve(source, name), pkg.identity(source, name);
              && (name in expected ==> id.digest != "" && id.digest == expected[name].digest)
              && (found.Some? && pkg.within(found.value) ==> id.digest != "")
              && (name in owned && owned[name].digest != "" && id.digest != "" ==> owned[name] == id)
    ensures problem.None? ==> owned' == if name in owned then owned else owned[name := pkg.identity(source, name)]
    ensures problem.None? ==> Emplaced(owned, Entry(name, pkg.identity(source, name))) == Some(owned')
  {
    owned' := owned;
    var id := pkg.identity(source, name);
    if name in expected && (id.digest == "" || id.digest != expected[name].digest) {
      return Some(IdentityChanged(name)), owned;
    }
    var found := pkg.resolve(source, name);
    if found.Some? && pkg.within(found.value) && id.digest == "" {
      return Some(NotLive(name)), owned;
    }
    problem := None;
    if name !in owned {
      owned' := owned[name := id];
    } else if owned[name] != id && owned[name].digest != "" && id.digest != "" {
      problem := Some(Conflict(name));
    }
  }

  /** Whether the worklist is sound when the first `done` objects have been inspected. */
  ghost predicate Progress(pkg: Package, library: string, objects: seq<Object>, index: map<string, nat>, done: nat,
                           files: set<string>)
  {
    && done <= |objects| && objects != [] && objects[0].source == library
    && Indexed(objects, index) && AllInevitable(pkg, library, objects)
    && (forall i | 0 <= i < |objects| :: objects[i].source in files)
    && (forall i | 0 <= i < done :: Wired(pkg, objects[i], index))
  }

  /** The worklist follows the order of discovery, and the table holds the identities met so far. */
  ghost predicate Follows(pkg: Package, library: string, objects: seq<Object>, owned: Table, at: nat) {
    && at <= |objects| && SourceList(objects) == Discovered(pkg, library, at)
    && EmplacedAll(AllShared(pkg, Discovered(pkg, library, at)[..at])) == Some(owned)
  }

  /** The same in the middle of a list: `found` and `before` are the files and identities known when it began. */
  ghost predicate FollowsTo(pkg: Package, found: seq<string>, before: seq<Entry>, objects: seq<Object>, owned: Table,
                            source: string, needed: seq<string>, k: nat)
    requires k <= |needed|
  {
    && SourceList(objects) == AddTargets(pkg, found, source, needed[..k])
    && EmplacedAll(Met(pkg, before, source, needed, k)) == Some(owned)
  }

  /** The files and identities that are known when the list of the file with number `at` is begun. */
  ghost predicate Known(pkg: Package, library: string, at: nat, found: seq<string>, before: seq<Entry>) {
    found == Discovered(pkg, library, at) && at < |found| && before == AllShared(pkg, found[..at])
  }

  lemma ListBegins(pkg: Package, library: string, objects: seq<Object>, owned: Table, at: nat)
    returns (found: seq<string>, before: seq<Entry>)
    requires at < |objects| && Follows(pkg, library, objects, owned, at)
    ensures Known(pkg, library, at, found, before) && found[at] == objects[at].source
    ensures FollowsTo(pkg, found, before, objects, owned, found[at], Listed(pkg, found[at]), 0)
  {
    found := Discovered(pkg, library, at);
    before := AllShared(pkg, found[..at]);
    assert Met(pkg, before, found[at], Listed(pkg, found[at]), 0) == before;
  }

  lemma ListEnds(pkg: Package, library: string, found: seq<string>, before: seq<Entry>, objects: seq<Object>,
                 owned: Table, at: nat, edges: seq<Edge>)
    requires Known(pkg, library, at, found, before) && at < |objects|
    requires objects[at].source == found[at]
    requires var needed := Listed(pkg, found[at]); FollowsTo(pkg, found, before, objects, owned, found[at], needed, |needed|)
    ensures Follows(pkg, library, objects[at := Object(objects[at].source, edges)], owned, at + 1)
  {
    var next, needed := Discovered(pkg, library, at + 1), Listed(pkg, found[at]);
    assert needed[..|needed|] == needed;
    TargetsGrow(pkg, found, found[at], needed);
    assert next[..at] == found[..at] && next[at] == found[at];
    AllSharedNext(pkg, next, at);
    assert SourceList(objects[at := Object(objects[at].source, edges)]) == SourceList(objects);
  }

  lemma TargetFollows(pkg: Package, found: seq<string>, before: seq<Entry>, objects: seq<Object>, owned: Table,
                      source: string, needed: seq<string>, k: nat, objects': seq<Object>)
    requires k < |needed| && FollowsTo(pkg, found, before, objects, owned, source, needed, k)
    requires PrivateTarget(pkg, source, needed[k]).Some?
    requires Joined(objects, objects', PrivateTarget(pkg, source, needed[k]).value)
    ensures FollowsTo(pkg, found, before, objects', owned, source, needed, k + 1)
  {
    OneAdded(pkg, found, source, needed, k);
    OneMet(pkg, before, source, needed, k);
  }

  /** The source has joined the worklist, unless it was there. */
  predicate Joined(objects: seq<Object>, objects': seq<Object>, source: string) {
    SourceList(objects')
    == if source in SourceList(objects) then SourceList(objects) else SourceList(objects) + [source]
  }

  lemma OwnedFollows(pkg: Package, found: seq<string>, before: seq<Entry>, objects: seq<Object>, owned: Table,
                     source: string, needed: seq<string>, k: nat, owned': Table)
    requires k < |needed| && FollowsTo(pkg, found, before, objects, owned, source, needed, k)
    requires PrivateTarget(pkg, source, needed[k]).None?
    requires Emplaced(owned, Entry(needed[k], pkg.identity(source, needed[k]))) == Some(owned')
    ensures FollowsTo(pkg, found, before, objects, owned', source, needed, k + 1)
  {
    OneAdded(pkg, found, source, needed, k);
    OneMet(pkg, before, source, needed, k);
    AppendEmplaced(Met(pkg, before, source, needed, k), Entry(needed[k], pkg.identity(source, needed[k])));
  }

  lemma AppendEmplaced(entries: seq<Entry>, e: Entry)
    requires EmplacedAll(entries).Some?
    ensures EmplacedAll(entries + [e]) == Emplaced(EmplacedAll(entries).value, e)
  {
    assert (entries + [e])[..|entries|] == entries;
  }

  /** The entry is rejected by itself, or it conflicts with those before it. */
  ghost predicate Rejected(pkg: Package, expected: Table, before: seq<Entry>, source: string, needed: seq<string>) {
    !Checked(pkg, expected, source, needed)
    || exists k | 0 <= k <= |needed| :: !FirstDecides(Met(pkg, before, source, needed, k))
  }

  lemma EntryRejected(pkg: Package, expected: Table, found: seq<string>, before: seq<Entry>, objects: seq<Object>,
                      owned: Table, source: string, needed: seq<string>, k: nat)
    requires k < |needed| && FollowsTo(pkg, found, before, objects, owned, source, needed, k)
    requires PrivateTarget(pkg, source, needed[k]).None?
    requires Changed(pkg, expected, source, needed[k]) || BundledButNotLive(pkg, source, needed[k])
             || Emplaced(owned, Entry(needed[k], pkg.identity(source, needed[k]))).None?
    ensures Rejected(pkg, expected, before, source, needed)
  {
    if !Changed(pkg, expected, source, needed[k]) && !BundledButNotLive(pkg, source, needed[k]) {
      OneMet(pkg, before, source, needed, k);
      AppendEmplaced(Met(pkg, before, source, needed, k), Entry(needed[k], pkg.identity(source, needed[k])));
      EmplaceSucceedsIffFirstDecides(Met(pkg, before, source, needed, k + 1));
    }
  }

  /** A package with a rejected entry cannot be staged. */
  lemma RejectionIsFinal(pkg: Package, library: string, expected: Table, found: seq<string>, before: seq<Entry>,
                         at: nat, size: nat)
    requires at <= size && Known(pkg, library, at, found, before)
    requires pkg.needed(found[at]).Some? ==> Rejected(pkg, expected, before, found[at], Listed(pkg, found[at]))
    ensures !Stageable(pkg, library, expected, size)
  {
    if Sound(pkg, expected, found[at]) {
      var k :| 0 <= k <= |Listed(pkg, found[at])| && !FirstDecides(Met(pkg, before, found[at], Listed(pkg, found[at]), k));
      ConflictIsFinal(pkg, library, expected, at, k, size);
    } else {
      UnsoundIsFinal(pkg, library, expected, at, size);
    }
  }

  /** The worklist in the middle of the list of the object with number `at`, before its entry number `k`. */
  ghost predicate Midway(pkg: Package, library: string, expected: Table, objects: seq<Object>, index: map<string, nat>,
                         owned: Table, at: nat, source: string, needed: seq<string>, k: nat, edges: seq<Edge>,
                         files: set<string>, found: seq<string>, before: seq<Entry>)
  {
    && at < |objects| && k <= |needed| && objects[at].source == source && pkg.needed(source) == Some(needed)
    && Progress(pkg, library, objects, index, at, files) && OwnedByReached(pkg, library, owned)
    && FollowsTo(pkg, found, before, objects, owned, source, needed, k)
    && Checked(pkg, expected, source, needed[..k])
    && edges == EdgesOf(pkg, source, needed[..k]) && forall e | e in edges :: e.key in index
  }

  lemma EntryListed(pkg: Package, expected: Table, source: string, needed: seq<string>, k: nat)
    requires k < |needed| && Checked(pkg, expected, source, needed[..k])
    requires PrivateTarget(pkg, source, needed[k]).None? ==>
               !Changed(pkg, expected, source, needed[k]) && !BundledButNotLive(pkg, source, needed[k])
    ensures Checked(pkg, expected, source, needed[..k + 1])
    ensures EdgesOf(pkg, source, needed[..k + 1])
            == if PrivateTarget(pkg, source, needed[k]).Some?
               then EdgesOf(pkg, source, needed[..k]) + [Edge(needed[k], PrivateTarget(pkg, source, needed[k]).value)]
               else EdgesOf(pkg, source, needed[..k])
  {
    assert needed[..k + 1][..k] == needed[..k];
    assert needed[..k + 1] == needed[..k] + [needed[k]];
  }

  lemma TargetInspected(pkg: Package, library: string, expected: Table, objects: seq<Object>, index: map<string, nat>,
                        owned: Table, at: nat, source: string, needed: seq<string>, k: nat, edges: seq<Edge>,
                        files: set<string>, found: seq<string>, before: seq<Entry>,
                        objects': seq<Object>, index': map<string, nat>, target: string)
    requires Midway(pkg, library, expected, objects, index, owned, at, source, needed, k, edges, files, found, before)
    requires k < |needed| && PrivateTarget(pkg, source, needed[k]) == Some(target)
    requires Progress(pkg, library, objects', index', at, files) && objects <= objects' && Joined(objects, objects', target)
    requires target in index' && forall key | key in index :: key in index'
    ensures Midway(pkg, library, expected, objects', index', owned, at, source, needed, k + 1,
                   edges + [Edge(needed[k], target)], files, found, before)
  {
    TargetFollows(pkg, found, before, objects, owned, source, needed, k, objects');
    EntryListed(pkg, expected, source, needed, k);
  }

  lemma OwnedInspected(pkg: Package, library: string, expected: Table, objects: seq<Object>, index: map<string, nat>,
                       owned: Table, at: nat, source: string, needed: seq<string>, k: nat, edges: seq<Edge>,
                       files: set<string>, found: seq<string>, before: seq<Entry>, owned': Table)
    requires Midway(pkg, library, expected, objects, index, owned, at, source, needed, k, edges, files, found, before)
    requires k < |needed| && PrivateTarget(pkg, source, needed[k]).None? && OwnedByReached(pkg, library, owned')
    requires !Changed(pkg, expected, source, needed[k]) && !BundledButNotLive(pkg, source, needed[k])
    requires Emplaced(owned, Entry(needed[k], pkg.identity(source, needed[k]))) == Some(owned')
    ensures Midway(pkg, library, expected, objects, index, owned', at, source, needed, k + 1, edges, files, found, before)
  {
    OwnedFollows(pkg, found, before, objects, owned, source, needed, k, owned');
    EntryListed(pkg, expected, source, needed, k);
  }

  /** Inspecting one entry of an object's dependency list. */
  method InspectEntry(pkg: Package, library: string, expected: Table, objects: seq<Object>, index: map<string, nat>,
                      owned: Table, at: nat, source: string, needed: seq<string>, k: nat, edges: seq<Edge>,
                      ghost files: set<string>, ghost found: seq<string>, ghost before: seq<Entry>)
    returns (problem: Option<Problem>, objects': seq<Object>, index': map<string, nat>, owned': Table, edges': seq<Edge>)
    requires Finite(pkg, library, files) && k < |needed|
    requires Midway(pkg, library, expected, objects, index, owned, at, source, needed, k, edges, files, found, before)
    ensures problem.Some? ==> Justified(pkg, library, expected, problem.value)
    ensures problem.Some? ==> Rejected(pkg, expected, before, source, needed)
    ensures problem.None? ==>
              && objects <= objects'
              && Midway(pkg, library, expected, objects', index', owned', at, source, needed, k + 1, edges', files, found, before)
  {
    problem, objects', index', owned', edges' := None, objects, index, owned, edges;
    var name := needed[k];
    var target := PrivateTarget(pkg, source, name);
    if target.Some? {
      objects', index' := Add(pkg, library, objects, index, at, source, name, needed, target.value, files);
      edges' := edges + [Edge(name, target.value)];
      TargetInspected(pkg, library, expected, objects, index, owned, at, source, needed, k, edges, files, found, before,
                      objects', index', target.value);
    } else {
      assert Inevitable(pkg, library, objects[at].source);
      problem, owned' := CheckOwned(pkg, source, name, expected, owned);
      CheckJustified(pkg, library, expected, owned, source, name, problem, owned');
      if problem.Some? {
        EntryRejected(pkg, expected, found, before, objects, owned, source, needed, k);
      } else {
        OwnedInspected(pkg, library, expected, objects, index, owned, at, source, needed, k, edges, files, found, before,
                       owned');
      }
    }
  }

  /** Inspecting an object's dependency list: private dependencies join the worklist, the others are checked. */
  method InspectList(pkg: Package, library: string, expected: Table, objects: seq<Object>, index: map<string, nat>,
                     owned: Table, at: nat, source: string, needed: seq<string>,
                     ghost files: set<string>, ghost found: seq<string>, ghost before: seq<Entry>)
    returns (problem: Option<Problem>, objects': seq<Object>, index': map<string, nat>, owned': Table, edges: seq<Edge>)
    requires Finite(pkg, library, files)
    requires Midway(pkg, library, expected, objects, index, owned, at, source, needed, 0, [], files, found, before)
    ensures problem.Some? ==> Justified(pkg, library, expected, problem.value)
    ensures problem.Some? ==> Rejected(pkg, expected, before, source, needed)
    ensures problem.None? ==>
              && objects <= objects'
              && Midway(pkg, library, expected, objects', index', owned', at, source, needed, |needed|, edges, files, found, before)
  {
    problem, objects', index', owned', edges := None, objects, index, owned, [];
    var k := 0;
    while k < |needed|
      invariant k <= |needed| && objects <= objects' && problem.None?
      invariant Midway(pkg, library, expected, objects', index', owned', at, source, needed, k, edges, files, found, before)
    {
      problem, objects', index', owned', edges :=
        InspectEntry(pkg, library, expected, objects', index', owned', at, source, needed, k, edges, files, found, before);
      if problem.Some? {
        return;
      }
      k := k + 1;
    }
  }

  /** Inspecting one object. */
  method Inspect(pkg: Package, library: string, expected: Table, objects: seq<Object>, index: map<string, nat>,
                 owned: Table, at: nat, ghost files: set<string>)
    returns (problem: Option<Problem>, objects': seq<Object>, index': map<string, nat>, owned': Table)
    requires Finite(pkg, library, files) && at < |objects|
    requires Underway(pkg, library, expected, objects, index, owned, at, files)
    ensures problem.None? ==>
              |objects'| >= |objects| && Underway(pkg, library, expected, objects', index', owned', at + 1, files)
    ensures problem.Some? ==> Justified(pkg, library, expected, problem.value)
    ensures problem.Some? ==> !Stageable(pkg, library, expected, |files|)
  {
    objects', index', owned', problem := objects, index, owned, None;
    var source := objects[at].source;
    assert Inevitable(pkg, library, source);
    ghost var found, before := ListBegins(pkg, library, objects, owned, at);
    FewObjects(objects, index, files);
    var listed := pkg.needed(source);
    if listed.None? {
      UninspectableJustified(pkg, library, expected, source);
      RejectionIsFinal(pkg, library, expected, found, before, at, |files|);
      return Some(Uninspectable), objects, index, owned;
    }
    var edges;
    assert listed.value[..0] == [];
    problem, objects', index', owned', edges :=
      InspectList(pkg, library, expected, objects, index, owned, at, source, listed.value, files, found, before);
    if problem.Some? {
      RejectionIsFinal(pkg, library, expected, found, before, at, |files|);
      return;
    }
    ListInspected(pkg, library, expected, objects, owned, at, listed.value, objects', index', owned', edges, files, found, before);
    objects' := objects'[at := Object(source, edges)];
  }

  lemma ListInspected(pkg: Package, library: string, expected: Table, objects: seq<Object>, owned: Table, at: nat,
                      needed: seq<string>, objects': seq<Object>, index': map<string, nat>, owned': Table,
                      edges: seq<Edge>, files: set<string>, found: seq<string>, before: seq<Entry>)
    requires at < |objects| && objects <= objects' && Known(pkg, library, at, found, before)
    requires found[at] == objects[at].source && pkg.needed(found[at]) == Some(needed)
    requires Midway(pkg, library, expected, objects', index', owned', at, found[at], needed, |needed|, edges, files, found, before)
    requires forall i | 0 <= i < at :: Sound(pkg, expected, objects[i].source)
    ensures Underway(pkg, library, expected, objects'[at := Object(found[at], edges)], index', owned', at + 1, files)
  {
    assert needed[..|needed|] == needed;
    ListEnds(pkg, library, found, before, objects', owned', at, edges);
    WireObject(pkg, library, objects', index', at, files, edges);
  }

  /** An object is done when it has been given its edges. */
  lemma WireObject(pkg: Package, library: string, objects: seq<Object>, index: map<string, nat>, at: nat,
                   files: set<string>, edges: seq<Edge>)
    requires at < |objects| && Progress(pkg, library, objects, index, at, files)
    requires pkg.needed(objects[at].source).Some?
    requires edges == EdgesOf(pkg, objects[at].source, pkg.needed(objects[at].source).value)
    requires forall e | e in edges :: e.key in index
    ensures Progress(pkg, library, objects[at := Object(objects[at].source, edges)], index, at + 1, files)
  {
  }

  lemma UninspectableJustified(pkg: Package, library: string, expected: Table, source: string)
    requires Inevitable(pkg, library, source) && pkg.needed(source).None?
    ensures Justified(pkg, library, expected, Uninspectable)
  {
  }

  /** Either the check has rejected the dependency for a reason, or the table still holds found identities only. */
  lemma CheckJustified(pkg: Package, library: string, expected: Table, owned: Table, source: string, name: string,
                       problem: Option<Problem>, owned': Table)
    requires OwnedByReached(pkg, library, owned) && Lists(pkg, library, source, name)
    requires problem == if Changed(pkg, expected, source, name) then Some(IdentityChanged(name))
                        else if BundledButNotLive(pkg, source, name) then Some(NotLive(name))
                        else if Emplaced(owned, Entry(name, pkg.identity(source, name))).None? then Some(Conflict(name))
                        else None
    requires problem.None? ==> Emplaced(owned, Entry(name, pkg.identity(source, name))) == Some(owned')
    ensures problem.Some? ==> Justified(pkg, library, expected, problem.value)
    ensures problem.None? ==> OwnedByReached(pkg, library, owned')
  {
    if problem.Some? {
      RejectionJustified(pkg, library, expected, owned, source, name, problem.value);
    } else {
      forall n | n in owned' ensures exists s :: Lists(pkg, library, s, n) && pkg.identity(s, n) == owned'[n] {
        if n in owned {
          var s :| Lists(pkg, library, s, n) && pkg.identity(s, n) == owned[n];
          assert owned'[n] == owned[n];
        } else {
          assert n == name && pkg.identity(source, n) == owned'[n];
        }
      }
    }
  }

  lemma RejectionJustified(pkg: Package, library: string, expected: Table, owned: Table, source: string, name: string,
                           problem: Problem)
    requires OwnedByReached(pkg, library, owned) && Lists(pkg, library, source, name)
    requires || (problem == IdentityChanged(name) && Changed(pkg, expected, source, name))
             || (problem == NotLive(name) && BundledButNotLive(pkg, source, name))
             || (problem == Conflict(name) && Emplaced(owned, Entry(name, pkg.identity(source, name))).None?)
    ensures Justified(pkg, library, expected, problem)
  {
    if problem.Conflict? {
      var s :| Lists(pkg, library, s, name) && pkg.identity(s, name) == owned[name];
      assert Clashing(Entry(name, pkg.identity(s, name)), Entry(name, pkg.identity(source, name)));
    }
  }

  /** Adds a private dependency unless it is already known. */
  method Add(pkg: Package, library: string, objects: seq<Object>, index: map<string, nat>, at: nat,
             source: string, name: string, ghost needed: seq<string>, target: string, ghost files: set<string>)
    returns (objects': seq<Object>, index': map<string, nat>)
    requires Finite(pkg, library, files) && at < |objects| && Progress(pkg, library, objects, index, at, files)
    requires objects[at].source == source && pkg.needed(source) == Some(needed) && name in needed
    requires PrivateTarget(pkg, source, name) == Some(target)
    ensures Progress(pkg, library, objects', index', at, files) && objects <= objects'
    ensures target in index' && forall key | key in index :: key in index'
    ensures Joined(objects, objects', target)
  {
    objects', index' := objects, index;
    if target !in index {
      TargetInevitable(pkg, library, source, needed, name);
      index' := index[target := |objects|];
      objects' := objects + [Object(target, [])];
    }
  }

  /**
   What a staged object says about each dependency that its file lists: a file of the package that the system does not
   provide has an edge to its key; any other one has its identity on record, is the expected one if one is expected, and
   is live if the package bundles it.
   */
  ghost predicate Resolved(pkg: Package, expected: Table, o: Object, owned: Table) {
    && pkg.needed(o.source).Some?
    && (forall e | e in o.edges ::
          && e.original in pkg.needed(o.source).value && pkg.resolve(o.source, e.original) == Some(e.key)
          && pkg.within(e.key) && !pkg.intrinsic(e.original))
    && (forall n | n in pkg.needed(o.source).value ::
          var found, id := pkg.resolve(o.source, n), pkg.identity(o.source, n);
          if found.Some? && pkg.within(found.value) && !pkg.intrinsic(n) then Edge(n, found.value) in o.edges
          else
            && n in owned
            && (n in expected ==> id.digest != "" && id.digest == expected[n].digest)
            && (found.Some? && pkg.within(found.value) ==> id.digest != ""))
  }

  lemma WiredIsResolved(pkg: Package, expected: Table, objects: seq<Object>, index: map<string, nat>, owned: Table, i: nat)
    requires i < |objects| && Wired(pkg, objects[i], index) && Sound(pkg, expected, objects[i].source)
    requires EmplacedAll(AllShared(pkg, SourceList(objects))) == Some(owned)
    ensures Resolved(pkg, expected, objects[i], owned)
  {
    var o := objects[i];
    EmplaceSucceedsIffFirstDecides(AllShared(pkg, SourceList(objects)));
    forall n | n in pkg.needed(o.source).value && PrivateTarget(pkg, o.source, n).None? ensures n in owned {
      AllSharedHas(pkg, SourceList(objects), i, n);
      var k :| 0 <= k < |AllShared(pkg, SourceList(objects))|
               && AllShared(pkg, SourceList(objects))[k] == Entry(n, pkg.identity(o.source, n));
    }
  }

  /** The worklist of `stage`: it ends with the package staged exactly if it can be. */
  method BuildClosure(pkg: Package, library: string, expected: Table, ghost files: set<string>) returns (result: Result)
    requires Finite(pkg, library, files)
    ensures result.Staged? ==> IsClosure(pkg, library, result.objects, result.index)
    ensures result.Staged? ==> forall i | 0 <= i < |result.objects| :: Resolved(pkg, expected, result.objects[i], result.owned)
    ensures result.Failed? ==> Justified(pkg, library, expected, result.problem)
    ensures result.Staged? <==> Stageable(pkg, library, expected, |files|)
    ensures result.Staged? ==> SourceList(result.objects) == Discovered(pkg, library, |files|)
    ensures result.Staged? ==> EmplacedAll(AllShared(pkg, SourceList(result.objects))) == Some(result.owned)
  {
    var problem, objects, index, owned := InspectAll(pkg, library, expected, files);
    if problem.Some? {
      return Failed(problem.value);
    }
    AllInspected(pkg, library, expected, objects, index, owned, files);
    forall i | 0 <= i < |objects| ensures Resolved(pkg, expected, objects[i], owned) {
      WiredIsResolved(pkg, expected, objects, index, owned, i);
    }
    result := Staged(objects, index, owned);
  }

  /** The loop over the worklist, which grows on the way. */
  method InspectAll(pkg: Package, library: string, expected: Table, ghost files: set<string>)
    returns (problem: Option<Problem>, objects: seq<Object>, index: map<string, nat>, owned: Table)
    requires Finite(pkg, library, files)
    ensures problem.Some? ==> Justified(pkg, library, expected, problem.value)
    ensures problem.Some? ==> !Stageable(pkg, library, expected, |files|)
    ensures problem.None? ==> Underway(pkg, library, expected, objects, index, owned, |objects|, files)
  {
    problem, objects, index, owned := None, [Object(library, [])], map[library := 0], map[];
    var at := 0;
    Begun(pkg, library, expected, files);
    while at < |objects|
      invariant at <= |objects| && problem.None? && Underway(pkg, library, expected, objects, index, owned, at, files)
      decreases |files| - at
    {
      NotForever(pkg, library, expected, objects, index, owned, at, files);
      problem, objects, index, owned := Inspect(pkg, library, expected, objects, index, owned, at, files);
      if problem.Some? {
        return;
      }
      at := at + 1;
    }
  }

  /** The worklist when the first `at` objects have been inspected. */
  ghost predicate Underway(pkg: Package, library: string, expected: Table, objects: seq<Object>, index: map<string, nat>,
                           owned: Table, at: nat, files: set<string>)
  {
    && Progress(pkg, library, objects, index, at, files)
    && OwnedByReached(pkg, library, owned) && Follows(pkg, library, objects, owned, at)
    && forall i | 0 <= i < at :: Sound(pkg, expected, objects[i].source)
  }

  lemma Begun(pkg: Package, library: string, expected: Table, files: set<string>)
    requires Finite(pkg, library, files)
    ensures Underway(pkg, library, expected, [Object(library, [])], map[library := 0], map[], 0, files)
  {
    assert SourceList([Object(library, [])]) == [library];
  }

  lemma NotForever(pkg: Package, library: string, expected: Table, objects: seq<Object>, index: map<string, nat>,
                   owned: Table, at: nat, files: set<string>)
    requires Underway(pkg, library, expected, objects, index, owned, at, files)
    ensures |objects| <= |files|
  {
    FewObjects(objects, index, files);
  }

  lemma AllInspected(pkg: Package, library: string, expected: Table, objects: seq<Object>, index: map<string, nat>,
                     owned: Table, files: set<string>)
    requires Underway(pkg, library, expected, objects, index, owned, |objects|, files)
    ensures IsClosure(pkg, library, objects, index)
    ensures forall i | 0 <= i < |objects| :: Sound(pkg, expected, objects[i].source)
    ensures Stageable(pkg, library, expected, |files|) && SourceList(objects) == Discovered(pkg, library, |files|)
    ensures EmplacedAll(AllShared(pkg, SourceList(objects))) == Some(owned)
  {
    FewObjects(objects, index, files);
    WiredIsClosed(pkg, objects, index);
    AllFollowed(pkg, library, expected, objects, owned, |files|);
  }

  lemma AllFollowed(pkg: Package, library: string, expected: Table, objects: seq<Object>, owned: Table, size: nat)
    requires Follows(pkg, library, objects, owned, |objects|) && |objects| <= size
    requires forall i | 0 <= i < |objects| :: Sound(pkg, expected, objects[i].source)
    ensures Stageable(pkg, library, expected, size) && SourceList(objects) == Discovered(pkg, library, size)
    ensures EmplacedAll(AllShared(pkg, SourceList(objects))) == Some(owned)
  {
    var at := |objects|;
    DiscoveryEnds(pkg, library, at, size);
    assert Discovered(pkg, library, at)[..at] == Discovered(pkg, library, at);
    EmplaceSucceedsIffFirstDecides(AllShared(pkg, SourceList(objects)));
  }

  lemma WiredIsClosed(pkg: Package, objects: seq<Object>, index: map<string, nat>)
    requires Indexed(objects, index) && forall i | 0 <= i < |objects| :: Wired(pkg, objects[i], index)
    ensures ClosedUnder(pkg, Sources(objects))
  {
    forall s, n | s in Sources(objects) && pkg.needed(s).Some? && n in pkg.needed(s).value && PrivateTarget(pkg, s, n).Some?
      ensures PrivateTarget(pkg, s, n).value in Sources(objects)
    {
      var i :| 0 <= i < |objects| && objects[i].source == s;
      var key := PrivateTarget(pkg, s, n).value;
      assert Wired(pkg, objects[i], index) && Edge(n, key) in objects[i].edges;
      assert objects[index[key]].source == key;
    }
  }

  /** Any two results of staging consist of the same files: the least closed set. */
  lemma ClosureIsUnique(pkg: Package, library: string, a: seq<Object>, ai: map<string, nat>, b: seq<Object>, bi: map<string, nat>)
    requires IsClosure(pkg, library, a, ai) && IsClosure(pkg, library, b, bi)
    ensures Sources(a) == Sources(b) && |a| == |b|
  {
    ClosureIsLeast(pkg, library, a, ai, Sources(b));
    ClosureIsLeast(pkg, library, b, bi, Sources(a));
    DistinctSources(a, ai, |a|);
    DistinctSources(b, bi, |b|);
  }

  lemma ClosureIsLeast(pkg: Package, library: string, objects: seq<Object>, index: map<string, nat>, files: set<string>)
    requires IsClosure(pkg, library, objects, index) && library in files && ClosedUnder(pkg, files)
    ensures Sources(objects) <= files
  {
  }

  // ----- rewriting -----

  /** `--replace-needed`. */
  function Replaced(needed: seq<string>, original: string, identity: string): (r: seq<string>)
    ensures |r| == |needed|
    ensures forall k | 0 <= k < |needed| :: r[k] == if needed[k] == original then identity else needed[k]
  {
    seq(|needed|, k requires 0 <= k < |needed| => if needed[k] == original then identity else needed[k])
  }

  /** All edges of one object rewritten in turn. */
  method RewriteEdges(needed: seq<string>, edges: seq<Edge>, index: map<string, nat>, identities: seq<string>)
    returns (rewritten: Option<seq<string>>)
    requires forall k | k in index :: index[k] < |identities|
    ensures rewritten.None? <==> exists e | e in edges :: e.key !in index
    ensures rewritten.Some? ==> rewritten.value == Rewritten(needed, edges, index, identities)
  {
    var list := needed;
    var i := 0;
    while i < |edges|
      invariant i <= |edges| && forall j | 0 <= j < i :: edges[j].key in index
      invariant list == Rewritten(needed, edges[..i], index, identities)
    {
      if edges[i].key !in index {
        return None;
      }
      assert edges[..i + 1][..i] == edges[..i];
      list := Replaced(list, edges[i].original, identities[index[edges[i].key]]);
      i := i + 1;
    }
    assert edges[..i] == edges;
    rewritten := Some(list);
  }

  function Rewritten(needed: seq<string>, edges: seq<Edge>, index: map<string, nat>, identities: seq<string>): (r: seq<string>)
    requires forall k | k in index :: index[k] < |identities|
    requires forall e | e in edges :: e.key in index
    ensures |r| == |needed|
  {
    if edges == [] then needed
    else
      var last := edges[|edges| - 1];
      assert edges == edges[..|edges| - 1] + [last];
      Replaced(Rewritten(needed, edges[..|edges| - 1], index, identities), last.original, identities[index[last.key]])
  }

  /** The verification after the rewriting: each new identity is listed, and no original is any more. */
  predicate Verified(rewritten: seq<string>, edges: seq<Edge>, index: map<string, nat>, identities: seq<string>)
    requires forall k | k in index :: index[k] < |identities|
    requires forall e | e in edges :: e.key in index
  {
    forall e | e in edges :: identities[index[e.key]] in rewritten && e.original !in rewritten
  }

  /** No new identity is one of the object's original dependency names. */
  predicate Renamed(edges: seq<Edge>, index: map<string, nat>, identities: seq<string>)
    requires forall k | k in index :: index[k] < |identities|
    requires forall e | e in edges :: e.key in index
  {
    forall e, f | e in edges && f in edges :: identities[index[e.key]] != f.original
  }

  predicate Originals(edges: seq<Edge>, name: string) {
    exists e | e in edges :: e.original == name
  }

  /** Where an entry of the list has gone after the first edges. */
  lemma {:induction false} RewrittenAt(needed: seq<string>, edges: seq<Edge>, index: map<string, nat>,
                                       identities: seq<string>, k: nat)
    requires forall k | k in index :: index[k] < |identities|
    requires forall e | e in edges :: e.key in index
    requires Renamed(edges, index, identities) && k < |needed|
    ensures var r := Rewritten(needed, edges, index, identities)[k];
            if Originals(edges, needed[k]) then exists e | e in edges :: e.original == needed[k] && r == identities[index[e.key]]
            else r == needed[k]
  {
    if edges != [] {
      var init, last := edges[..|edges| - 1], edges[|edges| - 1];
      assert edges == init + [last];
      RewrittenAt(needed, init, index, identities, k);
      if Originals(init, needed[k]) {
        var e :| e in init && e.original == needed[k] && Rewritten(needed, init, index, identities)[k] == identities[index[e.key]];
        assert e in edges;
      }
    }
  }

  /**
   The verification succeeds for an object of a closure exactly if its private dependencies get identities that none of
   them had before.
   */
  lemma RewritingVerifies(pkg: Package, o: Object, index: map<string, nat>, identities: seq<string>)
    requires Wired(pkg, o, index) && forall k | k in index :: index[k] < |identities|
    ensures Verified(Rewritten(pkg.needed(o.source).value, o.edges, index, identities), o.edges, index, identities)
            <==> Renamed(o.edges, index, identities)
  {
    if Renamed(o.edges, index, identities) {
      RenamedVerifies(pkg, o, index, identities);
    }
  }

  lemma RenamedVerifies(pkg: Package, o: Object, index: map<string, nat>, identities: seq<string>)
    requires Wired(pkg, o, index) && forall k | k in index :: index[k] < |identities|
    requires Renamed(o.edges, index, identities)
    ensures Verified(Rewritten(pkg.needed(o.source).value, o.edges, index, identities), o.edges, index, identities)
  {
    var needed := pkg.needed(o.source).value;
    var rewritten := Rewritten(needed, o.edges, index, identities);
    forall e | e in o.edges ensures identities[index[e.key]] in rewritten && e.original !in rewritten {
      var k :| 0 <= k < |needed| && needed[k] == e.original;
      RewrittenAt(needed, o.edges, index, identities, k);
      var f :| f in o.edges && f.original == needed[k] && rewritten[k] == identities[index[f.key]];
      assert f.key == e.key;
      if e.original in rewritten {
        var l :| 0 <= l < |rewritten| && rewritten[l] == e.original;
        RewrittenAt(needed, o.edges, index, identities, l);
      }
    }
  }
}
