/**
 An actor package as staging finds it: what its libraries list, the order in which its private files are discovered and
 the identities that stay owned by the process. What the file system and the tools answer is given by functions.
 */
module Packages {
  import opened Wrappers
  import opened Identities
  import opened Graphs

  /**
   `needed` lists the dependencies of a library (None: it cannot be inspected), `resolve` finds one of them next to
   it, `within` and `intrinsic` tell package files and system libraries, and `identity` fingerprints the rest.
   */
  datatype Package = Package(needed: string -> Option<seq<string>>, resolve: (string, string) -> Option<string>,
                             within: string -> bool, intrinsic: string -> bool,
                             identity: (string, string) -> Identity)

  /** The file that a dependency stands for if it is private to the package. */
  function PrivateTarget(pkg: Package, source: string, name: string): Option<string> {
    var found := pkg.resolve(source, name);
    if found.Some? && pkg.within(found.value) && !pkg.intrinsic(name) then found else None
  }

  /** The package is finite: its private files are among the given ones. */
  ghost predicate Finite(pkg: Package, library: string, files: set<string>) {
    library in files && forall s, n | PrivateTarget(pkg, s, n).Some? :: PrivateTarget(pkg, s, n).value in files
  }

  // ----- what a library may list -----

  predicate Changed(pkg: Package, expected: Table, source: string, name: string) {
    var id := pkg.identity(source, name);
    name in expected && (id.digest == "" || id.digest != expected[name].digest)
  }

  predicate BundledButNotLive(pkg: Package, source: string, name: string) {
    var found := pkg.resolve(source, name);
    found.Some? && pkg.within(found.value) && pkg.identity(source, name).digest == ""
  }

  /** No dependency of the object is one that staging has to reject by itself. */
  ghost predicate Sound(pkg: Package, expected: Table, source: string) {
    && pkg.needed(source).Some?
    && Checked(pkg, expected, source, pkg.needed(source).value)
  }

  ghost predicate Checked(pkg: Package, expected: Table, source: string, needed: seq<string>) {
    forall n | n in needed && PrivateTarget(pkg, source, n).None? ::
      !Changed(pkg, expected, source, n) && !BundledButNotLive(pkg, source, n)
  }

  // ----- the order of discovery -----

  function Listed(pkg: Package, source: string): seq<string> {
    if pkg.needed(source).Some? then pkg.needed(source).value else []
  }

  /** The files found after a library's list has been gone through. */
  function AddTargets(pkg: Package, found: seq<string>, source: string, needed: seq<string>): seq<string> {
    if needed == [] then found
    else
      var rest := AddTargets(pkg, found, source, needed[..|needed| - 1]);
      var target := PrivateTarget(pkg, source, needed[|needed| - 1]);
      if target.Some? && target.value !in rest then rest + [target.value] else rest
  }

  /** The files found once the lists of the first `n` of them have been gone through. */
  function Discovered(pkg: Package, library: string, n: nat): seq<string> {
    if n == 0 then [library]
    else
      var found := Discovered(pkg, library, n - 1);
      if n - 1 < |found| then AddTargets(pkg, found, found[n - 1], Listed(pkg, found[n - 1])) else found
  }

  /** The identities, in order, of a list's dependencies that are not private to the package. */
  function Shared(pkg: Package, source: string, needed: seq<string>): seq<Entry> {
    if needed == [] then []
    else
      var rest, last := Shared(pkg, source, needed[..|needed| - 1]), needed[|needed| - 1];
      if PrivateTarget(pkg, source, last).None? then rest + [Entry(last, pkg.identity(source, last))] else rest
  }

  function AllShared(pkg: Package, sources: seq<string>): seq<Entry> {
    if sources == [] then []
    else
      var last := sources[|sources| - 1];
      AllShared(pkg, sources[..|sources| - 1]) + Shared(pkg, last, Listed(pkg, last))
  }

  /**
   When a package can be staged: every file that is ever discovered lists nothing to reject, and every identity with a
   digest equals the first one of its name, if that has a digest. No package has more than `size` files.
   */
  ghost predicate Stageable(pkg: Package, library: string, expected: Table, size: nat) {
    var sources := Discovered(pkg, library, size);
    && (forall i | 0 <= i < |sources| :: Sound(pkg, expected, sources[i]))
    && FirstDecides(AllShared(pkg, sources))
  }

  lemma {:induction false} TargetsGrow(pkg: Package, found: seq<string>, source: string, needed: seq<string>)
    ensures found <= AddTargets(pkg, found, source, needed)
  {
    if needed != [] {
      TargetsGrow(pkg, found, source, needed[..|needed| - 1]);
    }
  }

  lemma {:induction false} DiscoveryGrows(pkg: Package, library: string, m: nat, n: nat)
    requires m <= n
    ensures Discovered(pkg, library, m) <= Discovered(pkg, library, n)
  {
    if m < n {
      DiscoveryGrows(pkg, library, m, n - 1);
      var found := Discovered(pkg, library, n - 1);
      if n - 1 < |found| {
        TargetsGrow(pkg, found, found[n - 1], Listed(pkg, found[n - 1]));
      }
    }
  }

  /** Once every file found has been gone through, nothing more is found. */
  lemma {:induction false} DiscoveryEnds(pkg: Package, library: string, m: nat, n: nat)
    requires |Discovered(pkg, library, m)| <= m <= n
    ensures Discovered(pkg, library, n) == Discovered(pkg, library, m)
  {
    if m < n {
      DiscoveryEnds(pkg, library, m, n - 1);
    }
  }

  lemma {:induction false} TargetsWithin(pkg: Package, library: string, files: set<string>, found: seq<string>,
                                         source: string, needed: seq<string>)
    requires Finite(pkg, library, files) && Distinct(found) && forall x | x in found :: x in files
    ensures var all := AddTargets(pkg, found, source, needed); Distinct(all) && forall x | x in all :: x in files
  {
    if needed != [] {
      TargetsWithin(pkg, library, files, found, source, needed[..|needed| - 1]);
    }
  }

  lemma {:induction false} DiscoveredWithin(pkg: Package, library: string, files: set<string>, n: nat)
    requires Finite(pkg, library, files)
    ensures var all := Discovered(pkg, library, n); Distinct(all) && forall x | x in all :: x in files
  {
    if n > 0 {
      DiscoveredWithin(pkg, library, files, n - 1);
      var found := Discovered(pkg, library, n - 1);
      if n - 1 < |found| {
        TargetsWithin(pkg, library, files, found, found[n - 1], Listed(pkg, found[n - 1]));
      }
    }
  }

  /** So it does not matter by how much the number of files is overestimated. */
  lemma StageableForAnySize(pkg: Package, library: string, expected: Table, files: set<string>, size: nat)
    requires Finite(pkg, library, files) && |files| <= size
    ensures Stageable(pkg, library, expected, size) <==> Stageable(pkg, library, expected, |files|)
  {
    DiscoveredWithin(pkg, library, files, |files|);
    DistinctFits(Discovered(pkg, library, |files|), files);
    DiscoveryEnds(pkg, library, |files|, size);
  }

  lemma {:induction false} SharedPrefix(pkg: Package, source: string, needed: seq<string>, k: nat)
    requires k <= |needed|
    ensures Shared(pkg, source, needed[..k]) <= Shared(pkg, source, needed)
  {
    if k == |needed| {
      assert needed[..k] == needed;
    } else {
      var rest := needed[..|needed| - 1];
      SharedPrefix(pkg, source, rest, k);
      assert rest[..k] == needed[..k];
    }
  }

  lemma {:induction false} AllSharedPrefix(pkg: Package, sources: seq<string>, n: nat)
    requires n <= |sources|
    ensures AllShared(pkg, sources[..n]) <= AllShared(pkg, sources)
  {
    if n == |sources| {
      assert sources[..n] == sources;
    } else {
      var rest := sources[..|sources| - 1];
      AllSharedPrefix(pkg, rest, n);
      assert rest[..n] == sources[..n];
    }
  }

  lemma AllSharedNext(pkg: Package, sources: seq<string>, n: nat)
    requires n < |sources|
    ensures AllShared(pkg, sources[..n + 1])
            == AllShared(pkg, sources[..n]) + Shared(pkg, sources[n], Listed(pkg, sources[n]))
  {
    assert sources[..n + 1][..n] == sources[..n];
  }

  lemma {:induction false} SharedHas(pkg: Package, source: string, needed: seq<string>, name: string)
    requires name in needed && PrivateTarget(pkg, source, name).None?
    ensures Entry(name, pkg.identity(source, name)) in Shared(pkg, source, needed)
  {
    var rest, last := needed[..|needed| - 1], needed[|needed| - 1];
    assert needed == rest + [last];
    if name in rest {
      SharedHas(pkg, source, rest, name);
    }
  }

  /** Whatever a file lists that is not private to the package is among the identities met. */
  lemma {:induction false} AllSharedHas(pkg: Package, sources: seq<string>, i: nat, name: string)
    requires i < |sources| && name in Listed(pkg, sources[i]) && PrivateTarget(pkg, sources[i], name).None?
    ensures Entry(name, pkg.identity(sources[i], name)) in AllShared(pkg, sources)
  {
    if i == |sources| - 1 {
      SharedHas(pkg, sources[i], Listed(pkg, sources[i]), name);
    } else {
      AllSharedHas(pkg, sources[..|sources| - 1], i, name);
    }
  }

  /** A list that passes the conflict check passes it as far as one goes. */
  lemma PrefixDecides(entries: seq<Entry>, more: seq<Entry>)
    requires entries <= more && FirstDecides(more)
    ensures FirstDecides(entries)
  {
    forall i, j | 0 <= i < |entries| && 0 <= j < |entries| && First(entries, i) && Clashing(entries[i], entries[j])
      ensures entries[i].identity == entries[j].identity
    {
      assert First(more, i) && Clashing(more[i], more[j]);
    }
  }

  /** A library that must be rejected, or a conflict anywhere on the way, keeps a package from being staged. */
  lemma UnsoundIsFinal(pkg: Package, library: string, expected: Table, at: nat, size: nat)
    requires at <= size && at < |Discovered(pkg, library, at)| && !Sound(pkg, expected, Discovered(pkg, library, at)[at])
    ensures !Stageable(pkg, library, expected, size)
  {
    DiscoveryGrows(pkg, library, at, size);
    assert Discovered(pkg, library, size)[at] == Discovered(pkg, library, at)[at];
  }

  /** The identities met before the entry with number `k` of the last list. */
  function Met(pkg: Package, before: seq<Entry>, source: string, needed: seq<string>, k: nat): seq<Entry>
    requires k <= |needed|
  {
    before + Shared(pkg, source, needed[..k])
  }

  lemma ConflictIsFinal(pkg: Package, library: string, expected: Table, at: nat, k: nat, size: nat)
    requires at <= size && at < |Discovered(pkg, library, at)|
    requires var found := Discovered(pkg, library, at);
             k <= |Listed(pkg, found[at])|
             && !FirstDecides(Met(pkg, AllShared(pkg, found[..at]), found[at], Listed(pkg, found[at]), k))
    ensures !Stageable(pkg, library, expected, size)
  {
    var found, all := Discovered(pkg, library, at), Discovered(pkg, library, size);
    DiscoveryGrows(pkg, library, at, size);
    assert all[..at] == found[..at] && all[at] == found[at];
    SharedPrefix(pkg, found[at], Listed(pkg, found[at]), k);
    AllSharedNext(pkg, all, at);
    AllSharedPrefix(pkg, all, at + 1);
    var met := Met(pkg, AllShared(pkg, found[..at]), found[at], Listed(pkg, found[at]), k);
    assert met <= AllShared(pkg, all[..at + 1]) <= AllShared(pkg, all);
    if FirstDecides(AllShared(pkg, all)) {
      PrefixDecides(met, AllShared(pkg, all));
    }
  }

  lemma OneAdded(pkg: Package, found: seq<string>, source: string, needed: seq<string>, k: nat)
    requires k < |needed|
    ensures var known, target := AddTargets(pkg, found, source, needed[..k]), PrivateTarget(pkg, source, needed[k]);
            AddTargets(pkg, found, source, needed[..k + 1])
            == if target.Some? && target.value !in known then known + [target.value] else known
  {
    assert needed[..k + 1][..k] == needed[..k];
  }

  /** One more entry of a list. */
  lemma OneMet(pkg: Package, before: seq<Entry>, source: string, needed: seq<string>, k: nat)
    requires k < |needed|
    ensures Met(pkg, before, source, needed, k + 1)
            == if PrivateTarget(pkg, source, needed[k]).None?
               then Met(pkg, before, source, needed, k) + [Entry(needed[k], pkg.identity(source, needed[k]))]
               else Met(pkg, before, source, needed, k)
  {
    assert needed[..k + 1][..k] == needed[..k];
  }
}
