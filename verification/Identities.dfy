/** The identities of the libraries that stay owned by the process, and the two ways in which they are merged. */
module Identities {
  import opened Wrappers

  datatype Identity = Identity(path: string, digest: string)

  datatype Entry = Entry(name: string, identity: Identity)

  type Table = map<string, Identity>

  /** `merge_process_dependency`: None is a conflict. */
  function Merged(table: Table, e: Entry): Option<Table> {
    if e.name !in table then Some(table[e.name := e.identity])
    else if table[e.name] == e.identity then Some(table)
    else if table[e.name].digest == "" then Some(table[e.name := e.identity])
    else if e.identity.digest == "" then Some(table)
    else None
  }

  /** The stager's insertion, which never replaces what it found. */
  function Emplaced(table: Table, e: Entry): Option<Table> {
    if e.name !in table then Some(table[e.name := e.identity])
    else if table[e.name] != e.identity && table[e.name].digest != "" && e.identity.digest != "" then None
    else Some(table)
  }

  function MergedAll(entries: seq<Entry>): Option<Table> {
    if entries == [] then Some(map[])
    else
      var init := MergedAll(entries[..|entries| - 1]);
      if init.None? then None else Merged(init.value, entries[|entries| - 1])
  }

  function EmplacedAll(entries: seq<Entry>): Option<Table> {
    if entries == [] then Some(map[])
    else
      var init := EmplacedAll(entries[..|entries| - 1]);
      if init.None? then None else Emplaced(init.value, entries[|entries| - 1])
  }

  /** All identities of one name that have a digest are the same. */
  predicate Consistent(entries: seq<Entry>) {
    forall i, j | 0 <= i < |entries| && 0 <= j < |entries| && Clashing(entries[i], entries[j]) ::
      entries[i].identity == entries[j].identity
  }

  predicate Clashing(a: Entry, b: Entry) {
    a.name == b.name && a.identity.digest != "" && b.identity.digest != ""
  }

  /** The table holds an identity with a digest for exactly the names that have one, and it is theirs. */
  ghost predicate Knows(table: Table, entries: seq<Entry>) {
    && (forall i | 0 <= i < |entries| :: entries[i].name in table)
    && (forall i | 0 <= i < |entries| && entries[i].identity.digest != "" :: table[entries[i].name] == entries[i].identity)
    && (forall n | n in table :: exists i | 0 <= i < |entries| :: entries[i].name == n && entries[i].identity == table[n])
  }

  /** Merging succeeds exactly on consistent entries, in whatever order they come. */
  lemma {:induction false} MergeSucceedsIffConsistent(entries: seq<Entry>)
    ensures MergedAll(entries).Some? <==> Consistent(entries)
    ensures MergedAll(entries).Some? ==> Knows(MergedAll(entries).value, entries)
  {
    if entries != [] {
      var init, last := entries[..|entries| - 1], entries[|entries| - 1];
      assert entries == init + [last];
      MergeSucceedsIffConsistent(init);
      if MergedAll(init).Some? {
        MergeOne(MergedAll(init).value, init, last);
      } else {
        InitClashes(init, last);
      }
    }
  }

  lemma InitClashes(init: seq<Entry>, last: Entry)
    requires !Consistent(init)
    ensures !Consistent(init + [last])
  {
    var i, j :| 0 <= i < |init| && 0 <= j < |init| && Clashing(init[i], init[j]) && init[i].identity != init[j].identity;
    assert Clashing((init + [last])[i], (init + [last])[j]);
  }

  lemma MergeOne(table: Table, init: seq<Entry>, last: Entry)
    requires Consistent(init) && Knows(table, init)
    ensures Merged(table, last).Some? <==> Consistent(init + [last])
    ensures Merged(table, last).Some? ==> Knows(Merged(table, last).value, init + [last])
  {
    var entries := init + [last];
    if last.name in table {
      var k :| 0 <= k < |init| && init[k].name == last.name && init[k].identity == table[last.name];
      if Merged(table, last).None? {
        assert Clashing(entries[k], entries[|init|]);
      }
    }
    if Merged(table, last).Some? {
      MergeKnows(table, init, last);
      KnownAreConsistent(Merged(table, last).value, entries);
    }
  }

  lemma MergeKnows(table: Table, init: seq<Entry>, last: Entry)
    requires Knows(table, init) && Merged(table, last).Some?
    ensures Knows(Merged(table, last).value, init + [last])
  {
    var entries, merged := init + [last], Merged(table, last).value;
    forall n | n in merged ensures exists i | 0 <= i < |entries| :: entries[i].name == n && entries[i].identity == merged[n] {
      if n in table && merged[n] == table[n] {
        var k :| 0 <= k < |init| && init[k].name == n && init[k].identity == table[n];
        assert entries[k] == init[k];
      } else {
        assert entries[|init|] == last;
      }
    }
  }

  lemma KnownAreConsistent(table: Table, entries: seq<Entry>)
    requires Knows(table, entries)
    ensures Consistent(entries)
  {
  }

  /** Success of merging does not depend on the order of the entries. */
  lemma MergeIsOrderFree(a: seq<Entry>, b: seq<Entry>)
    requires multiset(a) == multiset(b)
    ensures MergedAll(a).Some? <==> MergedAll(b).Some?
  {
    MergeSucceedsIffConsistent(a);
    MergeSucceedsIffConsistent(b);
    if Consistent(a) {
      ConsistentIsOrderFree(a, b);
    } else if Consistent(b) {
      ConsistentIsOrderFree(b, a);
    }
  }

  lemma ConsistentIsOrderFree(a: seq<Entry>, b: seq<Entry>)
    requires multiset(a) == multiset(b) && Consistent(a)
    ensures Consistent(b)
  {
    forall i, j | 0 <= i < |b| && 0 <= j < |b| && Clashing(b[i], b[j]) ensures b[i].identity == b[j].identity {
      assert b[i] in multiset(b) && b[j] in multiset(b);
      assert b[i] in a && b[j] in a;
      var k :| 0 <= k < |a| && a[k] == b[i];
      var l :| 0 <= l < |a| && a[l] == b[j];
      assert Clashing(a[k], a[l]);
    }
  }

  // ----- the stager's insertion -----

  /** The position of the first entry of a name. */
  predicate First(entries: seq<Entry>, i: nat)
    requires i < |entries|
  {
    forall k | 0 <= k < i :: entries[k].name != entries[i].name
  }

  /** Every identity with a digest equals the first identity of its name, if that has a digest. */
  predicate FirstDecides(entries: seq<Entry>) {
    forall i, j | 0 <= i < |entries| && 0 <= j < |entries| && First(entries, i) && Clashing(entries[i], entries[j]) ::
      entries[i].identity == entries[j].identity
  }

  ghost predicate HoldsFirst(table: Table, entries: seq<Entry>) {
    && (forall i | 0 <= i < |entries| :: entries[i].name in table)
    && (forall n | n in table :: exists i | 0 <= i < |entries| :: First(entries, i) && entries[i] == Entry(n, table[n]))
  }

  /** The insertion compares with the first identity of a name only. */
  lemma {:induction false} EmplaceSucceedsIffFirstDecides(entries: seq<Entry>)
    ensures EmplacedAll(entries).Some? <==> FirstDecides(entries)
    ensures EmplacedAll(entries).Some? ==> HoldsFirst(EmplacedAll(entries).value, entries)
  {
    if entries != [] {
      var init, last := entries[..|entries| - 1], entries[|entries| - 1];
      assert entries == init + [last];
      EmplaceSucceedsIffFirstDecides(init);
      FirstStays(init, last);
      if EmplacedAll(init).Some? {
        EmplaceOne(EmplacedAll(init).value, init, last);
      } else {
        var i, j :| 0 <= i < |init| && 0 <= j < |init| && First(init, i) && Clashing(init[i], init[j])
                    && init[i].identity != init[j].identity;
        assert First(entries, i) && Clashing(entries[i], entries[j]);
      }
    }
  }

  lemma FirstStays(init: seq<Entry>, last: Entry)
    ensures forall i | 0 <= i < |init| :: First(init + [last], i) <==> First(init, i)
  {
    var entries := init + [last];
    assert forall k | 0 <= k < |init| :: entries[k] == init[k];
    forall i | 0 <= i < |init| ensures First(entries, i) <==> First(init, i) {
      if First(entries, i) {
        forall k | 0 <= k < i ensures init[k].name != init[i].name {
          assert entries[k].name != entries[i].name;
        }
      }
    }
  }

  lemma EmplaceOne(table: Table, init: seq<Entry>, last: Entry)
    requires FirstDecides(init) && HoldsFirst(table, init)
    ensures Emplaced(table, last).Some? <==> FirstDecides(init + [last])
    ensures Emplaced(table, last).Some? ==> HoldsFirst(Emplaced(table, last).value, init + [last])
  {
    var entries := init + [last];
    FirstStays(init, last);
    if last.name in table {
      var k :| 0 <= k < |init| && First(init, k) && init[k] == Entry(last.name, table[last.name]);
      assert First(entries, k) && entries[k] == init[k];
      if Emplaced(table, last).None? {
        assert Clashing(entries[k], entries[|init|]);
      } else {
        EmplaceKnown(table, init, last, k);
      }
    } else {
      EmplaceNew(table, init, last);
    }
  }

  lemma EmplaceKnown(table: Table, init: seq<Entry>, last: Entry, k: nat)
    requires FirstDecides(init) && HoldsFirst(table, init) && last.name in table && Emplaced(table, last).Some?
    requires k < |init| && First(init, k) && init[k] == Entry(last.name, table[last.name])
    ensures FirstDecides(init + [last]) && HoldsFirst(table, init + [last])
  {
    var entries := init + [last];
    FirstStays(init, last);
    assert !First(entries, |init|) by {
      assert entries[k].name == entries[|init|].name;
    }
    forall i, j | 0 <= i < |entries| && 0 <= j < |entries| && First(entries, i) && Clashing(entries[i], entries[j])
      ensures entries[i].identity == entries[j].identity
    {
      if j == |init| {
        assert entries[i].name == entries[k].name;
        assert i == k;
      } else {
        assert First(init, i) && Clashing(init[i], init[j]);
      }
    }
    forall n | n in table ensures exists i | 0 <= i < |entries| :: First(entries, i) && entries[i] == Entry(n, table[n]) {
      var i :| 0 <= i < |init| && First(init, i) && init[i] == Entry(n, table[n]);
      assert First(entries, i) && entries[i] == init[i];
    }
  }

  lemma EmplaceNew(table: Table, init: seq<Entry>, last: Entry)
    requires FirstDecides(init) && HoldsFirst(table, init) && last.name !in table
    ensures FirstDecides(init + [last]) && HoldsFirst(table[last.name := last.identity], init + [last])
  {
    var entries := init + [last];
    FirstStays(init, last);
    forall i, j | 0 <= i < |entries| && 0 <= j < |entries| && First(entries, i) && Clashing(entries[i], entries[j])
      ensures entries[i].identity == entries[j].identity
    {
      if i < |init| && j < |init| {
        assert First(init, i) && Clashing(init[i], init[j]);
      }
    }
    var table' := table[last.name := last.identity];
    forall n | n in table' ensures exists i | 0 <= i < |entries| :: First(entries, i) && entries[i] == Entry(n, table'[n]) {
      if n == last.name {
        assert First(entries, |init|) && entries[|init|] == Entry(n, table'[n]);
      } else {
        var i :| 0 <= i < |init| && First(init, i) && init[i] == Entry(n, table[n]);
        assert First(entries, i) && entries[i] == init[i];
      }
    }
  }

  /** On one table, the two ways differ exactly when a different identity without a digest is already there. */
  lemma EmplacedIsMergedIff(table: Table, e: Entry)
    ensures Emplaced(table, e) == Merged(table, e) <==>
            !(e.name in table && table[e.name] != e.identity && table[e.name].digest == "")
  {
    if e.name in table && table[e.name] != e.identity && table[e.name].digest == "" {
      assert table[e.name := e.identity][e.name] == e.identity;
    }
  }

  /** Over whole lists merging is the stricter; when every first identity of a name has a digest, both succeed alike. */
  lemma MergeIsStricter(entries: seq<Entry>)
    ensures MergedAll(entries).Some? ==> EmplacedAll(entries).Some?
    ensures (forall i | 0 <= i < |entries| && First(entries, i) :: entries[i].identity.digest != "") ==>
              (MergedAll(entries).Some? <==> EmplacedAll(entries).Some?)
  {
    MergeSucceedsIffConsistent(entries);
    EmplaceSucceedsIffFirstDecides(entries);
    if (forall i | 0 <= i < |entries| && First(entries, i) :: entries[i].identity.digest != "") && FirstDecides(entries) {
      forall i, j | 0 <= i < |entries| && 0 <= j < |entries| && Clashing(entries[i], entries[j])
        ensures entries[i].identity == entries[j].identity
      {
        var f := FirstOf(entries, i);
        assert Clashing(entries[f], entries[i]) && Clashing(entries[f], entries[j]);
      }
    }
  }

  lemma {:induction false} FirstOf(entries: seq<Entry>, i: nat) returns (f: nat)
    requires i < |entries|
    ensures f <= i && First(entries, f) && entries[f].name == entries[i].name
    decreases i
  {
    if First(entries, i) {
      f := i;
    } else {
      var k :| 0 <= k < i && entries[k].name == entries[i].name;
      f := FirstOf(entries, k);
    }
  }

  const NONE := Entry("lib", Identity("", ""))
  const ONE := Entry("lib", Identity("p", "1"))
  const TWO := Entry("lib", Identity("q", "2"))

  /** So the insertion misses a conflict that merging reports, and depends on the order. */
  lemma EmplaceDependsOnOrder()
    ensures multiset([NONE, ONE, TWO]) == multiset([ONE, NONE, TWO])
    ensures EmplacedAll([NONE, ONE, TWO]).Some? && EmplacedAll([ONE, NONE, TWO]).None?
    ensures MergedAll([NONE, ONE, TWO]).None?
  {
    EmplaceMisses([NONE, ONE, TWO]);
    var b := [ONE, NONE, TWO];
    EmplaceSucceedsIffFirstDecides(b);
    assert First(b, 0) && Clashing(b[0], b[2]) && b[0].identity != b[2].identity;
  }

  lemma EmplaceMisses(a: seq<Entry>)
    requires a == [NONE, ONE, TWO]
    ensures EmplacedAll(a).Some? && MergedAll(a).None?
  {
    EmplaceSucceedsIffFirstDecides(a);
    MergeSucceedsIffConsistent(a);
    assert Clashing(a[1], a[2]) && a[1].identity != a[2].identity;
    assert !First(a, 1) && !First(a, 2) by {
      assert a[0].name == a[1].name == a[2].name;
    }
  }

  /** What a generation or a stager keeps while it collects identities; the methods edit the table in place. */
  class IdentityTable {
    var identities: Table

    constructor ()
      ensures identities == map[]
    {
      identities := map[];
    }

    method MergeDependency(e: Entry) returns (ok: bool)
      modifies this
      ensures ok <==> && (e.name in old(identities) && old(identities)[e.name] != e.identity ==>
                            old(identities)[e.name].digest == "" || e.identity.digest == "")
      ensures ok ==> identities == if e.name in old(identities) && old(identities)[e.name].digest != "" then old(identities)
                                   else old(identities)[e.name := e.identity]
      ensures ok <==> Merged(old(identities), e).Some?
      ensures identities == if ok then Merged(old(identities), e).value else old(identities)
    {
      if e.name !in identities {
        identities := identities[e.name := e.identity];
        return true;
      }
      if identities[e.name] == e.identity {
        return true;
      }
      if identities[e.name].digest == "" {
        identities := identities[e.name := e.identity];
        return true;
      }
      ok := e.identity.digest == "";
    }

    method Emplace(e: Entry) returns (ok: bool)
      modifies this
      ensures ok <==> && (e.name in old(identities) && old(identities)[e.name] != e.identity ==>
                            old(identities)[e.name].digest == "" || e.identity.digest == "")
      ensures identities == if e.name in old(identities) then old(identities) else old(identities)[e.name := e.identity]
      ensures ok <==> Emplaced(old(identities), e).Some?
      ensures identities == if ok then Emplaced(old(identities), e).value else old(identities)
    {
      ok := true;
      if e.name !in identities {
        identities := identities[e.name := e.identity];
      } else if identities[e.name] != e.identity && identities[e.name].digest != "" && e.identity.digest != "" {
        ok := false;
      }
    }

    /** Merging a whole list, as the builder does actor by actor. */
    method MergeEach(entries: seq<Entry>) returns (ok: bool)
      requires identities == map[]
      modifies this
      ensures ok <==> Consistent(entries)
      ensures ok ==> Knows(identities, entries)
    {
      var i := 0;
      while i < |entries|
        invariant i <= |entries| && MergedAll(entries[..i]) == Some(identities)
      {
        ghost var init, longer := entries[..i], entries[..i + 1];
        assert longer[..i] == init && longer == init + [entries[i]];
        ok := MergeDependency(entries[i]);
        if !ok {
          MergeSucceedsIffConsistent(longer);
          PrefixClashes(entries, i + 1);
          return;
        }
        i := i + 1;
      }
      assert entries[..i] == entries;
      MergeSucceedsIffConsistent(entries);
      ok := true;
    }
  }

  lemma PrefixClashes(entries: seq<Entry>, n: nat)
    requires n <= |entries| && !Consistent(entries[..n])
    ensures !Consistent(entries)
  {
    var i, j :| 0 <= i < n && 0 <= j < n && Clashing(entries[..n][i], entries[..n][j])
                && entries[..n][i].identity != entries[..n][j].identity;
    assert Clashing(entries[i], entries[j]);
  }
}
