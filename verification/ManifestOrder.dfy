/** When the manifest digest depends on the order of the inventory. */
module ManifestOrder {
  import opened Prelude
  import opened Sorting
  import opened PromotionController

  lemma PathLeTotal()
    ensures TotalPreorder(PathLe)
  {
    forall a, b ensures PathLe(a, b) || PathLe(b, a) {
      StringLeTotal(a.path, b.path);
    }
    forall a, b, c | PathLe(a, b) && PathLe(b, c) ensures PathLe(a, c) {
      StringLeTransitive(a.path, b.path, c.path);
    }
  }

  function Paths(artifacts: seq<ManifestArtifact>): seq<string> {
    seq(|artifacts|, i requires 0 <= i < |artifacts| => artifacts[i].path)
  }

  lemma {:induction false} NoRepeatAt(s: seq<string>, i: nat, j: nat)
    requires NoRepeat(s) && i < j < |s|
    ensures s[i] != s[j]
  {
    var n := |s| - 1;
    if j < n {
      NoRepeatAt(s[..n], i, j);
    } else {
      assert s[..n][i] == s[i];
    }
  }

  lemma PathsDiffer(artifacts: seq<ManifestArtifact>, i: nat, j: nat)
    requires UniquePaths(artifacts) && i < j < |artifacts|
    ensures artifacts[i].path != artifacts[j].path
  {
    var paths := Paths(artifacts);
    assert ToSet(paths) == set a | a in artifacts :: a.path by {
      forall a | a in artifacts ensures a.path in paths {
        var k :| 0 <= k < |artifacts| && artifacts[k] == a;
        assert paths[k] == a.path;
      }
    }
    NoRepeatSet(paths);
    NoRepeatAt(paths, i, j);
  }

  lemma PathsIdentify(artifacts: seq<ManifestArtifact>)
    requires UniquePaths(artifacts)
    ensures AntisymmetricOn(PathLe, artifacts)
  {
    hide UniquePaths;
    forall a, b | a in artifacts && b in artifacts && PathLe(a, b) && PathLe(b, a) ensures a == b {
      StringLeTotal(a.path, b.path);
      var i :| 0 <= i < |artifacts| && artifacts[i] == a;
      var j :| 0 <= j < |artifacts| && artifacts[j] == b;
      if i < j { PathsDiffer(artifacts, i, j); }
      if j < i { PathsDiffer(artifacts, j, i); }
    }
  }

  /** The manifest digest does not depend on the order of the inventory, as long as its paths are unique. */
  lemma ManifestOrderIrrelevant(w: World, a: seq<ManifestArtifact>, b: seq<ManifestArtifact>)
    requires UniquePaths(a) && multiset(a) == multiset(b)
    ensures ManifestSha(w, a) == ManifestSha(w, b)
  {
    PathLeTotal();
    PathsIdentify(a);
    SortOfPermutation(PathLe, a, b);
  }

  /** The sorted manifests a hash has to tell apart. */
  ghost predicate Separates(w: World, a: seq<ManifestArtifact>, b: seq<ManifestArtifact>) {
    w.sha(ManifestPayload(Sort(PathLe, a))) == w.sha(ManifestPayload(Sort(PathLe, b))) ==>
      Sort(PathLe, a) == Sort(PathLe, b)
  }

  /** The artifacts listed at one path, in their order. */
  function AtPath(path: string, artifacts: seq<ManifestArtifact>): seq<ManifestArtifact> {
    if artifacts == [] then []
    else (if artifacts[0].path == path then [artifacts[0]] else []) + AtPath(path, artifacts[1..])
  }

  lemma {:induction false} AtPathConcat(path: string, a: seq<ManifestArtifact>, b: seq<ManifestArtifact>)
    ensures AtPath(path, a + b) == AtPath(path, a) + AtPath(path, b)
  {
    if a == [] {
      assert a + b == b;
    } else {
      assert (a + b)[1..] == a[1..] + b;
      AtPathConcat(path, a[1..], b);
    }
  }

  lemma {:induction false} AtPathMember(x: ManifestArtifact, artifacts: seq<ManifestArtifact>)
    ensures x in AtPath(x.path, artifacts) <==> x in artifacts
  {
    if artifacts != [] { AtPathMember(x, artifacts[1..]); }
  }

  lemma {:induction false} AtPathOnly(path: string, artifacts: seq<ManifestArtifact>)
    ensures forall x | x in AtPath(path, artifacts) :: x.path == path && x in artifacts
  {
    if artifacts != [] { AtPathOnly(path, artifacts[1..]); }
  }

  lemma {:induction false} InsertStable(path: string, x: ManifestArtifact, artifacts: seq<ManifestArtifact>)
    ensures AtPath(path, Insert(PathLe, x, artifacts)) == AtPath(path, [x] + artifacts)
  {
    assert ([x] + artifacts)[1..] == artifacts;
    if artifacts != [] && !PathLe(x, artifacts[0]) {
      InsertStable(path, x, artifacts[1..]);
      StringLeReflexive(x.path);
      var rest := Insert(PathLe, x, artifacts[1..]);
      assert ([artifacts[0]] + rest)[1..] == rest && ([x] + artifacts[1..])[1..] == artifacts[1..];
    }
  }

  /** Sorting by path keeps the order of the artifacts at each path. */
  lemma {:induction false} SortStable(path: string, artifacts: seq<ManifestArtifact>)
    ensures AtPath(path, Sort(PathLe, artifacts)) == AtPath(path, artifacts)
  {
    if artifacts != [] {
      SortStable(path, artifacts[1..]);
      var sorted := Sort(PathLe, artifacts[1..]);
      InsertStable(path, artifacts[0], sorted);
      assert ([artifacts[0]] + sorted)[1..] == sorted;
    }
  }

  /** Each path lists the same artifacts in the same order. */
  ghost predicate SameAtPaths(a: seq<ManifestArtifact>, b: seq<ManifestArtifact>) {
    forall path :: AtPath(path, a) == AtPath(path, b)
  }

  lemma LeastPath(a: seq<ManifestArtifact>, b: seq<ManifestArtifact>)
    requires SortedBy(PathLe, b) && SameAtPaths(a, b) && a != []
    ensures b != [] && PathLe(b[0], a[0])
  {
    AtPathMember(a[0], a);
    assert AtPath(a[0].path, a) == AtPath(a[0].path, b);
    AtPathMember(a[0], b);
    StringLeReflexive(a[0].path);
    var i :| 0 <= i < |b| && b[i] == a[0];
  }

  /** Sorted inventories that agree at every path are the same. */
  lemma {:induction false} SortedAgree(a: seq<ManifestArtifact>, b: seq<ManifestArtifact>)
    requires SortedBy(PathLe, a) && SortedBy(PathLe, b) && SameAtPaths(a, b)
    ensures a == b
  {
    if a != [] {
      LeastPath(a, b);
      LeastPath(b, a);
      var path := a[0].path;
      StringLeTotal(path, b[0].path);
      assert AtPath(path, a) == AtPath(path, b);
      assert AtPath(path, a)[0] == a[0] && AtPath(path, b)[0] == b[0];
      forall p ensures AtPath(p, a[1..]) == AtPath(p, b[1..]) {
        var head := if path == p then [a[0]] else [];
        assert AtPath(p, a) == head + AtPath(p, a[1..]) && AtPath(p, b) == head + AtPath(p, b[1..]);
        assert AtPath(p, a)[|head|..] == AtPath(p, a[1..]) && AtPath(p, b)[|head|..] == AtPath(p, b[1..]);
        assert AtPath(p, a) == AtPath(p, b);
      }
      SortedAgree(a[1..], b[1..]);
      assert a == [a[0]] + a[1..] && b == [b[0]] + b[1..];
    } else if b != [] {
      LeastPath(b, a);
    }
  }

  /** Two inventories have the same manifest digest exactly when each path lists the same artifacts in the same order. */
  lemma ManifestDigestEqual(w: World, a: seq<ManifestArtifact>, b: seq<ManifestArtifact>)
    requires Separates(w, a, b)
    ensures ManifestSha(w, a) == ManifestSha(w, b) <==> SameAtPaths(a, b)
  {
    forall path
      ensures AtPath(path, Sort(PathLe, a)) == AtPath(path, a) && AtPath(path, Sort(PathLe, b)) == AtPath(path, b)
    {
      SortStable(path, a);
      SortStable(path, b);
    }
    if SameAtPaths(a, b) {
      PathLeTotal();
      SortSorted(PathLe, a);
      SortSorted(PathLe, b);
      hide Sort, PathLe;
      SortedAgree(Sort(PathLe, a), Sort(PathLe, b));
    }
  }

  /** No two different artifacts share a path; the same one may be listed again. */
  predicate PathsTellApart(artifacts: seq<ManifestArtifact>) {
    forall x, y | x in artifacts && y in artifacts && x.path == y.path :: x == y
  }

  /** The hash separates the sorted arrangements of one inventory. */
  ghost predicate SeparatesOrders(w: World, a: seq<ManifestArtifact>) {
    forall b | multiset(b) == multiset(a) :: Separates(w, a, b)
  }

  /** No reordering changes the manifest digest of an inventory exactly when no two different artifacts in it share a
      path. */
  lemma ManifestOrderFree(w: World, a: seq<ManifestArtifact>)
    requires SeparatesOrders(w, a)
    ensures (forall b | multiset(b) == multiset(a) :: ManifestSha(w, b) == ManifestSha(w, a)) <==> PathsTellApart(a)
  {
    hide ManifestSha, Sort, PathLe;
    if PathsTellApart(a) {
      ApartAntisymmetric(a);
      forall b | multiset(b) == multiset(a) ensures ManifestSha(w, b) == ManifestSha(w, a) {
        SortedAlike(w, a, b);
      }
    } else {
      var x, y :| x in a && y in a && x.path == y.path && x != y;
      var i :| 0 <= i < |a| && a[i] == x;
      var j :| 0 <= j < |a| && a[j] == y;
      if i < j { SwapChanges(w, a, i, j); } else { SwapChanges(w, a, j, i); }
    }
  }

  lemma ApartAntisymmetric(a: seq<ManifestArtifact>)
    requires PathsTellApart(a)
    ensures AntisymmetricOn(PathLe, a)
  {
    forall x, y | x in a && y in a && PathLe(x, y) && PathLe(y, x) ensures x == y {
      StringLeTotal(x.path, y.path);
    }
  }

  lemma SortedAlike(w: World, a: seq<ManifestArtifact>, b: seq<ManifestArtifact>)
    requires AntisymmetricOn(PathLe, a) && multiset(b) == multiset(a)
    ensures ManifestSha(w, b) == ManifestSha(w, a)
  {
    PathLeTotal();
    SortOfPermutation(PathLe, a, b);
  }

  function Swapped(a: seq<ManifestArtifact>, i: nat, j: nat): seq<ManifestArtifact>
    requires i < j < |a|
  {
    a[i := a[j]][j := a[i]]
  }

  /** Two different artifacts at one path, exchanged, change the digest. */
  lemma SwapChanges(w: World, a: seq<ManifestArtifact>, i: nat, j: nat)
    requires i < j < |a| && a[i].path == a[j].path && a[i] != a[j] && SeparatesOrders(w, a)
    ensures multiset(Swapped(a, i, j)) == multiset(a) && ManifestSha(w, Swapped(a, i, j)) != ManifestSha(w, a)
  {
    hide ManifestSha, Separates;
    var b, path := Swapped(a, i, j), a[i].path;
    SwapPermutes(a, i, j);
    assert Separates(w, a, b);
    assert b[..i] == a[..i] && b[i] == a[j];
    AtRank(path, a, i);
    AtRank(path, b, i);
    hide AtPath, Swapped;
    assert AtPath(path, a) != AtPath(path, b);
    ManifestDigestEqual(w, a, b);
  }

  lemma SwapPermutes(a: seq<ManifestArtifact>, i: nat, j: nat)
    requires i < j < |a|
    ensures multiset(Swapped(a, i, j)) == multiset(a)
  {
    assert a == a[..i] + [a[i]] + a[i + 1..j] + [a[j]] + a[j + 1..];
    assert Swapped(a, i, j) == a[..i] + [a[j]] + a[i + 1..j] + [a[i]] + a[j + 1..];
  }

  /** An artifact stands behind those of its path that precede it. */
  lemma AtRank(path: string, a: seq<ManifestArtifact>, i: nat)
    requires i < |a| && a[i].path == path
    ensures var n := |AtPath(path, a[..i])|; n < |AtPath(path, a)| && AtPath(path, a)[n] == a[i]
  {
    assert a == a[..i] + a[i..] && a[i..][0] == a[i];
    AtPathConcat(path, a[..i], a[i..]);
  }

  /** With a path listed twice the order counts: sorting by path keeps it. */
  lemma RepeatedPathsOrdered(w: World, a: ManifestArtifact, b: ManifestArtifact)
    requires a.path == b.path && a != b && Separates(w, [a, b], [b, a])
    ensures !UniquePaths([a, b]) && multiset([a, b]) == multiset([b, a])
    ensures ManifestSha(w, [a, b]) != ManifestSha(w, [b, a])
  {
    hide ManifestSha;
    assert (set x | x in [a, b] :: x.path) == {a.path} by { assert a in [a, b]; }
    AtRank(a.path, [a, b], 0);
    AtRank(a.path, [b, a], 0);
    assert [a, b][..0] == [b, a][..0];
    ManifestDigestEqual(w, [a, b], [b, a]);
  }
}
