/**
 Mapping between local paths and canonical ones through configured roots, so
 that two checkouts of one tree share cache keys.
 */
module Roots {
  import opened Common

  type Path = string

  datatype Root = Root(path: Path, canonical: Path)

  /** `path` is `root` or lies beneath it, by whole components. */
  predicate IsUnder(path: Path, root: Path) {
    root <= path && (|path| == |root| || root == "/" || path[|root|] == '/')
  }

  /** A sibling whose name only begins as the root's does is not beneath it. */
  lemma UnderExactly(path: Path, root: Path)
    ensures IsUnder(path, root) <==>
            path == root || (root == "/" && path != "" && path[0] == '/') || exists rest :: path == root + "/" + rest
  {
    if IsUnder(path, root) && path != root && root != "/" {
      assert path == root + "/" + path[|root| + 1..];
    } else if exists rest :: path == root + "/" + rest {
      var rest :| path == root + "/" + rest;
      assert path[..|root|] == root && path[|root|] == '/';
    }
  }

  // ---- the order of roots ----------------------------------------------------------

  /** Byte order of strings. */
  predicate Before(a: Path, b: Path) {
    b != "" && (a == "" || a[0] < b[0] || (a[0] == b[0] && Before(a[1..], b[1..])))
  }

  /** Shorter paths first, then byte order. */
  predicate RootLess(a: Root, b: Root) {
    if |a.path| != |b.path| then |a.path| < |b.path| else Before(a.path, b.path)
  }

  ghost predicate Sorted(roots: seq<Root>) {
    forall i, j :: 0 <= i < j < |roots| ==> !RootLess(roots[j], roots[i])
  }

  ghost predicate DistinctPaths(roots: seq<Root>) {
    forall i, j :: 0 <= i < j < |roots| ==> roots[i].path != roots[j].path
  }

  lemma BeforeTotal(a: Path, b: Path)
    ensures a != b ==> Before(a, b) || Before(b, a)
    ensures !(Before(a, b) && Before(b, a))
  {
  }

  lemma BeforeTransitive(a: Path, b: Path, c: Path)
    requires Before(a, b) && Before(b, c)
    ensures Before(a, c)
  {
  }

  function InsertRoot(r: Root, sorted: seq<Root>): seq<Root> {
    if sorted == [] || !RootLess(sorted[0], r) then [r] + sorted else [sorted[0]] + InsertRoot(r, sorted[1..])
  }

  lemma {:induction false} InsertRootSorts(r: Root, sorted: seq<Root>)
    requires Sorted(sorted)
    ensures Sorted(InsertRoot(r, sorted)) && multiset(InsertRoot(r, sorted)) == multiset(sorted) + multiset{r}
    decreases |sorted|
  {
    if sorted != [] {
      assert sorted == [sorted[0]] + sorted[1..];
      if RootLess(sorted[0], r) {
        var rest := InsertRoot(r, sorted[1..]);
        InsertRootSorts(r, sorted[1..]);
        forall x | x in rest ensures !RootLess(x, sorted[0]) {
          assert x in multiset(rest);
          if x == r {
            BeforeTotal(sorted[0].path, r.path);
          } else {
            assert x in sorted[1..];
          }
        }
      } else {
        forall x | x in sorted ensures !RootLess(x, r) {
          if RootLess(x, r) {
            var i :| 0 <= i < |sorted| && sorted[i] == x;
            assert i != 0 && !RootLess(x, sorted[0]);
            NotLess(x, r, sorted[0]);
          }
        }
      }
    }
  }

  /** From "x < r" and "head is not less than r" follows "x < head". */
  lemma NotLess(x: Root, r: Root, head: Root)
    requires RootLess(x, r) && !RootLess(head, r)
    ensures RootLess(x, head)
  {
    BeforeTotal(head.path, r.path);
    if |x.path| == |r.path| == |head.path| && head.path != r.path {
      BeforeTransitive(x.path, r.path, head.path);
    }
  }

  method SortRoots(roots: seq<Root>) returns (sorted: seq<Root>)
    ensures Sorted(sorted) && multiset(sorted) == multiset(roots)
  {
    sorted := [];
    var i := |roots|;
    while i > 0
      invariant 0 <= i <= |roots| && Sorted(sorted) && multiset(sorted) == multiset(roots[i..])
    {
      i := i - 1;
      assert roots[i..] == [roots[i]] + roots[i + 1..];
      InsertRootSorts(roots[i], sorted);
      sorted := InsertRoot(roots[i], sorted);
    }
    assert roots[0..] == roots;
  }

  // ---- mapping ---------------------------------------------------------------------

  predicate Covers(roots: seq<Root>, path: Path) {
    exists i :: 0 <= i < |roots| && IsUnder(path, roots[i].path)
  }

  /** The last root in the list that covers the path, or the list's length. */
  function LastCovering(roots: seq<Root>, path: Path): (r: nat)
    ensures r <= |roots|
    ensures r < |roots| ==> IsUnder(path, roots[r].path)
                            && forall j :: r < j < |roots| ==> !IsUnder(path, roots[j].path)
    ensures r == |roots| <==> !Covers(roots, path)
  {
    if roots == [] then 0
    else if IsUnder(path, roots[|roots| - 1].path) then |roots| - 1
    else
      var r := LastCovering(roots[..|roots| - 1], path);
      if r == |roots| - 1 then |roots| else r
  }

  /** Replaces the prefix of the most specific covering root. */
  function Canonicalize(roots: seq<Root>, path: Path): Path {
    var r := LastCovering(roots, path);
    if r == |roots| then path else roots[r].canonical + path[|roots[r].path|..]
  }

  method CanonicalizePath(roots: seq<Root>, path: Path) returns (canonical: Path)
    ensures canonical == Canonicalize(roots, path)
  {
    var i := |roots|;
    while i > 0
      invariant 0 <= i <= |roots| && forall j :: i <= j < |roots| ==> !IsUnder(path, roots[j].path)
    {
      i := i - 1;
      if IsUnder(path, roots[i].path) {
        return roots[i].canonical + path[|roots[i].path|..];
      }
    }
    canonical := path;
  }

  predicate Improves(roots: seq<Root>, path: Path, best: nat, i: nat)
    requires i < |roots| && best <= |roots|
  {
    IsUnder(path, roots[i].canonical) && (best == |roots| || |roots[i].canonical| > |roots[best].canonical|)
  }

  /** From `best`, the first root at or after `i` with the longest canonical prefix the path is under. */
  function BestCanonical(roots: seq<Root>, path: Path, best: nat, i: nat): (r: nat)
    requires i <= |roots| && best <= |roots| && (best < |roots| ==> IsUnder(path, roots[best].canonical))
    ensures r <= |roots| && (r < |roots| ==> IsUnder(path, roots[r].canonical))
    ensures best < |roots| ==> r < |roots| && |roots[best].canonical| <= |roots[r].canonical|
    ensures forall j :: i <= j < |roots| && IsUnder(path, roots[j].canonical) ==>
              r < |roots| && |roots[j].canonical| <= |roots[r].canonical|
    decreases |roots| - i
  {
    if i == |roots| then best
    else BestCanonical(roots, path, if Improves(roots, path, best, i) then i else best, i + 1)
  }

  /** Of the roots whose canonical form the path is under, `best` is the longest, and the first of those. */
  ghost predicate FirstLongest(roots: seq<Root>, path: Path, best: nat, n: nat)
    requires n <= |roots| && best <= |roots|
  {
    forall j :: 0 <= j < n && IsUnder(path, roots[j].canonical) ==>
      && best < |roots| && |roots[j].canonical| <= |roots[best].canonical|
      && (j < best ==> |roots[j].canonical| < |roots[best].canonical|)
  }

  lemma {:induction false} BestIsFirstLongest(roots: seq<Root>, path: Path, best: nat, i: nat)
    requires i <= |roots| && best <= |roots|
    requires best < |roots| ==> best < i && IsUnder(path, roots[best].canonical)
    requires FirstLongest(roots, path, best, i)
    ensures FirstLongest(roots, path, BestCanonical(roots, path, best, i), |roots|)
    decreases |roots| - i
  {
    if i < |roots| {
      BestIsFirstLongest(roots, path, if Improves(roots, path, best, i) then i else best, i + 1);
    }
  }

  function Localize(roots: seq<Root>, path: Path): Path {
    var b := BestCanonical(roots, path, |roots|, 0);
    if b == |roots| then path else roots[b].path + path[|roots[b].canonical|..]
  }

  method LocalizePath(roots: seq<Root>, path: Path) returns (local: Path)
    ensures local == Localize(roots, path)
  {
    var best: nat := |roots|;
    for i := 0 to |roots|
      invariant best <= |roots| && (best < |roots| ==> IsUnder(path, roots[best].canonical))
      invariant BestCanonical(roots, path, best, i) == BestCanonical(roots, path, |roots|, 0)
    {
      if IsUnder(path, roots[i].canonical) && (best == |roots| || |roots[i].canonical| > |roots[best].canonical|) {
        best := i;
      }
    }
    if best == |roots| {
      return path;
    }
    local := roots[best].path + path[|roots[best].canonical|..];
  }

  // ---- the longest root wins, whatever the order -----------------------------------

  /** Two roots that cover one path and are equally long are the same path. */
  lemma LongestIsUnique(path: Path, a: Path, b: Path)
    requires IsUnder(path, a) && IsUnder(path, b) && |a| == |b|
    ensures a == b
  {
    assert a == path[..|a|] == b;
  }

  /** Canonicalize picks the longest covering root. */
  lemma PicksLongest(roots: seq<Root>, path: Path)
    requires Sorted(roots) && Covers(roots, path)
    ensures var r := LastCovering(roots, path);
            r < |roots| && IsUnder(path, roots[r].path)
            && forall j :: 0 <= j < |roots| && IsUnder(path, roots[j].path) ==> |roots[j].path| <= |roots[r].path|
  {
  }

  lemma CoversElements(a: seq<Root>, b: seq<Root>, path: Path)
    requires forall x :: x in a ==> x in b
    ensures Covers(a, path) ==> Covers(b, path)
  {
    if Covers(a, path) {
      var i :| 0 <= i < |a| && IsUnder(path, a[i].path);
      assert a[i] in b;
    }
  }

  /** With distinct root paths, the spec order does not matter. */
  lemma OrderDoesNotMatter(a: seq<Root>, b: seq<Root>, path: Path)
    requires Sorted(a) && Sorted(b) && multiset(a) == multiset(b) && DistinctPaths(a)
    ensures Canonicalize(a, path) == Canonicalize(b, path)
  {
    forall x ensures x in a <==> x in b {
      assert x in multiset(a) <==> x in multiset(b);
    }
    if Covers(a, path) {
      var r := LastCovering(a, path);
      PicksLongest(a, path);
      CoversElements(a, b, path);
      assert a[r] in b;
      PicksLongest(b, path);
      var q := LastCovering(b, path);
      assert b[q] in a;
      LongestIsUnique(path, a[r].path, b[q].path);
      var n :| 0 <= n < |a| && a[n] == b[q];
      assert n == r;
    } else {
      CoversElements(b, a, path);
    }
  }

  // ---- relocation ------------------------------------------------------------------

  function Moved(roots: seq<Root>, to: Path, from: nat): seq<Root>
    requires forall i :: 0 <= i < |roots| ==> from <= |roots[i].path|
  {
    seq(|roots|, i requires 0 <= i < |roots| => Root(to + roots[i].path[from..], roots[i].canonical))
  }

  /** Every root is the prefix and something after it, and neither it nor its moved form is "/". */
  predicate Movable(roots: seq<Root>, a: Path, b: Path) {
    forall i :: 0 <= i < |roots| ==>
      a <= roots[i].path && roots[i].path != "/" && b + roots[i].path[|a|..] != "/"
  }

  lemma UnderMoves(a: Path, b: Path, root: Path, path: Path)
    requires a <= root && a <= path && root != "/" && b + root[|a|..] != "/"
    ensures IsUnder(b + path[|a|..], b + root[|a|..]) <==> IsUnder(path, root)
  {
    var root', path' := b + root[|a|..], b + path[|a|..];
    if root <= path {
      assert path[|a|..][..|root[|a|..]|] == root[|a|..];
      assert path'[..|root'|] == root';
    }
    if root' <= path' {
      assert path[..|root|] == a + path'[|b|..][..|root| - |a|];
      assert root == a + root'[|b|..];
      assert path'[|b|..][..|root| - |a|] == root'[|b|..];
      assert path[..|root|] == root;
    }
  }

  lemma MovedCovering(roots: seq<Root>, a: Path, b: Path, path: Path)
    requires Movable(roots, a, b) && a <= path
    ensures LastCovering(Moved(roots, b, |a|), b + path[|a|..]) == LastCovering(roots, path)
  {
    var roots', path' := Moved(roots, b, |a|), b + path[|a|..];
    forall i | 0 <= i < |roots| ensures IsUnder(path', roots'[i].path) <==> IsUnder(path, roots[i].path) {
      UnderMoves(a, b, roots[i].path, path);
    }
    var r, r' := LastCovering(roots, path), LastCovering(roots', path');
    assert r < |roots| ==> IsUnder(path', roots'[r].path);
    assert r' < |roots| ==> IsUnder(path, roots[r'].path);
  }

  /**
   Relocation: replacing prefix `a` by `b` in every root and in the path leaves
   the canonical form unchanged exactly when the path is covered (or nothing
   moved): a path outside every root keeps its own spelling.
   */
  lemma RelocationExactly(roots: seq<Root>, a: Path, b: Path, path: Path)
    requires Movable(roots, a, b) && a <= path
    ensures Canonicalize(Moved(roots, b, |a|), b + path[|a|..]) == Canonicalize(roots, path) <==>
            Covers(roots, path) || a == b
  {
    MovedCovering(roots, a, b, path);
    var r := LastCovering(roots, path);
    if r < |roots| {
      RestMoves(a, b, roots[r].path, path);
    } else {
      PrefixesCancel(a, b, path[|a|..]);
      assert path == a + path[|a|..];
    }
  }

  lemma {:induction false} BeforeCancels(common: Path, x: Path, y: Path)
    ensures Before(common + x, common + y) <==> Before(x, y)
  {
    if common == "" {
      assert common + x == x && common + y == y;
    } else {
      assert (common + x)[1..] == common[1..] + x && (common + y)[1..] == common[1..] + y;
      BeforeCancels(common[1..], x, y);
    }
  }

  lemma RootLessMoves(a: Path, b: Path, x: Root, y: Root)
    requires a <= x.path && a <= y.path
    ensures RootLess(Root(b + x.path[|a|..], x.canonical), Root(b + y.path[|a|..], y.canonical)) <==> RootLess(x, y)
  {
    assert x.path == a + x.path[|a|..] && y.path == a + y.path[|a|..];
    BeforeCancels(a, x.path[|a|..], y.path[|a|..]);
    BeforeCancels(b, x.path[|a|..], y.path[|a|..]);
  }

  /** Roots moved together stay in the order that they are searched in. */
  lemma MovedStaySorted(roots: seq<Root>, a: Path, b: Path)
    requires forall i :: 0 <= i < |roots| ==> a <= roots[i].path
    ensures Sorted(Moved(roots, b, |a|)) <==> Sorted(roots)
  {
    var moved := Moved(roots, b, |a|);
    forall i, j | 0 <= i < j < |roots| ensures RootLess(moved[j], moved[i]) <==> RootLess(roots[j], roots[i]) {
      RootLessMoves(a, b, roots[j], roots[i]);
    }
  }

  lemma RestMoves(a: Path, b: Path, root: Path, path: Path)
    requires a <= root <= path
    ensures (b + path[|a|..])[|b + root[|a|..]|..] == path[|root|..]
  {
  }

  lemma PrefixesCancel(a: Path, b: Path, rest: Path)
    ensures b + rest == a + rest ==> a == b
  {
    if b + rest == a + rest {
      assert |a| == |b|;
      assert a == (a + rest)[..|a|] && b == (b + rest)[..|b|];
    }
  }

  // ---- localising undoes canonicalising --------------------------------------------

  /** No canonical prefix is another's or lies under it, and no root is "/". */
  ghost predicate Unambiguous(roots: seq<Root>) {
    && (forall i, j :: 0 <= i < |roots| && 0 <= j < |roots| && i != j ==>
          !IsUnder(roots[i].canonical, roots[j].canonical))
    && (forall i :: 0 <= i < |roots| ==> roots[i].path != "/")
  }

  lemma OnlyOneCanonical(path: Path, c: Path, d: Path)
    requires IsUnder(path, c) && IsUnder(path, d) && |c| <= |d|
    ensures IsUnder(d, c)
  {
    assert d[..|c|] == path[..|c|] == c;
  }

  lemma BestIs(roots: seq<Root>, out: Path, r: nat)
    requires Unambiguous(roots) && r < |roots| && IsUnder(out, roots[r].canonical)
    ensures BestCanonical(roots, out, |roots|, 0) == r
  {
    var b := BestCanonical(roots, out, |roots|, 0);
    OnlyOneCanonical(out, roots[r].canonical, roots[b].canonical);
  }

  lemma LocalizeUndoesCanonicalize(roots: seq<Root>, path: Path)
    requires Unambiguous(roots)
    requires Covers(roots, path) || forall i :: 0 <= i < |roots| ==> !IsUnder(path, roots[i].canonical)
    ensures Localize(roots, Canonicalize(roots, path)) == path
  {
    if Covers(roots, path) {
      var r := LastCovering(roots, path);
      var out := Canonicalize(roots, path);
      var rest := path[|roots[r].path|..];
      assert out == roots[r].canonical + rest;
      BestIs(roots, out, r);
      assert out[|roots[r].canonical|..] == rest;
      assert roots[r].path + rest == path;
    }
  }
}
