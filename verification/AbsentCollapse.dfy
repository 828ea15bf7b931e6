/** Recording, for an absent path, the highest of its ancestors that is missing too. */
module AbsentCollapse {
  import opened ClosedTrees
  import opened Common
  import opened FileTree
  import opened Paths
  import opened Text
  import Roots

  /** Whether the walk goes on to the parent. */
  predicate GoesUp(fs: FileSystem, stops: set<Path>, p: Path) {
    p !in stops && |DirName(p)| > 1 && DirName(p) != p && !Exists(fs(DirName(p)))
  }

  function Highest(fs: FileSystem, stops: set<Path>, p: Path): Path
    decreases |p|
  {
    if GoesUp(fs, stops, p) then Highest(fs, stops, DirName(p)) else p
  }

  function Collapsed(fs: FileSystem, stops: set<Path>, p: Path): Path {
    if Straight(p) then Highest(fs, stops, p) else p
  }

  // ---- the walk loses nothing ------------------------------------------------------

  /** Wherever the recorded ancestor is absent, in any closed file system, so is the path. */
  lemma {:induction false} AbsentBelow(fs: FileSystem, stops: set<Path>, p: Path, fs': FileSystem)
    requires Closed(fs') && Straight(p) && ShownAbsent(fs'(Highest(fs, stops, p)))
    ensures ShownAbsent(fs'(p))
    decreases |p|
  {
    if GoesUp(fs, stops, p) {
      ParentIsStraight(p);
      AbsentBelow(fs, stops, DirName(p), fs');
      assert ClosedAt(fs', p);
    }
  }

  /** And in the file system it was recorded in, the recorded ancestor is absent when the path is. */
  lemma {:induction false} HighestIsAbsent(fs: FileSystem, stops: set<Path>, p: Path)
    requires Closed(fs) && Straight(p) && fs(p).Gone?
    ensures fs(Highest(fs, stops, p)).Gone?
    decreases |p|
  {
    if GoesUp(fs, stops, p) {
      ParentIsStraight(p);
      assert ClosedAt(fs, p);
      HighestIsAbsent(fs, stops, DirName(p));
    }
  }

  // ---- the walk goes as far as it may ----------------------------------------------

  /**
   The recorded path is the path or one above it; it, and every directory from it down to
   the path, was missing and no stop was passed; and it is a stop, or at the top, or its
   parent is there.
   */
  lemma {:induction false} HighestIsHighest(fs: FileSystem, stops: set<Path>, p: Path)
    ensures var high := Highest(fs, stops, p);
            && Within(high, p)
            && (high in stops || |DirName(high)| <= 1 || DirName(high) == high || Exists(fs(DirName(high))))
            && (forall d :: Above(d, p) && Within(high, d) ==> !Exists(fs(d)))
            && (forall d :: Within(d, p) && Above(high, d) ==> d !in stops)
    decreases |p|
  {
    var high := Highest(fs, stops, p);
    if GoesUp(fs, stops, p) {
      HighestIsHighest(fs, stops, DirName(p));
    } else {
      forall d | Within(d, p) ensures !Above(high, d) {
        ShorterWithin(d, p);
      }
    }
  }

  lemma ShorterWithin(d: Path, p: Path)
    requires Within(d, p)
    ensures !Above(p, d) && (d != p ==> !Within(p, d))
  {
    if d != p {
      AboveIsShorter(d, p);
    }
    if Above(p, d) {
      AboveIsShorter(p, d);
    }
  }

  // ---- the walk stays within a root ------------------------------------------------

  lemma ParentUnderRoot(p: Path, root: Path)
    requires Roots.IsUnder(p, root) && p != root && root != "" && root != "/"
    ensures Roots.IsUnder(DirName(p), root)
  {
    assert p[|root|] == '/';
    assert LastSlash(p) >= |root|;
  }

  /** Above a root a path would name one tree's location; the walk stops at the root. */
  lemma {:induction false} StaysUnderRoot(fs: FileSystem, stops: set<Path>, p: Path, root: Path)
    requires Roots.IsUnder(p, root) && root in stops && root != "" && root != "/"
    ensures Roots.IsUnder(Collapsed(fs, stops, p), root)
    decreases |p|
  {
    if Straight(p) && GoesUp(fs, stops, p) {
      ParentUnderRoot(p, root);
      ParentIsStraight(p);
      StaysUnderRoot(fs, stops, DirName(p), root);
    }
  }

  // ---- the loop, with its cache of directories looked up ---------------------------

  ghost predicate CacheOk(fs: FileSystem, cache: map<Path, bool>) {
    forall d :: d in cache ==> cache[d] == Exists(fs(d))
  }

  method Present(fs: FileSystem, dir: Path, cache: map<Path, bool>) returns (present: bool, cache': map<Path, bool>)
    requires CacheOk(fs, cache)
    ensures present == Exists(fs(dir)) && CacheOk(fs, cache')
  {
    cache' := cache;
    if dir !in cache {
      cache' := cache[dir := Exists(fs(dir))];
    }
    present := cache'[dir];
  }

  method FindHighest(fs: FileSystem, stops: set<Path>, path: Path, cache: map<Path, bool>)
    returns (highest: Path, cache': map<Path, bool>)
    requires CacheOk(fs, cache)
    ensures highest == Collapsed(fs, stops, path) && CacheOk(fs, cache')
  {
    highest, cache' := path, cache;
    if Straight(path) {
      var parent := DirName(highest);
      while highest !in stops && |parent| > 1 && parent != highest
        invariant parent == DirName(highest) && CacheOk(fs, cache')
        invariant Highest(fs, stops, highest) == Highest(fs, stops, path)
        decreases |highest|
      {
        var present;
        present, cache' := Present(fs, parent, cache');
        if present {
          break;
        }
        highest := parent;
        parent := DirName(parent);
      }
    }
  }

  /** Every absent path, collapsed and made canonical. */
  method AddAbsent(fs: FileSystem, roots: seq<Roots.Root>, cwd: Path, absent: seq<Path>) returns (recorded: seq<Path>)
    ensures |recorded| == |absent|
    ensures forall i :: 0 <= i < |absent| ==>
              recorded[i] == Roots.Canonicalize(roots, Collapsed(fs, Stops(roots, cwd), absent[i]))
  {
    recorded := [];
    var cache: map<Path, bool> := map[];
    for i := 0 to |absent|
      invariant |recorded| == i && CacheOk(fs, cache)
      invariant forall j :: 0 <= j < i ==>
                  recorded[j] == Roots.Canonicalize(roots, Collapsed(fs, Stops(roots, cwd), absent[j]))
    {
      var highest;
      highest, cache := FindHighest(fs, Stops(roots, cwd), absent[i], cache);
      recorded := recorded + [Roots.Canonicalize(roots, highest)];
    }
  }

  function Stops(roots: seq<Roots.Root>, cwd: Path): set<Path> {
    {cwd} + set i | 0 <= i < |roots| :: roots[i].path
  }

  lemma CoveredStaysCovered(fs: FileSystem, roots: seq<Roots.Root>, cwd: Path, p: Path)
    requires Roots.Covers(roots, p) && forall i :: 0 <= i < |roots| ==> roots[i].path != "" && roots[i].path != "/"
    ensures Roots.Covers(roots, Collapsed(fs, Stops(roots, cwd), p))
  {
    var i :| 0 <= i < |roots| && Roots.IsUnder(p, roots[i].path);
    StaysUnderRoot(fs, Stops(roots, cwd), p, roots[i].path);
  }
}

/** Hits on entries whose absences were collapsed. */
module CollapsedHit {
  import opened AbsentCollapse
  import opened ClosedTrees
  import opened Common
  import opened FileTree
  import opened LinkManifest
  import opened Paths
  import opened ProbingProgram
  import opened Text
  import opened TreeHits

  function CollapsedEntry(e: Entry, fs: FileSystem, stops: set<Path>): Entry {
    Entry(e.inputs, set p | p in e.absent :: Collapsed(fs, stops, p))
  }

  /** In a file system closed under parents, the collapsed entry holds only if the full one does. */
  lemma CollapsedImplies(l: Link, e: Entry, at: FileSystem, stops: set<Path>, fs': FileSystem)
    requires Closed(fs') && StillHolds(l, CollapsedEntry(e, at, stops), fs')
    ensures StillHolds(l, e, fs')
  {
    forall p | p in e.absent ensures ShownAbsent(fs'(p)) {
      assert Collapsed(at, stops, p) in CollapsedEntry(e, at, stops).absent;
      if Straight(p) {
        AbsentBelow(at, stops, p, fs');
      }
    }
  }

  /** So a hit on the collapsed entry is as sound as one on the full entry. */
  lemma CollapsedHitIsSound(program: Program, l: Link, fs: FileSystem, acts: seq<Act>, output: string,
                            at: FileSystem, stops: set<Path>, fs': FileSystem)
    requires Injective(l.hash) && Runs(program, fs, Blind(l), acts, output) && ProbesSettled(l, fs, acts)
    requires Closed(fs') && SamePreKey(l, fs, fs')
    requires StillHolds(l, CollapsedEntry(RecordedEntry(l, fs, acts), at, stops), fs')
    ensures Runs(program, fs', Blind(l), acts, output)
    ensures forall acts', output' :: Runs(program, fs', Blind(l), acts', output') ==> acts' == acts && output' == output
  {
    CollapsedImplies(l, RecordedEntry(l, fs, acts), at, stops, fs');
    TreeHitIsSound(program, l, fs, acts, output, fs');
  }

  /** And the collapsed entry still holds where it was recorded. */
  lemma CollapsedHoldsAtHome(l: Link, e: Entry, at: FileSystem, stops: set<Path>)
    requires Closed(at) && StillHolds(l, e, at) && forall p :: p in e.absent ==> at(p).Gone?
    ensures StillHolds(l, CollapsedEntry(e, at, stops), at)
  {
    forall p | p in e.absent ensures at(Collapsed(at, stops, p)).Gone? {
      if Straight(p) {
        HighestIsAbsent(at, stops, p);
      }
    }
  }

  /** Without closure under parents the collapse can hide a file that has appeared. */
  lemma CollapseNeedsClosure()
    ensures exists at: FileSystem, fs': FileSystem, p: Path ::
              ShownAbsent(fs'(Collapsed(at, {}, p))) && !ShownAbsent(fs'(p)) && at(p).Gone?
  {
    var at: FileSystem := _ => Gone;
    var fs': FileSystem := q => if q == "/a/b" then Directory else Gone;
    var p := "/a/b";
    assert p[0] == '/' && p[2] == '/' && |p| == 4;
    LastSlashIs(p, 2);
    assert DirName(p) == "/a";
    LastSlashIs("/a", 0);
    assert GoesUp(at, {}, p) && Highest(at, {}, p) == Highest(at, {}, "/a") == "/a";
    assert Straight(p) && Collapsed(at, {}, p) == "/a";
    assert ShownAbsent(fs'(Collapsed(at, {}, p))) && !ShownAbsent(fs'(p)) && at(p).Gone?;
  }
}
