/** File systems closed under parents, and the least one with given files. */
module ClosedTrees {
  import opened Common
  import opened FileTree
  import opened Paths
  import opened Text

  const DOT_DOT := "/../"

  /** A path that never goes up again, so that its ancestors are its prefixes. */
  predicate Straight(p: Path) { !Occurs(p, DOT_DOT) }

  predicate HasParent(p: Path) { DirName(p) != p && DirName(p) != "" }

  /** What a lookup of a parent says about a lookup below it. */
  predicate Follows(parent: Node, child: Node) {
    match parent
    case Gone => child.Gone?
    case File(_) => child.NotDirectory?
    case NotDirectory => child.NotDirectory?
    case Refused => child.Refused?
    case Directory => !child.NotDirectory?
  }

  /** Paths that go up again are left free. */
  predicate ClosedAt(fs: FileSystem, p: Path) {
    Straight(p) && HasParent(p) ==> Follows(fs(DirName(p)), fs(p))
  }

  /** Closed under parents: nothing is below what is not a directory. */
  ghost predicate Closed(fs: FileSystem) { forall p: Path :: ClosedAt(fs, p) }

  lemma ParentIsStraight(p: Path)
    requires Straight(p)
    ensures Straight(DirName(p))
  {
    var parent := DirName(p);
    if parent != "/" {
      assert p == "" + parent + p[|parent|..];
      PartHasNone(parent, "", p[|parent|..], DOT_DOT);
    }
  }

  /** A proper ancestor, by names. */
  predicate Above(a: Path, p: Path)
    decreases |p|
  {
    HasParent(p) && (DirName(p) == a || Above(a, DirName(p)))
  }

  predicate Within(a: Path, p: Path) { p == a || Above(a, p) }

  lemma {:induction false} AboveIsShorter(a: Path, p: Path)
    requires Above(a, p)
    ensures |a| < |p|
    decreases |p|
  {
    if DirName(p) != a {
      AboveIsShorter(a, DirName(p));
    }
  }

  lemma {:induction false} AboveTrans(a: Path, b: Path, p: Path)
    requires Above(a, b) && Above(b, p)
    ensures Above(a, p)
    decreases |p|
  {
    if DirName(p) != b {
      AboveTrans(a, b, DirName(p));
    }
  }

  lemma {:induction false} ParentIsAbove(a: Path, p: Path)
    requires Within(a, p) && HasParent(a)
    ensures Above(DirName(a), p)
    decreases |p|
  {
    if a != p && DirName(p) != a {
      ParentIsAbove(a, DirName(p));
    }
  }

  // ---- what one lookup says about others -------------------------------------------

  lemma {:induction false} DirectoryAbove(fs: FileSystem, a: Path, p: Path)
    requires Closed(fs) && Straight(p) && Above(a, p) && Exists(fs(p))
    ensures fs(a).Directory?
    decreases |p|
  {
    assert ClosedAt(fs, p);
    if DirName(p) != a {
      ParentIsStraight(p);
      DirectoryAbove(fs, a, DirName(p));
    }
  }

  lemma {:induction false} NothingBelow(fs: FileSystem, a: Path, p: Path)
    requires Closed(fs) && Straight(p) && Above(a, p) && (fs(a).File? || ShownAbsent(fs(a)))
    ensures ShownAbsent(fs(p))
    decreases |p|
  {
    assert ClosedAt(fs, p);
    if DirName(p) != a {
      ParentIsStraight(p);
      NothingBelow(fs, a, DirName(p));
    }
  }

  // ---- the least tree --------------------------------------------------------------

  type Contents = Path -> Option<string>

  ghost predicate FileBelow(files: Contents, q: Path) {
    exists f :: files(f).Some? && Straight(f) && Above(q, f)
  }

  ghost predicate FileAbove(files: Contents, q: Path) {
    exists f :: files(f).Some? && Straight(f) && Above(f, q)
  }

  /** No file is below another. */
  ghost predicate Apart(files: Contents) {
    forall f, g :: files(f).Some? && files(g).Some? && Straight(f) && Straight(g) ==> !Above(f, g)
  }

  /**
   The given files, the directories that they are in, the directories down to
   `way` if there is one, and nothing else; paths that go up again are as in `rest`.
   */
  ghost function Least(files: Contents, way: Option<Path>, rest: FileSystem): FileSystem {
    (q: Path) =>
      if files(q).Some? then File(files(q).value)
      else if !Straight(q) then rest(q)
      else if FileBelow(files, q) || (way.Some? && Within(q, way.value)) then Directory
      else if FileAbove(files, q) then NotDirectory
      else Gone
  }

  lemma BelowGoesUp(files: Contents, q: Path)
    requires Straight(q) && HasParent(q) && (files(q).Some? || FileBelow(files, q))
    ensures FileBelow(files, DirName(q))
  {
    if files(q).Some? {
      assert Above(DirName(q), q);
    } else {
      var f :| files(f).Some? && Straight(f) && Above(q, f);
      ParentIsAbove(q, f);
    }
  }

  lemma AboveGoesDown(files: Contents, q: Path)
    requires HasParent(q)
    ensures FileAbove(files, q) <==> FileAbove(files, DirName(q)) || (files(DirName(q)).Some? && Straight(DirName(q)))
  {
    if FileAbove(files, DirName(q)) {
      var f :| files(f).Some? && Straight(f) && Above(f, DirName(q));
      assert Above(f, q);
    }
    if files(DirName(q)).Some? && Straight(DirName(q)) {
      assert Above(DirName(q), q);
    }
  }

  lemma NoFileBetween(files: Contents, q: Path)
    requires Apart(files) && FileAbove(files, q)
    ensures Straight(q) ==> files(q).None?
    ensures !FileBelow(files, q)
  {
    var f :| files(f).Some? && Straight(f) && Above(f, q);
    if FileBelow(files, q) {
      var g :| files(g).Some? && Straight(g) && Above(q, g);
      AboveTrans(f, q, g);
    }
  }

  lemma LeastIsClosedAt(files: Contents, way: Option<Path>, rest: FileSystem, q: Path)
    requires Apart(files) && (way.Some? ==> files(way.value).None? && !FileAbove(files, way.value))
    ensures ClosedAt(Least(files, way, rest), q)
  {
    if Straight(q) && HasParent(q) {
      var d := DirName(q);
      ParentIsStraight(q);
      AboveGoesDown(files, q);
      if files(q).Some? || FileBelow(files, q) {
        BelowGoesUp(files, q);
      }
      if FileAbove(files, q) {
        NoFileBetween(files, q);
      }
      if FileAbove(files, d) {
        NoFileBetween(files, d);
      }
      if way.Some? {
        OffTheWay(files, way.value, q);
      }
      assert files(d).Some? && files(q).Some? ==> Above(d, q);
    }
  }

  lemma OffTheWay(files: Contents, way: Path, q: Path)
    requires files(way).None? && !FileAbove(files, way) && Straight(q) && HasParent(q)
    ensures Within(q, way) ==> Within(DirName(q), way)
    ensures Within(q, way) ==> files(q).None? && !FileAbove(files, q)
    ensures Within(DirName(q), way) ==> files(DirName(q)).None? && !FileAbove(files, DirName(q))
  {
    ParentIsStraight(q);
    if Within(q, way) {
      ParentIsAbove(q, way);
      NoFileOnWay(files, way, q);
    }
    if Within(DirName(q), way) {
      NoFileOnWay(files, way, DirName(q));
    }
  }

  lemma NoFileOnWay(files: Contents, way: Path, q: Path)
    requires files(way).None? && !FileAbove(files, way) && Straight(q) && Within(q, way)
    ensures files(q).None? && !FileAbove(files, q)
  {
    if FileAbove(files, q) {
      var f :| files(f).Some? && Straight(f) && Above(f, q);
      if q != way {
        AboveTrans(f, q, way);
      }
    }
  }

  lemma LeastIsClosed(files: Contents, way: Option<Path>, rest: FileSystem)
    requires Apart(files) && (way.Some? ==> files(way.value).None? && !FileAbove(files, way.value))
    ensures Closed(Least(files, way, rest))
  {
    forall q: Path ensures ClosedAt(Least(files, way, rest), q) {
      LeastIsClosedAt(files, way, rest, q);
    }
  }
}
