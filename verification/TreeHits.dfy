/** Hits in file systems closed under parents, where one recorded fact settles others. */
module TreeHits {
  import opened ClosedTrees
  import opened Common
  import opened FileTree
  import opened LinkManifest
  import opened ProbingProgram

  // ---- what a hit demands ----------------------------------------------------------

  /**
   The content a hit demands of a path: what the entry recorded when the run was over,
   or what the pre-key did before.
   */
  function Demanded(l: Link, fs: FileSystem, acts: seq<Act>): Contents {
    var e := RecordedEntry(l, fs, acts);
    (q: Path) =>
      if q in e.inputs && Seen(fs, acts, q).File? then Some(Seen(fs, acts, q).content)
      else if q in l.named && fs(q).File? then Some(fs(q).content)
      else None
  }

  /** A hit demands just these: files with their contents, absences, and named paths that are no file still. */
  ghost predicate Meets(l: Link, fs: FileSystem, acts: seq<Act>, fs': FileSystem) {
    && (forall q :: Demanded(l, fs, acts)(q).Some? ==> fs'(q) == File(Demanded(l, fs, acts)(q).value))
    && (forall q :: q in RecordedEntry(l, fs, acts).absent ==> ShownAbsent(fs'(q)))
    && (forall q :: q in l.named && !fs(q).File? ==> !fs'(q).File?)
  }

  lemma HitMeets(l: Link, fs: FileSystem, acts: seq<Act>, fs': FileSystem)
    requires Injective(l.hash)
    ensures Hit(l, fs, acts, fs') <==> Meets(l, fs, acts, fs')
  {
    var e := RecordedEntry(l, fs, acts);
    if Hit(l, fs, acts, fs') {
      forall q | Demanded(l, fs, acts)(q).Some? ensures fs'(q) == File(Demanded(l, fs, acts)(q).value) {
        assert q in e.inputs || HashFile(l.hash, fs, q) == HashFile(l.hash, fs', q);
      }
    }
    if Meets(l, fs, acts, fs') {
      forall q | q in e.inputs ensures HashFile(l.hash, fs', q) == Some(e.inputs[q]) {
        assert Demanded(l, fs, acts)(q) == Some(Seen(fs, acts, q).content);
      }
      forall q | q in l.named ensures HashFile(l.hash, fs, q) == HashFile(l.hash, fs', q) {
        assert q !in e.inputs;
      }
    }
  }

  // ---- what follows in a tree ------------------------------------------------------

  /** Nothing can be below: the hit demands a file there, or an absence. */
  predicate Closes(l: Link, fs: FileSystem, acts: seq<Act>, a: Path) {
    Straight(a) && (Demanded(l, fs, acts)(a).Some? || a in RecordedEntry(l, fs, acts).absent)
  }

  ghost predicate ClosedOff(l: Link, fs: FileSystem, acts: seq<Act>, p: Path) {
    p in RecordedEntry(l, fs, acts).absent || (Straight(p) && exists a :: Closes(l, fs, acts, a) && Above(a, p))
  }

  ghost predicate OpenedUp(l: Link, fs: FileSystem, acts: seq<Act>, p: Path) {
    Straight(p) && FileBelow(Demanded(l, fs, acts), p)
  }

  /**
   The answer the run got at p is the one a hit settles: the content demanded,
   a directory above a file demanded, or nothing where a file or an absence
   demanded leaves no room.
   */
  ghost predicate Settled(l: Link, fs: FileSystem, acts: seq<Act>, p: Path) {
    match fs(p)
    case File(c) => Demanded(l, fs, acts)(p) == Some(c)
    case Directory => OpenedUp(l, fs, acts, p)
    case Refused => false
    case _ => ClosedOff(l, fs, acts, p)
  }

  ghost predicate ProbesSettled(l: Link, fs: FileSystem, acts: seq<Act>) {
    forall i :: 0 <= i < |acts| && Outside(Blind(l), acts, i) ==> Settled(l, fs, acts, acts[i].path)
  }

  /** What the entry pins by itself is settled. */
  lemma PinnedIsSettled(l: Link, fs: FileSystem, acts: seq<Act>, p: Path)
    requires Pinned(l, fs, acts, p)
    ensures Settled(l, fs, acts, p)
  {
    assert p in RecordedEntry(l, fs, acts).absent ==> ClosedOff(l, fs, acts, p);
  }

  lemma OpenedUpIsDirectory(l: Link, fs: FileSystem, acts: seq<Act>, fs': FileSystem, p: Path)
    requires Meets(l, fs, acts, fs') && Closed(fs') && OpenedUp(l, fs, acts, p)
    ensures fs'(p).Directory?
  {
    var f :| Demanded(l, fs, acts)(f).Some? && Straight(f) && Above(p, f);
    DirectoryAbove(fs', p, f);
  }

  lemma ClosedOffIsAbsent(l: Link, fs: FileSystem, acts: seq<Act>, fs': FileSystem, p: Path)
    requires Meets(l, fs, acts, fs') && Closed(fs') && ClosedOff(l, fs, acts, p)
    ensures ShownAbsent(fs'(p))
  {
    if p !in RecordedEntry(l, fs, acts).absent {
      var a :| Closes(l, fs, acts, a) && Above(a, p);
      NothingBelow(fs', a, p);
    }
  }

  lemma TreeHitSameAnswers(l: Link, fs: FileSystem, acts: seq<Act>, fs': FileSystem)
    requires Injective(l.hash) && Closed(fs') && Hit(l, fs, acts, fs') && ProbesSettled(l, fs, acts)
    ensures SameAnswers(fs, fs', Blind(l), acts)
  {
    HitMeets(l, fs, acts, fs');
    forall i | 0 <= i < |acts| && Outside(Blind(l), acts, i)
      ensures AnswerFor(fs(acts[i].path)) == AnswerFor(fs'(acts[i].path))
    {
      SettledAnswer(l, fs, acts, fs', acts[i].path);
    }
  }

  lemma SettledAnswer(l: Link, fs: FileSystem, acts: seq<Act>, fs': FileSystem, p: Path)
    requires Meets(l, fs, acts, fs') && Closed(fs') && Settled(l, fs, acts, p)
    ensures AnswerFor(fs'(p)) == AnswerFor(fs(p))
  {
    match fs(p)
    case File(c) =>
    case Directory => OpenedUpIsDirectory(l, fs, acts, fs', p);
    case _ => ClosedOffIsAbsent(l, fs, acts, fs', p);
  }

  /**
   In file systems closed under parents, the directories a search went through
   need no record of their own: a file found below settles them.
   */
  lemma TreeHitIsSound(program: Program, l: Link, fs: FileSystem, acts: seq<Act>, output: string, fs': FileSystem)
    requires Injective(l.hash) && Runs(program, fs, Blind(l), acts, output)
    requires Closed(fs') && Hit(l, fs, acts, fs') && ProbesSettled(l, fs, acts)
    ensures Runs(program, fs', Blind(l), acts, output)
    ensures forall acts', output' :: Runs(program, fs', Blind(l), acts', output') ==> acts' == acts && output' == output
  {
    TreeHitSameAnswers(l, fs, acts, fs');
    SameAnswersSameRun(program, fs, fs', Blind(l), acts, output);
  }

  // ---- and it is exact -------------------------------------------------------------

  /** What is demanded cannot be in one tree: a file where an absence or another file leaves no room. */
  ghost predicate Conflict(l: Link, fs: FileSystem, acts: seq<Act>) {
    exists f :: Demanded(l, fs, acts)(f).Some? && ClosedOff(l, fs, acts, f)
  }

  /** Then the entry never holds. */
  lemma ConflictNeverHolds(l: Link, fs: FileSystem, acts: seq<Act>, fs': FileSystem)
    requires Injective(l.hash) && Closed(fs') && Hit(l, fs, acts, fs')
    ensures !Conflict(l, fs, acts)
  {
    HitMeets(l, fs, acts, fs');
    if Conflict(l, fs, acts) {
      var f :| Demanded(l, fs, acts)(f).Some? && ClosedOff(l, fs, acts, f);
      ClosedOffIsAbsent(l, fs, acts, fs', f);
    }
  }

  /** Nothing that is demanded says what is at p. */
  ghost predicate Free(l: Link, fs: FileSystem, acts: seq<Act>, p: Path) {
    Demanded(l, fs, acts)(p).None? && !ClosedOff(l, fs, acts, p) && !OpenedUp(l, fs, acts, p)
  }

  /** Paths that go up again: nothing at an absence, and whatever is wanted at p. */
  function Elsewhere(l: Link, fs: FileSystem, acts: seq<Act>, p: Path, node: Node): FileSystem {
    (q: Path) => if q in RecordedEntry(l, fs, acts).absent then Gone else if q == p then node else fs(q)
  }

  /** The least tree that a hit allows, with a directory at p if `way` says so. */
  ghost function LeastHit(l: Link, fs: FileSystem, acts: seq<Act>, p: Path, way: bool): FileSystem {
    Least(Demanded(l, fs, acts), if way && Straight(p) then Some(p) else None,
          Elsewhere(l, fs, acts, p, if way then Directory else Gone))
  }

  lemma NoConflictIsApart(l: Link, fs: FileSystem, acts: seq<Act>)
    requires !Conflict(l, fs, acts)
    ensures Apart(Demanded(l, fs, acts))
  {
    var files := Demanded(l, fs, acts);
    forall f, g | files(f).Some? && files(g).Some? && Straight(f) && Straight(g) ensures !Above(f, g) {
      assert !ClosedOff(l, fs, acts, g);
      assert Closes(l, fs, acts, f);
    }
  }

  lemma FileAboveCloses(l: Link, fs: FileSystem, acts: seq<Act>, p: Path)
    ensures Straight(p) && FileAbove(Demanded(l, fs, acts), p) ==> ClosedOff(l, fs, acts, p)
  {
    if Straight(p) && FileAbove(Demanded(l, fs, acts), p) {
      var f :| Demanded(l, fs, acts)(f).Some? && Straight(f) && Above(f, p);
      assert Closes(l, fs, acts, f);
    }
  }

  lemma AbsenceCloses(l: Link, fs: FileSystem, acts: seq<Act>, q: Path, p: Path)
    requires q in RecordedEntry(l, fs, acts).absent && Straight(q)
    ensures FileBelow(Demanded(l, fs, acts), q) ==> Conflict(l, fs, acts)
    ensures Straight(p) && Within(q, p) ==> ClosedOff(l, fs, acts, p)
  {
    assert Closes(l, fs, acts, q);
    if FileBelow(Demanded(l, fs, acts), q) {
      var f :| Demanded(l, fs, acts)(f).Some? && Straight(f) && Above(q, f);
      assert ClosedOff(l, fs, acts, f);
    }
  }

  lemma LeastHitIsClosed(l: Link, fs: FileSystem, acts: seq<Act>, p: Path, way: bool)
    requires !Conflict(l, fs, acts) && (way ==> Free(l, fs, acts, p))
    ensures Closed(LeastHit(l, fs, acts, p, way))
  {
    var files := Demanded(l, fs, acts);
    NoConflictIsApart(l, fs, acts);
    FileAboveCloses(l, fs, acts, p);
    LeastIsClosed(files, if way && Straight(p) then Some(p) else None,
                  Elsewhere(l, fs, acts, p, if way then Directory else Gone));
  }

  lemma LeastHitLeavesAbsent(l: Link, fs: FileSystem, acts: seq<Act>, p: Path, way: bool, q: Path)
    requires !Conflict(l, fs, acts) && (way ==> Free(l, fs, acts, p)) && q in RecordedEntry(l, fs, acts).absent
    ensures ShownAbsent(LeastHit(l, fs, acts, p, way)(q))
  {
    assert ClosedOff(l, fs, acts, q);
    if Straight(q) {
      AbsenceCloses(l, fs, acts, q, p);
    }
  }

  lemma LeastHitKeepsNamed(l: Link, fs: FileSystem, acts: seq<Act>, p: Path, way: bool, q: Path)
    requires q in l.named && !fs(q).File?
    ensures !LeastHit(l, fs, acts, p, way)(q).File?
  {
    assert Demanded(l, fs, acts)(q).None?;
  }

  lemma LeastHitIsHit(l: Link, fs: FileSystem, acts: seq<Act>, p: Path, way: bool)
    requires Injective(l.hash) && !Conflict(l, fs, acts) && (way ==> Free(l, fs, acts, p))
    ensures Hit(l, fs, acts, LeastHit(l, fs, acts, p, way))
  {
    var fs' := LeastHit(l, fs, acts, p, way);
    forall q | q in RecordedEntry(l, fs, acts).absent ensures ShownAbsent(fs'(q)) {
      LeastHitLeavesAbsent(l, fs, acts, p, way, q);
    }
    forall q | q in l.named && !fs(q).File? ensures !fs'(q).File? {
      LeastHitKeepsNamed(l, fs, acts, p, way, q);
    }
    assert Meets(l, fs, acts, fs');
    HitMeets(l, fs, acts, fs');
  }

  /** At a path that is not settled, some tree in which the entry holds answers otherwise. */
  lemma UnsettledCanDiffer(l: Link, fs: FileSystem, acts: seq<Act>, p: Path) returns (fs': FileSystem)
    requires Injective(l.hash) && !Conflict(l, fs, acts) && !Settled(l, fs, acts, p)
    ensures Closed(fs') && Hit(l, fs, acts, fs') && AnswerFor(fs'(p)) != AnswerFor(fs(p))
  {
    var way := Free(l, fs, acts, p) && ShownAbsent(fs(p));
    fs' := LeastHit(l, fs, acts, p, way);
    LeastHitIsClosed(l, fs, acts, p, way);
    LeastHitIsHit(l, fs, acts, p, way);
    HitMeets(l, fs, acts, fs');
    if OpenedUp(l, fs, acts, p) {
      OpenedUpIsDirectory(l, fs, acts, fs', p);
    } else if ClosedOff(l, fs, acts, p) {
      ClosedOffIsAbsent(l, fs, acts, fs', p);
    } else if Demanded(l, fs, acts)(p).None? {
      FreeAnswer(l, fs, acts, p, way);
    }
  }

  lemma FreeAnswer(l: Link, fs: FileSystem, acts: seq<Act>, p: Path, way: bool)
    requires Free(l, fs, acts, p)
    ensures if way then LeastHit(l, fs, acts, p, way)(p).Directory? else LeastHit(l, fs, acts, p, way)(p).Gone?
  {
    FileAboveCloses(l, fs, acts, p);
  }

  /** A hit gives the same answers, in every file system closed under parents. */
  ghost predicate SoundInTrees(l: Link, fs: FileSystem, acts: seq<Act>) {
    forall fs': FileSystem :: Closed(fs') && Hit(l, fs, acts, fs') ==> SameAnswers(fs, fs', Blind(l), acts)
  }

  /**
   For every run, of programs that write and remove files as well: over file
   systems closed under parents a hit gives the same answers exactly when every
   probe of something that the run had not made itself is settled, or the entry
   never holds.
   */
  lemma TreeSoundExactly(l: Link, fs: FileSystem, acts: seq<Act>)
    requires Injective(l.hash)
    ensures SoundInTrees(l, fs, acts) <==> ProbesSettled(l, fs, acts) || Conflict(l, fs, acts)
  {
    if ProbesSettled(l, fs, acts) || Conflict(l, fs, acts) {
      forall fs': FileSystem | Closed(fs') && Hit(l, fs, acts, fs') ensures SameAnswers(fs, fs', Blind(l), acts) {
        ConflictNeverHolds(l, fs, acts, fs');
        TreeHitSameAnswers(l, fs, acts, fs');
      }
    } else {
      var i :| 0 <= i < |acts| && Outside(Blind(l), acts, i) && !Settled(l, fs, acts, acts[i].path);
      var fs' := UnsettledCanDiffer(l, fs, acts, acts[i].path);
      assert !SameAnswers(fs, fs', Blind(l), acts);
    }
  }

  // ---- programs that only probe ----------------------------------------------------

  /** The entry of a program that only probes holds where it was made. */
  lemma ProbesHitAtHome(l: Link, fs: FileSystem, acts: seq<Act>)
    requires OnlyProbes(acts)
    ensures Hit(l, fs, acts, fs)
  {
    EntryOfProbes(l, fs, acts);
  }

  /** So for such a program the condition is simple. */
  lemma ProbesSoundExactly(l: Link, fs: FileSystem, acts: seq<Act>)
    requires Injective(l.hash) && OnlyProbes(acts) && Closed(fs)
    ensures SoundInTrees(l, fs, acts) <==> ProbesSettled(l, fs, acts)
  {
    ProbesHitAtHome(l, fs, acts);
    ConflictNeverHolds(l, fs, acts, fs);
    TreeSoundExactly(l, fs, acts);
  }

  lemma NothingFoundBelow(l: Link, fs: FileSystem, d: Path)
    requires forall q :: Above(d, q) && fs(q).File? ==> q !in l.named && q !in l.loaded
    ensures !OpenedUp(l, fs, [Probe(d)], d)
  {
    var acts := [Probe(d)];
    forall f | Straight(f) && Above(d, f) ensures Demanded(l, fs, acts)(f).None? {
      AboveIsShorter(d, f);
      NothingOwn(acts, f);
      TraceOfProbes(l, fs, acts, f);
    }
  }

  /**
   A search that looks at a directory and finds no file below it depends on
   what the entry does not hold: the directory can go, and all below it.
   */
  lemma DirectoryProbeIsNotPinned(l: Link, fs: FileSystem, d: Path) returns (fs': FileSystem)
    requires Injective(l.hash) && Closed(fs) && fs(d).Directory? && !Blind(l)(d)
    requires forall q :: Above(d, q) && fs(q).File? ==> q !in l.named && q !in l.loaded
    ensures Closed(fs') && Hit(l, fs, [Probe(d)], fs') && AnswerFor(fs'(d)) == Absent
    ensures !SameAnswers(fs, fs', Blind(l), [Probe(d)])
  {
    var acts := [Probe(d)];
    assert acts[0] == Probe(d) && OwnNode(acts[..0], d).None?;
    ProbesHitAtHome(l, fs, acts);
    ConflictNeverHolds(l, fs, acts, fs);
    HitMeets(l, fs, acts, fs);
    NothingFoundBelow(l, fs, d);
    if ClosedOff(l, fs, acts, d) {
      ClosedOffIsAbsent(l, fs, acts, fs, d);
    }
    fs' := LeastHit(l, fs, acts, d, false);
    LeastHitIsClosed(l, fs, acts, d, false);
    LeastHitIsHit(l, fs, acts, d, false);
    FreeAnswer(l, fs, acts, d, false);
    assert Outside(Blind(l), acts, 0);
  }
}
