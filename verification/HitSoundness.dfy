/** What a lookup of a path in a file system can give. */
module FileTree {
  import opened Common

  type Path = string
  type Digest = string

  datatype Node =
    | File(content: string)
    | Directory
    | Gone          // ENOENT
    | NotDirectory  // ENOTDIR
    | Refused       // EACCES, EIO and the like

  type FileSystem = Path -> Node

  /** The digest of a regular file; nothing for anything else. */
  function HashFile(hash: string -> Digest, fs: FileSystem, p: Path): Option<Digest> {
    if fs(p).File? then Some(hash(fs(p).content)) else None
  }

  ghost predicate Injective(hash: string -> Digest) {
    forall x, y :: hash(x) == hash(y) ==> x == y
  }

  /** Either error proves absence. */
  predicate ShownAbsent(node: Node) { node.Gone? || node.NotDirectory? }

  predicate Exists(node: Node) { node.File? || node.Directory? }
}

/**
 A compiler or linker as a deterministic program: what it does next depends only
 on the answers it has had. It probes paths one after another, and may write
 and remove files of its own on the way.
 */
module ProbingProgram {
  import opened Common
  import opened FileTree

  datatype Act = Probe(path: Path) | Write(path: Path, content: string) | Remove(path: Path)

  datatype Move = Do(act: Act) | Done(output: string)

  /** ENOENT and ENOTDIR are one answer: nothing is there. */
  datatype Answer = Content(content: string) | IsDirectory | Absent | Denied | Unseen

  type Program = seq<Answer> -> Move

  function AnswerFor(node: Node): Answer {
    match node
    case File(c) => Content(c)
    case Directory => IsDirectory
    case Gone => Absent
    case NotDirectory => Absent
    case Refused => Denied
  }

  /** What the program itself last made of a path, if it did. */
  function OwnNode(acts: seq<Act>, p: Path): Option<Node> {
    if acts == [] then None
    else
      match acts[|acts| - 1]
      case Write(q, c) => if q == p then Some(File(c)) else OwnNode(acts[..|acts| - 1], p)
      case Remove(q) => if q == p then Some(Gone) else OwnNode(acts[..|acts| - 1], p)
      case Probe(_) => OwnNode(acts[..|acts| - 1], p)
  }

  /** What is at a path after some acts. */
  function Seen(fs: FileSystem, acts: seq<Act>, p: Path): Node {
    var own := OwnNode(acts, p);
    if own.Some? then own.value else fs(p)
  }

  /** Paths in `blind` are ones whose answers the program does not depend on. */
  function AnswerTo(fs: FileSystem, blind: Path -> bool, acts: seq<Act>, act: Act): Answer {
    if act.Probe? && !blind(act.path) then AnswerFor(Seen(fs, acts, act.path)) else Unseen
  }

  function Answers(fs: FileSystem, blind: Path -> bool, acts: seq<Act>): (r: seq<Answer>)
    ensures |r| == |acts|
  {
    if acts == [] then []
    else
      var n := |acts| - 1;
      Answers(fs, blind, acts[..n]) + [AnswerTo(fs, blind, acts[..n], acts[n])]
  }

  /** A whole run: every act is the one the program makes after the answers before it. */
  ghost predicate Runs(program: Program, fs: FileSystem, blind: Path -> bool, acts: seq<Act>, output: string) {
    && (forall i :: 0 <= i < |acts| ==> program(Answers(fs, blind, acts[..i])) == Do(acts[i]))
    && program(Answers(fs, blind, acts)) == Done(output)
  }

  /** A program has one run in one file system. */
  lemma {:induction false} RunIsUnique(program: Program, fs: FileSystem, blind: Path -> bool,
                                       a: seq<Act>, x: string, b: seq<Act>, y: string)
    requires Runs(program, fs, blind, a, x) && Runs(program, fs, blind, b, y)
    ensures a == b && x == y
  {
    if |a| <= |b| {
      ShorterIsSame(program, fs, blind, a, x, b, y);
    } else {
      ShorterIsSame(program, fs, blind, b, y, a, x);
    }
  }

  lemma ShorterIsSame(program: Program, fs: FileSystem, blind: Path -> bool, a: seq<Act>, x: string, b: seq<Act>,
                      y: string)
    requires Runs(program, fs, blind, a, x) && Runs(program, fs, blind, b, y) && |a| <= |b|
    ensures a == b && x == y
  {
    if |a| < |b| {
      NextAct(program, fs, blind, b, y, |a|);
    }
    PrefixAgrees(program, fs, blind, a, x, b, y, |a|);
    assert a[..|a|] == a && b[..|b|] == b;
  }

  lemma OneMore(a: seq<Act>, b: seq<Act>, n: nat)
    requires n < |a| && n < |b| && a[..n] == b[..n] && a[n] == b[n]
    ensures a[..n + 1] == b[..n + 1]
  {
    assert a[..n + 1] == a[..n] + [a[n]] && b[..n + 1] == b[..n] + [b[n]];
  }

  lemma NextAct(program: Program, fs: FileSystem, blind: Path -> bool, a: seq<Act>, x: string, i: nat)
    requires Runs(program, fs, blind, a, x) && i < |a|
    ensures program(Answers(fs, blind, a[..i])) == Do(a[i])
  {
  }

  lemma {:induction false} PrefixAgrees(program: Program, fs: FileSystem, blind: Path -> bool,
                                        a: seq<Act>, x: string, b: seq<Act>, y: string, n: nat)
    requires Runs(program, fs, blind, a, x) && Runs(program, fs, blind, b, y) && n <= |a| && n <= |b|
    ensures a[..n] == b[..n]
  {
    if n > 0 {
      PrefixAgrees(program, fs, blind, a, x, b, y, n - 1);
      NextAct(program, fs, blind, a, x, n - 1);
      NextAct(program, fs, blind, b, y, n - 1);
      assert a[n - 1] == b[n - 1];
      OneMore(a, b, n - 1);
    }
  }

  /** A probe whose answer comes from the file system and not from the program's own acts. */
  predicate Outside(blind: Path -> bool, acts: seq<Act>, i: nat)
    requires i < |acts|
  {
    acts[i].Probe? && !blind(acts[i].path) && OwnNode(acts[..i], acts[i].path).None?
  }

  /** Two file systems answer every probe of a run alike. */
  ghost predicate SameAnswers(fs: FileSystem, fs': FileSystem, blind: Path -> bool, acts: seq<Act>) {
    forall i :: 0 <= i < |acts| && Outside(blind, acts, i) ==>
      AnswerFor(fs(acts[i].path)) == AnswerFor(fs'(acts[i].path))
  }

  lemma {:induction false} AnswersAgree(fs: FileSystem, fs': FileSystem, blind: Path -> bool, acts: seq<Act>, n: nat)
    requires n <= |acts| && SameAnswers(fs, fs', blind, acts)
    ensures Answers(fs, blind, acts[..n]) == Answers(fs', blind, acts[..n])
  {
    if n > 0 {
      AnswersAgree(fs, fs', blind, acts, n - 1);
      assert acts[..n][..n - 1] == acts[..n - 1];
      assert Outside(blind, acts, n - 1) ==> AnswerFor(fs(acts[n - 1].path)) == AnswerFor(fs'(acts[n - 1].path));
    }
  }

  /** So a rerun makes the same probes, gets the same answers and gives the same output, and no other run exists. */
  lemma SameAnswersSameRun(program: Program, fs: FileSystem, fs': FileSystem, blind: Path -> bool, acts: seq<Act>,
                           output: string)
    requires Runs(program, fs, blind, acts, output) && SameAnswers(fs, fs', blind, acts)
    ensures Runs(program, fs', blind, acts, output)
    ensures Answers(fs', blind, acts) == Answers(fs, blind, acts)
    ensures forall acts', output' :: Runs(program, fs', blind, acts', output') ==> acts' == acts && output' == output
  {
    forall i | 0 <= i <= |acts| ensures Answers(fs, blind, acts[..i]) == Answers(fs', blind, acts[..i]) {
      AnswersAgree(fs, fs', blind, acts, i);
    }
    assert acts[..|acts|] == acts;
    forall acts', output' | Runs(program, fs', blind, acts', output') ensures acts' == acts && output' == output {
      RunIsUnique(program, fs', blind, acts', output', acts, output);
    }
  }
}

/** The manifest entry that a traced run leaves, and when a later lookup may use it. */
module LinkManifest {
  import opened Common
  import opened FileTree
  import opened ProbingProgram
  import opened TraceClasses
  import opened TraceFormat

  /** The files named on a link's command line, the files it writes, and the shared objects its processes loaded. */
  datatype Link = Link(hash: string -> Digest, named: set<Path>, outputs: set<Path>, loaded: seq<Path>)

  /** Outputs and process or kernel state are not inputs. */
  function Blind(l: Link): Path -> bool {
    p => Ignored(p) || p in l.outputs
  }

  /** The records the tracer makes of one act: only ENOENT counts as an absence. */
  function RecordsOf(fs: FileSystem, acts: seq<Act>, act: Act): seq<Record> {
    match act
    case Probe(p) => var node := Seen(fs, acts, p);
                     if Exists(node) then [Record('R', p)] else if node.Gone? then [Record('M', p)] else []
    case Write(p, _) => [Record('W', p)]
    case Remove(_) => []
  }

  function Emitted(fs: FileSystem, acts: seq<Act>): seq<Record> {
    if acts == [] then []
    else
      var n := |acts| - 1;
      Emitted(fs, acts[..n]) + RecordsOf(fs, acts[..n], acts[n])
  }

  /** Records hold paths in normal form already. */
  function Same(): string -> string { p => p }

  function TraceInputs(l: Link, fs: FileSystem, acts: seq<Act>): set<Path> {
    var t := ByKind(Emitted(fs, acts));
    Kept(t.read + l.loaded + t.written, Same(), l.outputs)
  }

  function TraceAbsent(l: Link, fs: FileSystem, acts: seq<Act>): set<Path> {
    Kept(ByKind(Emitted(fs, acts)).absent, Same(), l.outputs) - TraceInputs(l, fs, acts)
  }

  // ---- the entry -------------------------------------------------------------------

  datatype Entry = Entry(inputs: map<Path, Digest>, absent: set<Path>)

  /**
   Inputs are hashed when the run is over; those named are in the pre-key, those that
   are no regular file are left out.
   */
  function RecordedEntry(l: Link, fs: FileSystem, acts: seq<Act>): Entry {
    Entry(map p | p in TraceInputs(l, fs, acts) && p !in l.named && Seen(fs, acts, p).File?
            :: l.hash(Seen(fs, acts, p).content),
          TraceAbsent(l, fs, acts))
  }

  /** The pre-key's share: every named file hashes as it did before the run, or still does not hash. */
  ghost predicate SamePreKey(l: Link, fs: FileSystem, fs': FileSystem) {
    forall p :: p in l.named ==> HashFile(l.hash, fs, p) == HashFile(l.hash, fs', p)
  }

  ghost predicate StillHolds(l: Link, e: Entry, fs: FileSystem) {
    && (forall p :: p in e.inputs ==> HashFile(l.hash, fs, p) == Some(e.inputs[p]))
    && (forall p :: p in e.absent ==> ShownAbsent(fs(p)))
  }

  ghost predicate Hit(l: Link, fs: FileSystem, acts: seq<Act>, fs': FileSystem) {
    SamePreKey(l, fs, fs') && StillHolds(l, RecordedEntry(l, fs, acts), fs')
  }

  /** The entry pins the answer a path gave: its content, recorded or named, or that nothing was there. */
  predicate Pinned(l: Link, fs: FileSystem, acts: seq<Act>, p: Path) {
    var e := RecordedEntry(l, fs, acts);
    || (p in e.inputs && fs(p) == Seen(fs, acts, p))
    || (p in e.absent && ShownAbsent(fs(p)))
    || (p in l.named && fs(p).File?)
  }

  predicate AllPinned(l: Link, fs: FileSystem, acts: seq<Act>) {
    forall i :: 0 <= i < |acts| && Outside(Blind(l), acts, i) ==> Pinned(l, fs, acts, acts[i].path)
  }

  /** A run that removed a named file and then looked for it leaves an entry that no file system can satisfy. */
  predicate NeverHolds(l: Link, fs: FileSystem, acts: seq<Act>) {
    exists p :: p in l.named && p in RecordedEntry(l, fs, acts).absent && fs(p).File?
  }

  lemma PinnedAnswer(l: Link, fs: FileSystem, acts: seq<Act>, fs': FileSystem, p: Path)
    requires Injective(l.hash) && Hit(l, fs, acts, fs') && Pinned(l, fs, acts, p)
    ensures AnswerFor(fs'(p)) == AnswerFor(fs(p))
  {
    if p in l.named && fs(p).File? {
      assert HashFile(l.hash, fs, p) == HashFile(l.hash, fs', p);
    }
  }

  /** A hit on an entry whose run is pinned stands for a rerun. */
  lemma HitIsSound(program: Program, l: Link, fs: FileSystem, acts: seq<Act>, output: string, fs': FileSystem)
    requires Injective(l.hash) && Runs(program, fs, Blind(l), acts, output)
    requires Hit(l, fs, acts, fs') && AllPinned(l, fs, acts)
    ensures Runs(program, fs', Blind(l), acts, output)
    ensures Answers(fs', Blind(l), acts) == Answers(fs, Blind(l), acts)
    ensures forall acts', output' :: Runs(program, fs', Blind(l), acts', output') ==> acts' == acts && output' == output
  {
    forall i | 0 <= i < |acts| && Outside(Blind(l), acts, i)
      ensures AnswerFor(fs(acts[i].path)) == AnswerFor(fs'(acts[i].path))
    {
      PinnedAnswer(l, fs, acts, fs', acts[i].path);
    }
    SameAnswersSameRun(program, fs, fs', Blind(l), acts, output);
  }

  // ---- and it is exact -------------------------------------------------------------

  /** A file system in which the entry holds and the answer at one path is whatever was not pinned. */
  function Other(l: Link, fs: FileSystem, acts: seq<Act>, p: Path): FileSystem {
    var e := RecordedEntry(l, fs, acts);
    (q: Path) =>
      if q in e.inputs then Seen(fs, acts, q)
      else if q in e.absent then Gone
      else if q == p then (if fs(p).Directory? then Refused else Directory)
      else fs(q)
  }

  lemma UnpinnedCanDiffer(l: Link, fs: FileSystem, acts: seq<Act>, p: Path)
    requires !Pinned(l, fs, acts, p) && !NeverHolds(l, fs, acts)
    ensures Hit(l, fs, acts, Other(l, fs, acts, p))
    ensures AnswerFor(Other(l, fs, acts, p)(p)) != AnswerFor(fs(p))
  {
    var e, fs' := RecordedEntry(l, fs, acts), Other(l, fs, acts, p);
    forall q | q in l.named ensures HashFile(l.hash, fs, q) == HashFile(l.hash, fs', q) {
      assert q !in e.inputs;
    }
  }

  /**
   A hit gives the same answers in every file system exactly when every probe
   that the program depends on was pinned, or the entry can never hold at all.
   */
  lemma SoundExactly(l: Link, fs: FileSystem, acts: seq<Act>)
    requires Injective(l.hash)
    ensures (forall fs': FileSystem :: Hit(l, fs, acts, fs') ==> SameAnswers(fs, fs', Blind(l), acts))
            <==> AllPinned(l, fs, acts) || NeverHolds(l, fs, acts)
  {
    if AllPinned(l, fs, acts) {
      forall fs': FileSystem | Hit(l, fs, acts, fs') ensures SameAnswers(fs, fs', Blind(l), acts) {
        forall i | 0 <= i < |acts| && Outside(Blind(l), acts, i)
          ensures AnswerFor(fs(acts[i].path)) == AnswerFor(fs'(acts[i].path))
        {
          PinnedAnswer(l, fs, acts, fs', acts[i].path);
        }
      }
    } else if !NeverHolds(l, fs, acts) {
      var i :| 0 <= i < |acts| && Outside(Blind(l), acts, i) && !Pinned(l, fs, acts, acts[i].path);
      UnpinnedCanDiffer(l, fs, acts, acts[i].path);
      assert !SameAnswers(fs, Other(l, fs, acts, acts[i].path), Blind(l), acts);
    }
  }

  // ---- programs that only probe ----------------------------------------------------

  predicate OnlyProbes(acts: seq<Act>) { forall i :: 0 <= i < |acts| ==> acts[i].Probe? }

  lemma {:induction false} NothingOwn(acts: seq<Act>, p: Path)
    requires OnlyProbes(acts)
    ensures OwnNode(acts, p).None?
  {
    if acts != [] {
      NothingOwn(acts[..|acts| - 1], p);
    }
  }

  predicate Probed(acts: seq<Act>, p: Path) { exists i :: 0 <= i < |acts| && acts[i] == Probe(p) }

  lemma {:induction false} EmittedOfProbes(fs: FileSystem, acts: seq<Act>, p: Path)
    requires OnlyProbes(acts)
    ensures p in Flat(OfKind('R'), Emitted(fs, acts)) <==> Probed(acts, p) && Exists(fs(p))
    ensures p in Flat(OfKind('M'), Emitted(fs, acts)) <==> Probed(acts, p) && fs(p).Gone?
    ensures Flat(OfKind('L'), Emitted(fs, acts)) == [] && Flat(OfKind('W'), Emitted(fs, acts)) == []
  {
    if acts != [] {
      var n := |acts| - 1;
      var before, act := acts[..n], acts[n];
      EmittedOfProbes(fs, before, p);
      NothingOwn(before, act.path);
      ProbedMore(before, act, p);
      assert before + [act] == acts;
      OneRecord(RecordsOf(fs, before, act), Emitted(fs, before), 'R');
      OneRecord(RecordsOf(fs, before, act), Emitted(fs, before), 'M');
      OneRecord(RecordsOf(fs, before, act), Emitted(fs, before), 'L');
      OneRecord(RecordsOf(fs, before, act), Emitted(fs, before), 'W');
    }
  }

  lemma ProbedMore(before: seq<Act>, act: Act, p: Path)
    ensures Probed(before + [act], p) <==> Probed(before, p) || act == Probe(p)
  {
    var acts := before + [act];
    assert acts[|before|] == act;
    assert forall i :: 0 <= i < |before| ==> acts[i] == before[i];
  }

  lemma OneRecord(more: seq<Record>, before: seq<Record>, kind: char)
    requires |more| <= 1
    ensures Flat(OfKind(kind), before + more)
            == Flat(OfKind(kind), before) + if more == [] then [] else OfKind(kind)(more[0])
  {
    FlatConcat(OfKind(kind), before, more);
    if more != [] {
      assert more == [more[0]];
      FlatOne(OfKind(kind), more[0]);
    }
  }

  lemma TraceOfProbes(l: Link, fs: FileSystem, acts: seq<Act>, p: Path)
    requires OnlyProbes(acts)
    ensures p in TraceInputs(l, fs, acts) <==> !Blind(l)(p) && ((Probed(acts, p) && Exists(fs(p))) || p in l.loaded)
    ensures p in TraceAbsent(l, fs, acts) <==> !Blind(l)(p) && Probed(acts, p) && fs(p).Gone? && p !in l.loaded
  {
    EmittedOfProbes(fs, acts, p);
    var t := ByKind(Emitted(fs, acts));
    KeptSame(l, t.read + l.loaded + t.written, p);
    KeptSame(l, t.absent, p);
    assert t.read + l.loaded + t.written == t.read + l.loaded;
  }

  lemma KeptSame(l: Link, paths: seq<Path>, p: Path)
    ensures p in Kept(paths, Same(), l.outputs) <==> p in paths && !Blind(l)(p)
  {
    if p in paths {
      assert Same()(p) == p;
    }
  }

  /** What one probe of such a program pins: a regular file, or ENOENT at a path that was not loaded later. */
  lemma ProbePinned(l: Link, fs: FileSystem, acts: seq<Act>, p: Path)
    requires OnlyProbes(acts) && Probed(acts, p) && !Blind(l)(p)
    ensures Pinned(l, fs, acts, p) <==> fs(p).File? || (fs(p).Gone? && p !in l.loaded)
  {
    NothingOwn(acts, p);
    TraceOfProbes(l, fs, acts, p);
  }

  /** What the entry of such a program holds: files as they are, and paths that gave ENOENT. */
  lemma EntryOfProbes(l: Link, fs: FileSystem, acts: seq<Act>)
    requires OnlyProbes(acts)
    ensures var e := RecordedEntry(l, fs, acts);
            && (forall p :: p in e.inputs ==> fs(p).File? && e.inputs[p] == l.hash(fs(p).content) && p !in l.named)
            && (forall p :: p in e.absent ==> fs(p).Gone?)
  {
    var e := RecordedEntry(l, fs, acts);
    forall p ensures Seen(fs, acts, p) == fs(p) {
      NothingOwn(acts, p);
    }
    forall p | p in e.absent ensures fs(p).Gone? {
      TraceOfProbes(l, fs, acts, p);
    }
  }

  /**
   For a program that only probes, the condition is simple: apart from outputs
   and ignored paths, every probe found a regular file, or got ENOENT at a path
   that was not loaded later.
   */
  lemma ProbesPinnedExactly(l: Link, fs: FileSystem, acts: seq<Act>)
    requires OnlyProbes(acts)
    ensures AllPinned(l, fs, acts) <==>
            forall i :: 0 <= i < |acts| && !Blind(l)(acts[i].path) ==>
                          fs(acts[i].path).File? || (fs(acts[i].path).Gone? && acts[i].path !in l.loaded)
    ensures !NeverHolds(l, fs, acts)
  {
    EntryOfProbes(l, fs, acts);
    forall i | 0 <= i < |acts| ensures Outside(Blind(l), acts, i) <==> !Blind(l)(acts[i].path) {
      NothingOwn(acts[..i], acts[i].path);
    }
    forall i | 0 <= i < |acts| && !Blind(l)(acts[i].path)
      ensures Pinned(l, fs, acts, acts[i].path) <==>
              fs(acts[i].path).File? || (fs(acts[i].path).Gone? && acts[i].path !in l.loaded)
    {
      assert acts[i] == Probe(acts[i].path);
      ProbePinned(l, fs, acts, acts[i].path);
    }
  }
}
