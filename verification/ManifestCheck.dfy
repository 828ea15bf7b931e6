/** Writing a manifest entry in canonical paths, and checking one against the file system. */
module ManifestCheck {
  import opened Common
  import opened FileTree
  import Roots

  type ManifestFile = (Path, Digest)

  datatype Stale = Missing(path: Path) | Changed(path: Path)

  /** A recorded file still hashes as recorded. */
  predicate FileHolds(hash: string -> Digest, roots: seq<Roots.Root>, fs: FileSystem, file: ManifestFile) {
    HashFile(hash, fs, Roots.Localize(roots, file.0)) == Some(file.1)
  }

  predicate AbsenceHolds(roots: seq<Roots.Root>, fs: FileSystem, canonical: Path) {
    ShownAbsent(fs(Roots.Localize(roots, canonical)))
  }

  /** The first recorded file that does not hash as recorded. */
  method FindStaleManifestFile(hash: string -> Digest, roots: seq<Roots.Root>, fs: FileSystem, files: seq<ManifestFile>)
    returns (r: Option<Stale>)
    ensures r.None? <==> forall i :: 0 <= i < |files| ==> FileHolds(hash, roots, fs, files[i])
    ensures r.Some? ==> exists i :: 0 <= i < |files| && !FileHolds(hash, roots, fs, files[i])
                                    && r.value.path == Roots.Localize(roots, files[i].0)
                                    && (r.value.Missing? <==> !fs(r.value.path).File?)
                                    && forall j :: 0 <= j < i ==> FileHolds(hash, roots, fs, files[j])
  {
    for i := 0 to |files|
      invariant forall j :: 0 <= j < i ==> FileHolds(hash, roots, fs, files[j])
    {
      var local := Roots.LocalizePath(roots, files[i].0);
      var actual := HashFile(hash, fs, local);
      if actual.None? {
        return Some(Missing(local));
      }
      if actual.value != files[i].1 {
        return Some(Changed(local));
      }
    }
    r := None;
  }

  /** The first recorded absence that cannot be shown: something is there, or lstat fails some other way. */
  method FindAppearedPath(roots: seq<Roots.Root>, fs: FileSystem, absent: seq<Path>) returns (r: Option<Path>)
    ensures r.None? <==> forall i :: 0 <= i < |absent| ==> AbsenceHolds(roots, fs, absent[i])
    ensures r.Some? ==> exists i :: 0 <= i < |absent| && !AbsenceHolds(roots, fs, absent[i])
                                    && r.value == Roots.Localize(roots, absent[i])
                                    && forall j :: 0 <= j < i ==> AbsenceHolds(roots, fs, absent[j])
  {
    for i := 0 to |absent|
      invariant forall j :: 0 <= j < i ==> AbsenceHolds(roots, fs, absent[j])
    {
      var local := Roots.LocalizePath(roots, absent[i]);
      if Exists(fs(local)) {
        return Some(local);
      }
      if !fs(local).Gone? && !fs(local).NotDirectory? {
        return Some(local);
      }
    }
    r := None;
  }

  datatype ManifestEntry = ManifestEntry(inputs: seq<ManifestFile>, absent: seq<Path>)

  predicate EntryHolds(hash: string -> Digest, roots: seq<Roots.Root>, fs: FileSystem, e: ManifestEntry) {
    && (forall i :: 0 <= i < |e.inputs| ==> FileHolds(hash, roots, fs, e.inputs[i]))
    && (forall i :: 0 <= i < |e.absent| ==> AbsenceHolds(roots, fs, e.absent[i]))
  }

  method LinkManifestStillHolds(hash: string -> Digest, roots: seq<Roots.Root>, fs: FileSystem, e: ManifestEntry)
    returns (holds: bool)
    ensures holds <==> EntryHolds(hash, roots, fs, e)
  {
    for i := 0 to |e.inputs|
      invariant forall j :: 0 <= j < i ==> FileHolds(hash, roots, fs, e.inputs[j])
    {
      var (canonical, digest) := e.inputs[i];
      var local := Roots.LocalizePath(roots, canonical);
      var actual := HashFile(hash, fs, local);
      if actual.None? {
        return false;
      }
      if actual.value != digest {
        return false;
      }
    }
    var appeared := FindAppearedPath(roots, fs, e.absent);
    holds := appeared.None?;
  }

  // ---- recording -------------------------------------------------------------------

  /** What one path adds to the entry: nothing if its canonical form is named or it cannot be hashed. */
  function FileRecord(hash: string -> Digest, roots: seq<Roots.Root>, fs: FileSystem,
                      named: set<Path>): Path -> seq<ManifestFile> {
    (p: Path) =>
      var canonical := Roots.Canonicalize(roots, p);
      var digest := HashFile(hash, fs, p);
      if canonical in named || digest.None? then [] else [(canonical, digest.value)]
  }

  method RecordFiles(hash: string -> Digest, roots: seq<Roots.Root>, fs: FileSystem, named: set<Path>, paths: seq<Path>)
    returns (files: seq<ManifestFile>)
    ensures files == Flat(FileRecord(hash, roots, fs, named), paths)
  {
    files := [];
    for i := 0 to |paths|
      invariant files == Flat(FileRecord(hash, roots, fs, named), paths[..i])
    {
      assert paths[..i + 1][..i] == paths[..i];
      if Roots.Canonicalize(roots, paths[i]) in named {
        continue;
      }
      var digest := HashFile(hash, fs, paths[i]);
      if digest.None? {
        continue;
      }
      files := files + [(Roots.Canonicalize(roots, paths[i]), digest.value)];
    }
    assert paths[..|paths|] == paths;
  }

  function Canonicals(roots: seq<Roots.Root>, paths: seq<Path>): (r: seq<Path>)
    ensures |r| == |paths| && forall i :: 0 <= i < |r| ==> r[i] == Roots.Canonicalize(roots, paths[i])
  {
    seq(|paths|, i requires 0 <= i < |paths| => Roots.Canonicalize(roots, paths[i]))
  }

  /** The tools that ran, then the inputs that are not named, then the absences. */
  method RecordLink(hash: string -> Digest, roots: seq<Roots.Root>, fs: FileSystem,
                    named: set<Path>, tools: seq<Path>, inputs: seq<Path>, absent: seq<Path>)
    returns (e: ManifestEntry)
    ensures e == RecordedLink(hash, roots, fs, named, tools, inputs, absent)
  {
    var toolFiles := RecordFiles(hash, roots, fs, {}, tools);
    var files := RecordFiles(hash, roots, fs, named, inputs);
    var gone := RecordAbsent(roots, absent);
    e := ManifestEntry(toolFiles + files, gone);
  }

  method RecordAbsent(roots: seq<Roots.Root>, absent: seq<Path>) returns (gone: seq<Path>)
    ensures gone == Canonicals(roots, absent)
  {
    gone := [];
    for i := 0 to |absent|
      invariant |gone| == i && forall j :: 0 <= j < i ==> gone[j] == Roots.Canonicalize(roots, absent[j])
    {
      gone := gone + [Roots.Canonicalize(roots, absent[i])];
    }
  }

  function RecordedLink(hash: string -> Digest, roots: seq<Roots.Root>, fs: FileSystem,
                        named: set<Path>, tools: seq<Path>, inputs: seq<Path>, absent: seq<Path>): ManifestEntry {
    ManifestEntry(Flat(FileRecord(hash, roots, fs, {}), tools) + Flat(FileRecord(hash, roots, fs, named), inputs),
                  Canonicals(roots, absent))
  }

  // ---- canonical paths lose nothing ------------------------------------------------

  /** Localising undoes canonicalising for a path. */
  predicate ComesBack(roots: seq<Roots.Root>, p: Path) {
    Roots.Localize(roots, Roots.Canonicalize(roots, p)) == p
  }

  ghost predicate AllComeBack(roots: seq<Roots.Root>, paths: seq<Path>) {
    forall i :: 0 <= i < |paths| ==> ComesBack(roots, paths[i])
  }

  /** It does so for every path the root mapping promises it for. */
  lemma MappedPathsComeBack(roots: seq<Roots.Root>, paths: seq<Path>)
    requires Roots.Unambiguous(roots)
    requires forall i :: 0 <= i < |paths| ==>
               Roots.Covers(roots, paths[i])
               || forall j :: 0 <= j < |roots| ==> !Roots.IsUnder(paths[i], roots[j].canonical)
    ensures AllComeBack(roots, paths)
  {
    forall i | 0 <= i < |paths| ensures ComesBack(roots, paths[i]) {
      Roots.LocalizeUndoesCanonicalize(roots, paths[i]);
    }
  }

  /** A file recorded of one file system is the same in another. */
  predicate Kept(hash: string -> Digest, fs: FileSystem, fs': FileSystem, p: Path) {
    fs(p).File? ==> HashFile(hash, fs', p) == HashFile(hash, fs, p)
  }

  predicate FilesHold(hash: string -> Digest, roots: seq<Roots.Root>, fs: FileSystem, files: seq<ManifestFile>) {
    Every((file: ManifestFile) => FileHolds(hash, roots, fs, file), files)
  }

  ghost predicate UnnamedKept(hash: string -> Digest, roots: seq<Roots.Root>, fs: FileSystem, fs': FileSystem,
                              named: set<Path>, paths: seq<Path>) {
    forall i :: 0 <= i < |paths| && Roots.Canonicalize(roots, paths[i]) !in named ==> Kept(hash, fs, fs', paths[i])
  }

  lemma OneFileMeans(hash: string -> Digest, roots: seq<Roots.Root>, fs: FileSystem, fs': FileSystem, named: set<Path>,
                     p: Path)
    requires ComesBack(roots, p)
    ensures FilesHold(hash, roots, fs', FileRecord(hash, roots, fs, named)(p)) <==>
            (Roots.Canonicalize(roots, p) !in named ==> Kept(hash, fs, fs', p))
  {
    var files := FileRecord(hash, roots, fs, named)(p);
    assert files != [] ==> files[0] == (Roots.Canonicalize(roots, p), HashFile(hash, fs, p).value);
  }

  lemma FilesMean(hash: string -> Digest, roots: seq<Roots.Root>, fs: FileSystem, fs': FileSystem,
                  named: set<Path>, paths: seq<Path>)
    requires AllComeBack(roots, paths)
    ensures FilesHold(hash, roots, fs', Flat(FileRecord(hash, roots, fs, named), paths)) <==>
            UnnamedKept(hash, roots, fs, fs', named, paths)
  {
    FlatEvery(FileRecord(hash, roots, fs, named), (file: ManifestFile) => FileHolds(hash, roots, fs', file), paths);
    forall i | 0 <= i < |paths|
      ensures FilesHold(hash, roots, fs', FileRecord(hash, roots, fs, named)(paths[i])) <==>
              (Roots.Canonicalize(roots, paths[i]) !in named ==> Kept(hash, fs, fs', paths[i]))
    {
      OneFileMeans(hash, roots, fs, fs', named, paths[i]);
    }
  }

  /** An entry written in canonical paths holds exactly when the local files and absences it stands for do. */
  lemma EntryMeans(hash: string -> Digest, roots: seq<Roots.Root>, fs: FileSystem, fs': FileSystem,
                   named: set<Path>, tools: seq<Path>, inputs: seq<Path>, absent: seq<Path>)
    requires AllComeBack(roots, tools) && AllComeBack(roots, inputs) && AllComeBack(roots, absent)
    ensures EntryHolds(hash, roots, fs', RecordedLink(hash, roots, fs, named, tools, inputs, absent)) <==>
            && UnnamedKept(hash, roots, fs, fs', {}, tools)
            && UnnamedKept(hash, roots, fs, fs', named, inputs)
            && (forall i :: 0 <= i < |absent| ==> ShownAbsent(fs'(absent[i])))
  {
    FilesMean(hash, roots, fs, fs', {}, tools);
    FilesMean(hash, roots, fs, fs', named, inputs);
    var holds := (file: ManifestFile) => FileHolds(hash, roots, fs', file);
    EveryConcat(holds, Flat(FileRecord(hash, roots, fs, {}), tools), Flat(FileRecord(hash, roots, fs, named), inputs));
    AbsencesMean(roots, fs', absent);
  }

  lemma AbsencesMean(roots: seq<Roots.Root>, fs: FileSystem, absent: seq<Path>)
    requires AllComeBack(roots, absent)
    ensures (forall i :: 0 <= i < |absent| ==> AbsenceHolds(roots, fs, Canonicals(roots, absent)[i])) <==>
            forall i :: 0 <= i < |absent| ==> ShownAbsent(fs(absent[i]))
  {
    forall i | 0 <= i < |absent|
      ensures AbsenceHolds(roots, fs, Canonicals(roots, absent)[i]) <==> ShownAbsent(fs(absent[i]))
    {
      assert ComesBack(roots, absent[i]);
    }
  }
}

/** The whole of a link hit: traced run, recorded entry, pre-key, and the check on a later lookup. */
module LinkHit {
  import opened ClosedTrees
  import opened Common
  import opened FileTree
  import opened LinkManifest
  import opened ManifestCheck
  import opened ProbingProgram
  import Roots
  import TraceClasses
  import opened TraceFormat
  import Tracer
  import opened TreeHits

  /** The file system when a run is over. */
  function AtEnd(fs: FileSystem, acts: seq<Act>): FileSystem {
    p => Seen(fs, acts, p)
  }

  function CanonicalSet(roots: seq<Roots.Root>, paths: set<Path>): set<Path> {
    set p | p in paths :: Roots.Canonicalize(roots, p)
  }

  ghost predicate Lists(paths: seq<Path>, s: set<Path>) { forall p :: p in paths <==> p in s }

  ghost predicate SetComesBack(roots: seq<Roots.Root>,
                               paths: set<Path>) { forall p :: p in paths ==> ComesBack(roots, p) }

  /** What the check decides is what the entry means, in local paths. */
  lemma CheckIsStillHolds(l: Link, roots: seq<Roots.Root>, fs: FileSystem, acts: seq<Act>, fs': FileSystem,
                          tools: seq<Path>, inputs: seq<Path>, absent: seq<Path>)
    requires Lists(inputs, TraceInputs(l, fs, acts)) && Lists(absent, TraceAbsent(l, fs, acts))
    requires AllComeBack(roots, tools) && AllComeBack(roots, inputs) && AllComeBack(roots, absent)
    requires SetComesBack(roots, l.named)
    ensures var e := RecordedLink(l.hash, roots, AtEnd(fs, acts), CanonicalSet(roots, l.named), tools, inputs, absent);
            EntryHolds(l.hash, roots, fs', e) <==>
            StillHolds(l, RecordedEntry(l, fs, acts), fs')
            && UnnamedKept(l.hash, roots, AtEnd(fs, acts), fs', {}, tools)
  {
    var end, named, e := AtEnd(fs, acts), CanonicalSet(roots, l.named), RecordedEntry(l, fs, acts);
    EntryMeans(l.hash, roots, end, fs', named, tools, inputs, absent);
    forall i | 0 <= i < |inputs| ensures Roots.Canonicalize(roots, inputs[i]) in named <==> inputs[i] in l.named {
      NamedByCanonical(roots, l.named, inputs[i]);
    }
    InputsAgree(l, roots, fs, acts, fs', inputs);
    AbsencesAgree(l, fs, acts, fs', absent);
  }

  lemma NamedByCanonical(roots: seq<Roots.Root>, named: set<Path>, p: Path)
    requires SetComesBack(roots, named) && ComesBack(roots, p)
    ensures Roots.Canonicalize(roots, p) in CanonicalSet(roots, named) <==> p in named
  {
    if Roots.Canonicalize(roots, p) in CanonicalSet(roots, named) {
      var q :| q in named && Roots.Canonicalize(roots, q) == Roots.Canonicalize(roots, p);
      assert ComesBack(roots, q);
    }
  }

  lemma InputsAgree(l: Link, roots: seq<Roots.Root>, fs: FileSystem, acts: seq<Act>, fs': FileSystem, inputs: seq<Path>)
    requires Lists(inputs, TraceInputs(l, fs, acts))
    requires forall i :: 0 <= i < |inputs| ==>
               (Roots.Canonicalize(roots, inputs[i]) in CanonicalSet(roots, l.named) <==> inputs[i] in l.named)
    ensures UnnamedKept(l.hash, roots, AtEnd(fs, acts), fs', CanonicalSet(roots, l.named), inputs) <==>
            forall p :: p in RecordedEntry(l, fs, acts).inputs ==>
                          HashFile(l.hash, fs', p) == Some(RecordedEntry(l, fs, acts).inputs[p])
  {
    var e := RecordedEntry(l, fs, acts);
    forall p | p in e.inputs ensures exists i :: 0 <= i < |inputs| && inputs[i] == p {
      assert p in inputs;
    }
    forall i | 0 <= i < |inputs| ensures inputs[i] in TraceInputs(l, fs, acts) {
      assert inputs[i] in inputs;
    }
  }

  lemma AbsencesAgree(l: Link, fs: FileSystem, acts: seq<Act>, fs': FileSystem, absent: seq<Path>)
    requires Lists(absent, TraceAbsent(l, fs, acts))
    ensures (forall i :: 0 <= i < |absent| ==> ShownAbsent(fs'(absent[i]))) <==>
            forall p :: p in RecordedEntry(l, fs, acts).absent ==> ShownAbsent(fs'(p))
  {
    forall p | p in RecordedEntry(l, fs, acts).absent ensures exists i :: 0 <= i < |absent| && absent[i] == p {
      assert p in absent;
    }
    forall i | 0 <= i < |absent| ensures absent[i] in RecordedEntry(l, fs, acts).absent {
      assert absent[i] in absent;
    }
  }

  /** Every tool that ran is what it was. */
  ghost predicate ToolsKept(l: Link, fs: FileSystem, acts: seq<Act>, fs': FileSystem, tools: seq<Path>) {
    forall p :: p in tools ==> Kept(l.hash, AtEnd(fs, acts), fs', p)
  }

  /**
   When the pre-key is the same and the check passes, the tools are the same,
   and a rerun makes the same probes, gets the same answers and gives the same output.
   */
  lemma LinkHitIsSound(program: Program, l: Link, roots: seq<Roots.Root>, fs: FileSystem, acts: seq<Act>,
                       output: string,
                       fs': FileSystem, tools: seq<Path>, inputs: seq<Path>, absent: seq<Path>)
    requires Closed(fs')
    requires Injective(l.hash) && Runs(program, fs, Blind(l), acts, output) && ProbesSettled(l, fs, acts)
    requires Lists(inputs, TraceInputs(l, fs, acts)) && Lists(absent, TraceAbsent(l, fs, acts))
    requires AllComeBack(roots, tools) && AllComeBack(roots, inputs) && AllComeBack(roots, absent)
    requires SetComesBack(roots, l.named) && SamePreKey(l, fs, fs')
    requires EntryHolds(l.hash, roots, fs',
                        RecordedLink(l.hash, roots, AtEnd(fs, acts), CanonicalSet(roots, l.named),
                                     tools, inputs, absent))
    ensures ToolsKept(l, fs, acts, fs', tools)
    ensures Runs(program, fs', Blind(l), acts, output)
    ensures forall acts', output' :: Runs(program, fs', Blind(l), acts', output') ==> acts' == acts && output' == output
  {
    CheckIsStillHolds(l, roots, fs, acts, fs', tools, inputs, absent);
    TreeHitIsSound(program, l, fs, acts, output, fs');
  }

  // ---- from the log on -------------------------------------------------------------

  /** The records that say what was read, found missing or written. */
  function OfAct(r: Record): seq<Record> {
    if r.kind in {'R', 'M', 'W'} then [r] else []
  }

  /** The records of tools, loaded objects and listings in between change nothing of the others. */
  lemma {:induction false} OthersBetween(records: seq<Record>, kind: char)
    requires kind in {'R', 'M', 'W'}
    ensures Flat(OfKind(kind), Flat(OfAct, records)) == Flat(OfKind(kind), records)
  {
    if records != [] {
      var before, r := records[..|records| - 1], records[|records| - 1];
      OthersBetween(before, kind);
      OneRecord(OfAct(r), Flat(OfAct, before), kind);
    }
  }

  /** The tools, inputs and absences that are recorded are those of a trace that names a tool. */
  ghost predicate FromTrace(l: Link, t: TraceRecords, tools: seq<Path>, inputs: seq<Path>, absent: seq<Path>) {
    var kept := TraceClasses.Kept(t.read + t.loaded + t.written, Same(), l.outputs);
    && l.loaded == t.loaded
    && tools != [] && Lists(tools, TraceClasses.Kept(t.tools, Same(), l.outputs))
    && Lists(inputs, kept) && Lists(absent, TraceClasses.Kept(t.absent, Same(), l.outputs) - kept)
  }

  lemma TraceIsOfRun(l: Link, fs: FileSystem, acts: seq<Act>, records: seq<Record>,
                     tools: seq<Path>, inputs: seq<Path>, absent: seq<Path>)
    requires Flat(OfAct, records) == Emitted(fs, acts) && FromTrace(l, ByKind(records), tools, inputs, absent)
    ensures Lists(inputs, TraceInputs(l, fs, acts)) && Lists(absent, TraceAbsent(l, fs, acts))
  {
    OthersBetween(records, 'R');
    OthersBetween(records, 'M');
    OthersBetween(records, 'W');
  }

  /**
   From the log to the hit. The records of all processes reach the log through
   any interleaving of appends, those of tools and loaded objects among the
   run's own; every one is emitted whole, or one is lost and said to be. If the
   reader then accepts the log, and it names a tool, an entry made of it may be
   used whenever it holds.
   */
  lemma TracedHitIsSound(steps: seq<Tracer.Step>, program: Program, l: Link, roots: seq<Roots.Root>, fs: FileSystem,
                         acts: seq<Act>, output: string, fs': FileSystem,
                         tools: seq<Path>, inputs: seq<Path>, absent: seq<Path>)
    requires Tracer.IsRun(Tracer.Init(), steps)
    requires var s := Tracer.After(Tracer.Init(), steps);
             && s.owing == {} && !s.silent && (s.lost || Flat(OfAct, s.emitted) == Emitted(fs, acts))
             && Tracer.Read(s).Some? && FromTrace(l, Tracer.Read(s).value, tools, inputs, absent)
    requires Closed(fs')
    requires Injective(l.hash) && Runs(program, fs, Blind(l), acts, output) && ProbesSettled(l, fs, acts)
    requires AllComeBack(roots, tools) && AllComeBack(roots, inputs) && AllComeBack(roots, absent)
    requires SetComesBack(roots, l.named) && SamePreKey(l, fs, fs')
    requires EntryHolds(l.hash, roots, fs',
                        RecordedLink(l.hash, roots, AtEnd(fs, acts), CanonicalSet(roots, l.named),
                                     tools, inputs, absent))
    ensures ToolsKept(l, fs, acts, fs', tools)
    ensures Runs(program, fs', Blind(l), acts, output)
    ensures forall acts', output' :: Runs(program, fs', Blind(l), acts', output') ==> acts' == acts && output' == output
  {
    Tracer.AllOrNothing(steps);
    TraceIsOfRun(l, fs, acts, Tracer.After(Tracer.Init(), steps).emitted, tools, inputs, absent);
    LinkHitIsSound(program, l, roots, fs, acts, output, fs', tools, inputs, absent);
  }
}
