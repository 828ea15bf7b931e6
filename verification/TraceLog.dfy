/** The tracer's log: what is appended to it, and what a reader makes of it. */
module TraceFormat {
  import opened Common
  import opened TextLines

  const RECORD_MAX := 4096
  const TAB := '\t'
  const SENTINEL := "\n!\n"

  datatype Record = Record(kind: char, path: string)

  predicate KnownKind(c: char) { c == 'R' || c == 'M' || c == 'P' || c == 'L' || c == 'W' || c == 'D' }

  /** What the line protocol can carry. */
  predicate Representable(r: Record) {
    && KnownKind(r.kind) && r.path != "" && r.path[0] == '/'
    && NEWLINE !in r.path && TAB !in r.path && 2 + |r.path| < RECORD_MAX
  }

  function Body(r: Record): string { [r.kind, TAB] + r.path }

  function RecordText(r: Record): string { Body(r) + [NEWLINE] }

  // ---- the reader ------------------------------------------------------------------

  datatype TraceRecords = TraceRecords(
    read: seq<string>, absent: seq<string>, tools: seq<string>, loaded: seq<string>, written: seq<string>)

  /** A line that makes the whole log untrustworthy. */
  predicate Bad(body: string) {
    body != "" && (body == "!" || |body| < 3 || body[1] != TAB || body[2] != '/' || !KnownKind(body[0]))
  }

  function BadOf(line: Line): seq<string> { if Bad(line.body) then [line.body] else [] }

  /** The path of a good line of a kind. */
  function PathOf(kind: char): Line -> seq<string> {
    (line: Line) => if line.body != "" && !Bad(line.body) && line.body[0] == kind then [line.body[2..]] else []
  }

  function PathsOf(text: string, kind: char): seq<string> { Flat(PathOf(kind), Lines(text)) }

  predicate Trusted(text: string) { EndsLine(text) && Flat(BadOf, Lines(text)) == [] }

  function Records(text: string): TraceRecords {
    TraceRecords(PathsOf(text, 'R'), PathsOf(text, 'M'), PathsOf(text, 'P'), PathsOf(text, 'L'), PathsOf(text, 'W'))
  }

  function AddLine(t: TraceRecords, line: Line): TraceRecords {
    TraceRecords(t.read + PathOf('R')(line), t.absent + PathOf('M')(line), t.tools + PathOf('P')(line),
                 t.loaded + PathOf('L')(line), t.written + PathOf('W')(line))
  }

  function Plus(t: TraceRecords, u: TraceRecords): TraceRecords {
    TraceRecords(t.read + u.read, t.absent + u.absent, t.tools + u.tools, t.loaded + u.loaded, t.written + u.written)
  }

  lemma FirstPathOff(paths: seq<string>, text: string, kind: char)
    requires text != ""
    ensures paths + PathsOf(text, kind) == paths + PathOf(kind)(FirstLine(text)) + PathsOf(AfterLine(text), kind)
  {
    FirstLineOff(PathOf(kind), text);
    Regroup(paths, PathOf(kind)(FirstLine(text)), PathsOf(AfterLine(text), kind));
  }

  lemma FirstRecordOff(t: TraceRecords, text: string)
    requires text != ""
    ensures Plus(t, Records(text)) == Plus(AddLine(t, FirstLine(text)), Records(AfterLine(text)))
  {
    FirstPathOff(t.read, text, 'R');
    FirstPathOff(t.absent, text, 'M');
    FirstPathOff(t.tools, text, 'P');
    FirstPathOff(t.loaded, text, 'L');
    FirstPathOff(t.written, text, 'W');
  }

  /** One good line; D records are listings, covered by the paths probed within them. */
  method TakeLine(t: TraceRecords, line: Line) returns (r: Option<TraceRecords>)
    ensures r == if Bad(line.body) then None else Some(AddLine(t, line))
  {
    var body := line.body;
    assert forall paths: seq<string> :: paths + [] == paths;
    if body == "" {
      return Some(t);
    }
    if body == "!" || |body| < 3 || body[1] != TAB || body[2] != '/' {
      return None;
    }
    var path := body[2..];
    match body[0] {
      case 'R' => r := Some(t.(read := t.read + [path]));
      case 'M' => r := Some(t.(absent := t.absent + [path]));
      case 'P' => r := Some(t.(tools := t.tools + [path]));
      case 'L' => r := Some(t.(loaded := t.loaded + [path]));
      case 'W' => r := Some(t.(written := t.written + [path]));
      case 'D' => r := Some(t);
      case _ => r := None;
    }
  }

  /** Refuses a log that is cut off or has any bad line; otherwise every record, by kind and in order. */
  method ReadTraceRecords(file: Option<string>) returns (r: Option<TraceRecords>)
    ensures r == if file.Some? && Trusted(file.value) then Some(Records(file.value)) else None
  {
    if file.None? {
      return None;
    }
    var text := file.value;
    if text != "" && text[|text| - 1] != NEWLINE {
      return None;
    }
    var t := TraceRecords([], [], [], [], []);
    var rest := text;
    while rest != ""
      invariant Plus(t, Records(rest)) == Records(text)
      invariant Flat(BadOf, Lines(rest)) == Flat(BadOf, Lines(text))
      decreases |rest|
    {
      FirstRecordOff(t, rest);
      FirstLineOff(BadOf, rest);
      var next := TakeLine(t, FirstLine(rest));
      if next.None? {
        return None;
      }
      t := next.value;
      rest := AfterLine(rest);
    }
    assert Plus(t, Records("")) == t;
    r := Some(t);
  }

  // ---- whole logs and sentinels ----------------------------------------------------

  function OfKind(kind: char): Record -> seq<string> {
    (r: Record) => if r.kind == kind then [r.path] else []
  }

  lemma RecordLine(r: Record, kind: char)
    requires Representable(r)
    ensures EndsLine(RecordText(r))
    ensures Flat(BadOf, Lines(RecordText(r))) == []
    ensures kind != 'D' ==> Flat(PathOf(kind), Lines(RecordText(r))) == OfKind(kind)(r)
  {
    var line := Line(Body(r), true);
    assert NEWLINE !in Body(r);
    OneLine(Body(r));
    FlatOne(BadOf, line);
    FlatOne(PathOf(kind), line);
    assert Body(r)[2..] == r.path && Body(r)[2] == r.path[0];
  }

  predicate AllRepresentable(records: seq<Record>) { forall i :: 0 <= i < |records| ==> Representable(records[i]) }

  lemma PathsReadBack(records: seq<Record>, kind: char)
    requires AllRepresentable(records) && kind != 'D'
    ensures PathsOf(Flat(RecordText, records), kind) == Flat(OfKind(kind), records)
  {
    forall i | 0 <= i < |records|
      ensures EndsLine(RecordText(records[i]))
              && Flat(PathOf(kind), Lines(RecordText(records[i]))) == OfKind(kind)(records[i])
    {
      RecordLine(records[i], kind);
    }
    LinesOfFlat(RecordText, PathOf(kind), OfKind(kind), records);
  }

  lemma WholeLogTrusted(records: seq<Record>)
    requires AllRepresentable(records)
    ensures Trusted(Flat(RecordText, records))
  {
    var none: Record -> seq<string> := _ => [];
    forall i | 0 <= i < |records|
      ensures EndsLine(RecordText(records[i])) && Flat(BadOf, Lines(RecordText(records[i]))) == none(records[i])
    {
      RecordLine(records[i], 'R');
    }
    LinesOfFlat(RecordText, BadOf, none, records);
    FlatEmpty(none, records);
  }

  /** The records of a run, by kind. */
  function ByKind(records: seq<Record>): TraceRecords {
    TraceRecords(Flat(OfKind('R'), records), Flat(OfKind('M'), records), Flat(OfKind('P'), records),
                 Flat(OfKind('L'), records), Flat(OfKind('W'), records))
  }

  lemma WholeLogReadsBack(records: seq<Record>)
    requires AllRepresentable(records)
    ensures Trusted(Flat(RecordText, records)) && Records(Flat(RecordText, records)) == ByKind(records)
  {
    WholeLogTrusted(records);
    PathsReadBack(records, 'R');
    PathsReadBack(records, 'M');
    PathsReadBack(records, 'P');
    PathsReadBack(records, 'L');
    PathsReadBack(records, 'W');
  }

  /** A sentinel stands alone on its line wherever it lands, so no log that has one is trusted. */
  lemma SentinelRefused(before: string, after: string)
    ensures !Trusted(before + SENTINEL + after)
  {
    var head := before + [NEWLINE];
    assert before + SENTINEL + after == head + ("!" + [NEWLINE] + after);
    FlatLines(BadOf, head, "!" + [NEWLINE] + after);
    FlatLines(BadOf, "!" + [NEWLINE], after);
    OneLine("!");
    FlatOne(BadOf, Line("!", true));
  }
}

/** The tracer: one record from one call, and every interleaving of appends by many processes. */
module Tracer {
  import opened Common
  import opened TextLines
  import opened TraceFormat

  // ---- building a record -----------------------------------------------------------

  /** The path recorded: a relative one is joined to the directory the process is in, with its slash. */
  function Absolute(path: string, cwd: Option<string>): Option<string>
    requires path != ""
  {
    if path[0] == '/' then Some(path) else if cwd.None? then None else Some(cwd.value + path)
  }

  /**
   Fills a record buffer byte by byte. Nothing is returned, and the trace is to
   be marked incomplete, when the directory cannot be named, the path does not
   fit, or it has bytes that the line protocol cannot carry.
   */
  method BuildRecord(kind: char, path: string, cwd: Option<string>) returns (r: Option<string>)
    requires KnownKind(kind) && path != ""
    requires cwd.Some? ==> "/" <= cwd.value && 2 + |cwd.value| < RECORD_MAX
    ensures var abs := Absolute(path, cwd);
            r == if abs.Some? && Representable(Record(kind, abs.value))
                 then Some(RecordText(Record(kind, abs.value))) else None
  {
    var buf := [kind, TAB];
    ghost var prefix := "";
    if path[0] != '/' {
      if cwd.None? {
        return None;
      }
      buf := buf + cwd.value;
      prefix := cwd.value;
    }
    assert buf == [kind, TAB] + prefix && "" + path == path;
    var q;
    buf, q := CopyPath(buf, path);
    Judge(kind, prefix, path, q, buf);
    if NEWLINE in buf[2..] || TAB in buf[2..] {
      return None;
    }
    if q < |path| {
      return None;
    }
    r := Some(buf + [NEWLINE]);
  }

  /** Copies what fits, leaving room for the newline. */
  method CopyPath(start: string, path: string) returns (buf: string, q: nat)
    requires |start| <= RECORD_MAX - 1
    ensures q <= |path| && buf == start + path[..q] && |buf| <= RECORD_MAX - 1
    ensures q < |path| ==> |buf| == RECORD_MAX - 1
  {
    buf, q := start, 0;
    while q < |path| && |buf| < RECORD_MAX - 1
      invariant q <= |path| && |buf| <= RECORD_MAX - 1 && buf == start + path[..q]
    {
      buf := buf + [path[q]];
      q := q + 1;
    }
  }

  /** The bytes copied tell whether the whole path can be recorded. */
  lemma Judge(kind: char, prefix: string, path: string, q: nat, buf: string)
    requires KnownKind(kind) && q <= |path| && buf == [kind, TAB] + prefix + path[..q]
    requires |buf| <= RECORD_MAX - 1 && (q < |path| ==> |buf| == RECORD_MAX - 1)
    requires prefix + path != "" && (prefix + path)[0] == '/'
    ensures var r := Record(kind, prefix + path);
            && (Representable(r) <==> NEWLINE !in buf[2..] && TAB !in buf[2..] && q == |path|)
            && (Representable(r) ==> buf == Body(r))
  {
    assert buf[2..] == prefix + path[..q];
    assert prefix + path == buf[2..] + path[q..];
  }

  // ---- every interleaving ----------------------------------------------------------

  type Process = nat

  /**
   The log, the marker beside it, the processes that have lost a record and not
   yet said so, and what happened: the records appended whole, whether any was
   lost, and whether saying so failed.
   */
  datatype State = State(
    log: string, marker: bool, owing: set<Process>,
    emitted: seq<Record>, lost: bool, silent: bool)

  function Init(): State { State("", false, {}, [], false, false) }

  datatype Step =
    | Append(p: Process, record: Record, written: nat)  // one write, whole or short
    | Drop(p: Process)                                  // a record that could not be built or written
    | MarkFile(p: Process)                              // the marker file is created
    | MarkLog(p: Process)                               // or else the sentinel is appended whole
    | MarkShort(p: Process, written: nat)               // or else not whole, or not at all

  predicate Enabled(s: State, step: Step) {
    match step
    case Append(p, r, n) => p !in s.owing && Representable(r) && n <= |RecordText(r)|
    case Drop(p) => p !in s.owing
    case MarkFile(p) => p in s.owing
    case MarkLog(p) => p in s.owing
    case MarkShort(p, n) => p in s.owing && n < |SENTINEL|
  }

  function Next(s: State, step: Step): State
    requires Enabled(s, step)
  {
    match step
    case Append(p, r, n) =>
      if n == |RecordText(r)| then s.(log := s.log + RecordText(r), emitted := s.emitted + [r])
      else s.(log := s.log + RecordText(r)[..n], owing := s.owing + {p}, lost := true)
    case Drop(p) => s.(owing := s.owing + {p}, lost := true)
    case MarkFile(p) => s.(marker := true, owing := s.owing - {p})
    case MarkLog(p) => s.(log := s.log + SENTINEL, owing := s.owing - {p})
    case MarkShort(p, n) => s.(log := s.log + SENTINEL[..n], owing := s.owing - {p}, silent := true)
  }

  ghost predicate HasSentinel(log: string) {
    exists before, after :: log == before + SENTINEL + after
  }

  /** While nothing is lost the log is the records; once something is, that is owed, said, or was said in vain. */
  ghost predicate Inv(s: State) {
    && AllRepresentable(s.emitted)
    && (!s.lost ==> s.log == Flat(RecordText, s.emitted) && !s.marker && s.owing == {} && !s.silent)
    && (s.lost ==> s.owing != {} || s.silent || s.marker || HasSentinel(s.log))
  }

  lemma SentinelStays(log: string, more: string)
    requires HasSentinel(log)
    ensures HasSentinel(log + more)
  {
    var before, after :| log == before + SENTINEL + after;
    assert log + more == before + SENTINEL + (after + more);
  }

  lemma StepKeeps(s: State, step: Step)
    requires Inv(s) && Enabled(s, step)
    ensures Inv(Next(s, step))
  {
    var t := Next(s, step);
    if HasSentinel(s.log) {
      assert s.log + "" == s.log;
      SentinelStays(s.log, t.log[|s.log|..]);
      assert t.log == s.log + t.log[|s.log|..];
    }
    match step
    case Append(p, r, n) =>
      FlatConcat(RecordText, s.emitted, [r]);
      FlatOne(RecordText, r);
      assert n < |RecordText(r)| ==> p in t.owing;
    case Drop(p) => assert p in t.owing;
    case MarkFile(p) =>
    case MarkLog(p) => assert t.log == s.log + SENTINEL + "";
    case MarkShort(p, n) =>
  }

  predicate IsRun(s: State, steps: seq<Step>)
    decreases |steps|
  {
    steps == [] || (Enabled(s, steps[0]) && IsRun(Next(s, steps[0]), steps[1..]))
  }

  function After(s: State, steps: seq<Step>): State
    requires IsRun(s, steps)
    decreases |steps|
  {
    if steps == [] then s else After(Next(s, steps[0]), steps[1..])
  }

  lemma {:induction false} RunKeeps(s: State, steps: seq<Step>)
    requires Inv(s) && IsRun(s, steps)
    ensures Inv(After(s, steps))
    decreases |steps|
  {
    if steps != [] {
      StepKeeps(s, steps[0]);
      RunKeeps(Next(s, steps[0]), steps[1..]);
    }
  }

  /** What a reader takes from the log: nothing if the marker is there or a line is bad. */
  function Read(s: State): Option<TraceRecords> {
    if !s.marker && Trusted(s.log) then Some(Records(s.log)) else None
  }

  /**
   In every interleaving of appends by any number of processes, once every
   process that lost a record has said so with the marker or a whole sentinel,
   the reader refuses the log if any record was lost, and otherwise gets
   exactly the records emitted.
   */
  lemma AllOrNothing(steps: seq<Step>)
    requires IsRun(Init(), steps)
    ensures var s := After(Init(), steps);
            s.owing == {} && !s.silent ==> Read(s) == if s.lost then None else Some(ByKind(s.emitted))
  {
    RunKeeps(Init(), steps);
    var s := After(Init(), steps);
    if !s.lost {
      WholeLogReadsBack(s.emitted);
    } else if HasSentinel(s.log) {
      var before, after :| s.log == before + SENTINEL + after;
      SentinelRefused(before, after);
    }
  }

  /**
   Without that, any read cut off before its newline and followed by any record
   reads as a path with a tab in it, which no process has touched.
   */
  lemma SilentTearIsBelieved(torn: Record, whole: Record)
    requires Representable(torn) && Representable(whole) && torn.kind == 'R'
    ensures IsRun(Init(), TornRun(torn, whole))
    ensures var s := After(Init(), TornRun(torn, whole));
            s.lost && s.owing == {} && Read(s).Some? && TornPath(torn, whole) in Read(s).value.read
    ensures forall r :: Representable(r) ==> r.path != TornPath(torn, whole)
    ensures forall i :: 0 <= i < |TornRun(torn, whole)| && TornRun(torn, whole)[i].Append? ==>
                          TornRun(torn, whole)[i].record.path != TornPath(torn, whole)
  {
    TornRunLeads(torn, whole);
    MergedLine(torn, whole);
    assert TornPath(torn, whole)[|torn.path| + 1] == TAB;
  }

  /** A record cut off before its newline, a loss that is not announced, and a record of another process. */
  function TornRun(torn: Record, whole: Record): seq<Step> {
    [Append(0, torn, |Body(torn)|), MarkShort(0, 0), Append(1, whole, |RecordText(whole)|)]
  }

  function TornPath(torn: Record, whole: Record): string { torn.path + Body(whole) }

  lemma TornRunLeads(torn: Record, whole: Record)
    requires Representable(torn) && Representable(whole)
    ensures IsRun(Init(), TornRun(torn, whole))
    ensures After(Init(), TornRun(torn, whole)) == State(Body(torn) + RecordText(whole), false, {}, [whole], true, true)
  {
    var steps := TornRun(torn, whole);
    assert Next(Init(), steps[0]) == State(Body(torn), false, {0}, [], true, false);
    assert Next(Next(Init(), steps[0]), steps[1]) == State(Body(torn), false, {}, [], true, true);
    ThreeSteps(Init(), steps[0], steps[1], steps[2]);
  }

  lemma ThreeSteps(s: State, a: Step, b: Step, c: Step)
    requires Enabled(s, a) && Enabled(Next(s, a), b) && Enabled(Next(Next(s, a), b), c)
    ensures IsRun(s, [a, b, c]) && After(s, [a, b, c]) == Next(Next(Next(s, a), b), c)
  {
    var s1, s2 := Next(s, a), Next(Next(s, a), b);
    assert [a, b, c][1..] == [b, c] && [b, c][1..] == [c];
    assert IsRun(s2, [c]) && After(s2, [c]) == Next(s2, c);
    assert IsRun(s1, [b, c]) && After(s1, [b, c]) == Next(s2, c);
  }

  lemma MergedLine(torn: Record, whole: Record)
    requires Representable(torn) && Representable(whole)
    ensures var log := Body(torn) + RecordText(whole);
            Trusted(log) && PathsOf(log, torn.kind) == [TornPath(torn, whole)]
  {
    var body := Body(torn) + Body(whole);
    assert Body(torn) + RecordText(whole) == body + [NEWLINE];
    OneLine(body);
    FlatOne(BadOf, Line(body, true));
    FlatOne(PathOf(torn.kind), Line(body, true));
    assert body[2..] == torn.path + Body(whole);
  }
}

/** A process of the traced tree, making one record from one call. */
module TracerClass {
  import opened Common
  import opened TextLines
  import opened TraceFormat
  import opened Tracer

  /** What the kernel answers: bytes the record's write took, if it did not fail; the marker; bytes of the sentinel. */
  datatype Answers = Answers(written: Option<nat>, markerCreated: bool, sentinel: nat)

  function MarkSteps(p: Process, a: Answers): seq<Step> {
    if a.markerCreated then [MarkFile(p)]
    else if a.sentinel >= |SENTINEL| then [MarkLog(p)]
    else [MarkShort(p, a.sentinel)]
  }

  /** The steps of the protocol one call takes: its record, and if that is lost, saying so. */
  function EmitSteps(p: Process, kind: char, path: string, cwd: Option<string>, a: Answers): seq<Step> {
    if path == "" then []
    else
      var abs := Absolute(path, cwd);
      if abs.None? || !Representable(Record(kind, abs.value)) || a.written.None? then [Drop(p)] + MarkSteps(p, a)
      else
        var r := Record(kind, abs.value);
        if a.written.value >= |RecordText(r)| then [Append(p, r, |RecordText(r)|)]
        else [Append(p, r, a.written.value)] + MarkSteps(p, a)
  }

  class Log {
    var log: string
    var marker: bool
    ghost var owing: set<Process>
    ghost var emitted: seq<Record>
    ghost var lost: bool
    ghost var silent: bool

    ghost function View(): State
      reads this
    {
      State(log, marker, owing, emitted, lost, silent)
    }

    method MarkIncomplete(p: Process, a: Answers)
      requires p in owing
      modifies this`log, this`marker, this`owing, this`silent
      ensures IsRun(old(View()), MarkSteps(p, a)) && View() == After(old(View()), MarkSteps(p, a))
    {
      OneStep(View(), MarkSteps(p, a)[0]);
      if a.markerCreated {
        marker := true;
      } else if a.sentinel >= |SENTINEL| {
        log := log + SENTINEL;
      } else {
        log := log + SENTINEL[..a.sentinel];
        silent := true;
      }
      owing := owing - {p};
    }

    /** Every call is a run of the protocol: one whole record, or a loss that is then said. */
    method Emit(p: Process, kind: char, path: string, cwd: Option<string>, a: Answers)
      requires p !in owing && KnownKind(kind)
      requires cwd.Some? ==> "/" <= cwd.value && 2 + |cwd.value| < RECORD_MAX
      modifies this
      ensures IsRun(old(View()), EmitSteps(p, kind, path, cwd, a))
      ensures View() == After(old(View()), EmitSteps(p, kind, path, cwd, a))
    {
      if path == "" {
        return;
      }
      var text := BuildRecord(kind, path, cwd);
      if text.None? || a.written.None? {
        ThenSteps(View(), Drop(p), MarkSteps(p, a));
        owing, lost := owing + {p}, true;
        MarkIncomplete(p, a);
        return;
      }
      ghost var r := Record(kind, Absolute(path, cwd).value);
      if a.written.value >= |text.value| {
        OneStep(View(), Append(p, r, |RecordText(r)|));
        log, emitted := log + text.value, emitted + [r];
        return;
      }
      ThenSteps(View(), Append(p, r, a.written.value), MarkSteps(p, a));
      log := log + text.value[..a.written.value];
      owing, lost := owing + {p}, true;
      MarkIncomplete(p, a);
    }
  }

  lemma OneStep(s: State, step: Step)
    requires Enabled(s, step)
    ensures IsRun(s, [step]) && After(s, [step]) == Next(s, step)
  {
    assert [step][1..] == [];
  }

  lemma ThenSteps(s: State, step: Step, more: seq<Step>)
    requires Enabled(s, step)
    ensures IsRun(s, [step] + more) <==> IsRun(Next(s, step), more)
    ensures IsRun(Next(s, step), more) ==> After(s, [step] + more) == After(Next(s, step), more)
  {
    assert ([step] + more)[1..] == more;
  }
}

/** Sorting the records into inputs, absences and tools. */
module TraceClasses {
  import opened Common
  import opened TraceFormat

  predicate EndsInDot(path: string) { |path| >= 2 && path[|path| - 2] == '/' && path[|path| - 1] == '.' }

  predicate Ignored(path: string) {
    || path == "" || path[0] != '/'
    || "/proc/" <= path || path == "/proc" || "/sys/" <= path || path == "/sys"
    || path == "/dev/null" || path == "/dev/tty" || path == "/dev/random" || path == "/dev/urandom"
    || "/dev/pts/" <= path
    || EndsInDot(path)
  }

  // ---- which paths are ignored, by their components --------------------------------

  function FirstSlash(s: string): (r: nat)
    ensures r <= |s| && (r < |s| ==> s[r] == '/') && forall k :: 0 <= k < r ==> s[k] != '/'
  {
    if s == "" || s[0] == '/' then 0 else 1 + FirstSlash(s[1..])
  }

  /** The components of a path, without its leading slash. */
  function Components(s: string): (r: seq<string>)
    ensures r != []
    decreases |s|
  {
    var k := FirstSlash(s);
    if k == |s| then [s] else [s[..k]] + Components(s[k + 1..])
  }

  lemma FirstSlashIs(s: string, k: nat)
    requires k < |s| && s[k] == '/' && '/' !in s[..k]
    ensures FirstSlash(s) == k
  {
    assert forall j :: 0 <= j < k ==> s[j] == s[..k][j];
  }

  lemma ComponentsCons(name: string, rest: string)
    requires '/' !in name
    ensures Components(name + "/" + rest) == [name] + Components(rest)
  {
    var s := name + "/" + rest;
    assert s[..|name|] == name && s[|name| + 1..] == rest;
    FirstSlashIs(s, |name|);
  }

  lemma ComponentsOne(name: string)
    requires '/' !in name
    ensures Components(name) == [name]
  {
    assert name[..|name|] == name;
  }

  /** A path is one name, or a name, a slash and a path. */
  lemma ComponentsSplit(s: string) returns (name: string, rest: string)
    ensures '/' !in name
    ensures |Components(s)| > 1 ==> s == name + "/" + rest && Components(s) == [name] + Components(rest)
    ensures |Components(s)| == 1 ==> s == name && Components(s) == [name]
  {
    var k := FirstSlash(s);
    name, rest := s[..k], if k < |s| then s[k + 1..] else "";
  }

  lemma FirstNamesAgree(a: string, x: string, b: string, y: string)
    requires '/' !in a && '/' !in b
    ensures a + "/" + x == b + "/" + y <==> a == b && x == y
  {
    ComponentsCons(a, x);
    ComponentsCons(b, y);
    var s, t := a + "/" + x, b + "/" + y;
    assert Components(s)[0] == a && Components(t)[0] == b;
    assert s[|a| + 1..] == x && t[|b| + 1..] == y;
  }

  lemma FirstComponentIs(s: string, name: string)
    requires '/' !in name
    ensures s == name <==> Components(s) == [name]
    ensures name + "/" <= s <==> |Components(s)| > 1 && Components(s)[0] == name
  {
    ComponentsOne(name);
    var first, rest := ComponentsSplit(s);
    if name + "/" <= s {
      assert s == name + "/" + s[|name| + 1..];
      ComponentsCons(name, s[|name| + 1..]);
    }
  }

  lemma PrefixAfter(head: string, t: string, u: string)
    ensures head + t <= head + u <==> t <= u
  {
    var x, y := head + t, head + u;
    assert x[|head|..] == t;
    assert |t| <= |u| ==> y[..|x|] == head + u[..|t|] && y[..|x|][|head|..] == u[..|t|];
  }

  lemma TwoComponents(s: string, first: string, second: string)
    requires '/' !in first && '/' !in second
    ensures s == first + "/" + second <==> Components(s) == [first, second]
    ensures first + "/" + second + "/" <= s <==>
            |Components(s)| > 2 && Components(s)[0] == first && Components(s)[1] == second
  {
    FirstComponentIs(s, first);
    assert first + "/" <= first + "/" + second && first + "/" <= first + "/" + second + "/";
    Regroup(first + "/", second, "/");
    var name, rest := ComponentsSplit(s);
    if first + "/" <= s {
      assert s == first + "/" + rest && Components(s)[1..] == Components(rest);
      PrefixAfter(first + "/", second + "/", rest);
      FirstNamesAgree(first, rest, first, second);
      FirstComponentIs(rest, second);
    }
  }

  lemma EndsAfter(head: string, s: string)
    requires s != "" && s[0] == '/'
    ensures EndsInDot(head + s) <==> EndsInDot(s)
  {
    var t := head + s;
    assert t[|t| - 1] == s[|s| - 1] && (|s| >= 2 ==> t[|t| - 2] == s[|s| - 2]);
  }

  lemma NameEndsInDot(name: string)
    requires '/' !in name
    ensures EndsInDot("/" + name) <==> name == "."
  {
    var t := "/" + name;
    assert |name| >= 2 ==> t[|t| - 2] == name[|name| - 2] && name[|name| - 2] in name;
    assert |name| == 1 ==> name == [t[1]];
  }

  lemma {:induction false} LastComponentIsDot(s: string)
    ensures Components(s)[|Components(s)| - 1] == "." <==> EndsInDot("/" + s)
    decreases |s|
  {
    var name, rest := ComponentsSplit(s);
    NameEndsInDot(name);
    if |Components(s)| > 1 {
      LastComponentIsDot(rest);
      assert "/" + s == ("/" + name) + ("/" + rest);
      EndsAfter("/" + name, "/" + rest);
    }
  }

  /** The paths of a trace that are no file's, by whole components. */
  predicate NoFile(path: string) {
    path == "" || path[0] != '/' ||
    var names := Components(path[1..]);
    || names[0] == "proc" || names[0] == "sys"
    || names in [["dev", "null"], ["dev", "tty"], ["dev", "random"], ["dev", "urandom"]]
    || (|names| > 2 && names[0] == "dev" && names[1] == "pts")
    || names[|names| - 1] == "."
  }

  lemma RootedIs(path: string, s: string, prefix: string)
    requires path == "/" + s
    ensures "/" + prefix <= path <==> prefix <= s
    ensures path == "/" + prefix <==> s == prefix
  {
    assert path[1..] == s && ("/" + prefix)[1..] == prefix;
  }

  lemma TopIgnored(path: string, s: string, name: string)
    requires path == "/" + s && '/' !in name
    ensures path == "/" + name || "/" + name + "/" <= path <==> Components(s)[0] == name
  {
    FirstComponentIs(s, name);
    RootedIs(path, s, name);
    RootedIs(path, s, name + "/");
    assert "/" + name + "/" == "/" + (name + "/");
  }

  lemma DeviceIgnored(path: string, s: string, name: string)
    requires path == "/" + s && '/' !in name
    ensures path == "/dev/" + name <==> Components(s) == ["dev", name]
    ensures "/dev/" + name + "/" <= path <==>
            |Components(s)| > 2 && Components(s)[0] == "dev" && Components(s)[1] == name
  {
    TwoComponents(s, "dev", name);
    RootedIs(path, s, "dev" + "/" + name);
    RootedIs(path, s, "dev" + "/" + name + "/");
    assert "/dev/" + name == "/" + ("dev" + "/" + name);
    assert "/dev/" + name + "/" == "/" + ("dev" + "/" + name + "/");
  }

  lemma KernelIgnored(path: string, s: string)
    requires path == "/" + s
    ensures "/proc/" <= path || path == "/proc" || "/sys/" <= path || path == "/sys" <==>
            Components(s)[0] == "proc" || Components(s)[0] == "sys"
  {
    TopIgnored(path, s, "proc");
    TopIgnored(path, s, "sys");
    assert "/" + "proc" + "/" == "/proc/" && "/" + "proc" == "/proc";
    assert "/" + "sys" + "/" == "/sys/" && "/" + "sys" == "/sys";
  }

  lemma OneDevice(path: string, s: string, name: string, device: string)
    requires path == "/" + s && '/' !in name && device == "/dev/" + name
    ensures path == device <==> Components(s) == ["dev", name]
  {
    DeviceIgnored(path, s, name);
  }

  lemma DevicesIgnored(path: string, s: string)
    requires path == "/" + s
    ensures path == "/dev/null" || path == "/dev/tty" || path == "/dev/random" || path == "/dev/urandom" <==>
            Components(s) in [["dev", "null"], ["dev", "tty"], ["dev", "random"], ["dev", "urandom"]]
  {
    OneDevice(path, s, "null", "/dev/null");
    OneDevice(path, s, "tty", "/dev/tty");
    OneDevice(path, s, "random", "/dev/random");
    OneDevice(path, s, "urandom", "/dev/urandom");
  }

  lemma TerminalsIgnored(path: string, s: string)
    requires path == "/" + s
    ensures "/dev/pts/" <= path <==>
            |Components(s)| > 2 && Components(s)[0] == "dev" && Components(s)[1] == "pts"
  {
    DeviceIgnored(path, s, "pts");
    assert "/dev/" + "pts" + "/" == "/dev/pts/";
  }

  /** A path is ignored by whole components, so that "/sysroot/lib" or "/dev/shm/a.o" is not. */
  lemma IgnoredExactly(path: string)
    ensures Ignored(path) <==> NoFile(path)
  {
    if path != "" && path[0] == '/' {
      var s := path[1..];
      assert path == "/" + s;
      KernelIgnored(path, s);
      DevicesIgnored(path, s);
      TerminalsIgnored(path, s);
      LastComponentIsDot(s);
    }
  }

  // ---- what a trace is for ---------------------------------------------------------

  datatype LinkTrace = LinkTrace(inputs: set<string>, absent: set<string>, tools: set<string>)

  /** The paths that are kept, in normal form; `outputs` are in normal form already. */
  function Kept(paths: seq<string>, lexical: string -> string, outputs: set<string>): set<string> {
    set raw | raw in paths && !Ignored(lexical(raw)) && lexical(raw) !in outputs :: lexical(raw)
  }

  /** Every traced path is kept, in normal form, unless it is no file's or is an output. */
  lemma KeptExactly(paths: seq<string>, lexical: string -> string, outputs: set<string>, path: string)
    ensures path in Kept(paths, lexical, outputs) <==>
            path !in outputs && !NoFile(path) && exists i :: 0 <= i < |paths| && lexical(paths[i]) == path
  {
    IgnoredExactly(path);
  }

  method Keep(paths: seq<string>, lexical: string -> string, outputs: set<string>, to: set<string>)
    returns (r: set<string>)
    ensures r == to + Kept(paths, lexical, outputs)
  {
    r := to;
    for i := 0 to |paths|
      invariant r == to + Kept(paths[..i], lexical, outputs)
    {
      var path := lexical(paths[i]);
      assert paths[..i + 1] == paths[..i] + [paths[i]];
      if Ignored(path) || path in outputs {
        continue;
      }
      r := r + {path};
    }
    assert paths[..|paths|] == paths;
  }

  /** A path both probed absent and read is an input and not an absence; the sets are disjoint and lose nothing else. */
  method ParseTraceLog(file: Option<string>, lexical: string -> string, outputs: set<string>)
    returns (r: Option<LinkTrace>)
    ensures r.Some? <==> file.Some? && Trusted(file.value)
    ensures r.Some? ==> var t := Records(file.value);
                        && r.value.inputs == Kept(t.read + t.loaded + t.written, lexical, outputs)
                        && r.value.inputs !! r.value.absent
                        && r.value.inputs + r.value.absent
                           == Kept(t.read + t.loaded + t.written + t.absent, lexical, outputs)
                        && r.value.tools == Kept(t.tools, lexical, outputs)
  {
    var records := ReadTraceRecords(file);
    if records.None? {
      return None;
    }
    var t := records.value;
    var inputs := Keep(t.read, lexical, outputs, {});
    inputs := Keep(t.loaded, lexical, outputs, inputs);
    inputs := Keep(t.written, lexical, outputs, inputs);
    var absent := Keep(t.absent, lexical, outputs, {});
    var tools := Keep(t.tools, lexical, outputs, {});
    r := Some(LinkTrace(inputs, absent - inputs, tools));
  }
}
