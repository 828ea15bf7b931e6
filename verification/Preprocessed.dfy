/** Preprocessed text line by line: what is hashed of it, and what is learnt from it. */
module PreprocessedLines {
  import opened Common
  import opened Linemarker
  import opened Text
  import opened TextLines

  const INCBIN := ".incbin"
  const PCH_PRAGMA := "#pragma GCC pch_preprocess \""

  // ---- one line --------------------------------------------------------------------

  /** What the caller asks for: the path mapping, and whether PCH pragmas are collected. */
  datatype Options = Options(canon: string -> string, collectPch: bool)

  predicate IsPragma(o: Options, line: Line) { o.collectPch && PCH_PRAGMA <= line.body }

  predicate Malformed(o: Options, line: Line) {
    IsPragma(o, line) && (|line.body| == |PCH_PRAGMA| || line.body[|line.body| - 1] != QUOTE)
  }

  function PragmaPath(o: Options, line: Line): string
    requires IsPragma(o, line) && !Malformed(o, line)
  {
    line.body[|PCH_PRAGMA|..|line.body| - 1]
  }

  function NormalBody(o: Options, line: Line): string
    requires !Malformed(o, line)
  {
    if IsPragma(o, line) then PCH_PRAGMA + Escaped(o.canon(PragmaPath(o, line))) + [QUOTE]
    else if Plain(line) then line.body
    else Normalized(o.canon, line.body)
  }

  function NormalForm(o: Options, line: Line): string {
    if Malformed(o, line) then ""
    else NormalBody(o, line) + if line.ended then [NEWLINE] else ""
  }

  /** The path a line's pragma names, if it is one. */
  function PathsOf(o: Options, line: Line): seq<string> {
    if IsPragma(o, line) && !Malformed(o, line) then [PragmaPath(o, line)] else []
  }

  predicate HasIncbin(line: Line) { Plain(line) && Occurs(line.body, INCBIN) }

  // ---- all lines -------------------------------------------------------------------

  function NormalText(o: Options, lines: seq<Line>): string {
    Flat(line => NormalForm(o, line), lines)
  }

  function PragmaPaths(o: Options, lines: seq<Line>): seq<string> {
    Flat(line => PathsOf(o, line), lines)
  }

  predicate AnyIncbin(lines: seq<Line>) { exists i :: 0 <= i < |lines| && HasIncbin(lines[i]) }

  predicate AllWellFormed(o: Options, lines: seq<Line>) { forall i :: 0 <= i < |lines| ==> !Malformed(o, lines[i]) }

  /** Everything one pass gathers. */
  datatype Gathered = Gathered(fed: string, incbin: bool, pch: seq<string>, ok: bool)

  function Gather(o: Options, lines: seq<Line>): Gathered {
    Gathered(NormalText(o, lines), AnyIncbin(lines), PragmaPaths(o, lines), AllWellFormed(o, lines))
  }

  function Join(a: Gathered, b: Gathered): Gathered {
    Gathered(a.fed + b.fed, a.incbin || b.incbin, a.pch + b.pch, a.ok && b.ok)
  }

  lemma GatherConcat(o: Options, a: seq<Line>, b: seq<Line>)
    ensures Gather(o, a + b) == Join(Gather(o, a), Gather(o, b))
  {
    FlatConcat((line: Line) => NormalForm(o, line), a, b);
    FlatConcat((line: Line) => PathsOf(o, line), a, b);
    FlagsConcat(o, a, b);
  }

  lemma FlagsConcat(o: Options, a: seq<Line>, b: seq<Line>)
    ensures AnyIncbin(a + b) <==> AnyIncbin(a) || AnyIncbin(b)
    ensures AllWellFormed(o, a + b) <==> AllWellFormed(o, a) && AllWellFormed(o, b)
  {
    assert forall i :: 0 <= i < |b| ==> (a + b)[|a| + i] == b[i];
    assert forall i :: 0 <= i < |a| ==> (a + b)[i] == a[i];
  }

  lemma GatherOne(o: Options, line: Line)
    ensures Gather(o, [line])
            == Gathered(NormalForm(o, line), HasIncbin(line), PathsOf(o, line), !Malformed(o, line))
  {
    FlatOne((l: Line) => NormalForm(o, l), line);
    FlatOne((l: Line) => PathsOf(o, l), line);
    assert AnyIncbin([line]) <==> HasIncbin([line][0]);
    assert AllWellFormed(o, [line]) <==> !Malformed(o, [line][0]);
  }

  // ---- runs of plain lines ---------------------------------------------------------

  lemma IncbinInPart(body: string, rest: string)
    requires Occurs(body, INCBIN) || Occurs(rest, INCBIN)
    ensures Occurs(body + [NEWLINE] + rest, INCBIN)
  {
    var text := body + [NEWLINE] + rest;
    if Occurs(body, INCBIN) {
      OccursIn(body, "", [NEWLINE] + rest, INCBIN);
      assert "" + body + ([NEWLINE] + rest) == text;
    } else {
      OccursIn(rest, body + [NEWLINE], "", INCBIN);
      assert body + [NEWLINE] + rest + "" == text;
    }
  }

  lemma IncbinInOne(body: string, rest: string, i: nat)
    requires OccursAt(body + [NEWLINE] + rest, INCBIN, i)
    ensures OccursAt(body, INCBIN, i) || (i > |body| && OccursAt(rest, INCBIN, i - |body| - 1))
  {
    var text, n := body + [NEWLINE] + rest, |body|;
    assert text[n] == NEWLINE;
    OccursApart(text, INCBIN, i, n);
    if i > n {
      OccursAcross(body + [NEWLINE], rest, INCBIN, i);
      assert (body + [NEWLINE])[n + 1..] + rest == rest;
    } else {
      assert text == body + ([NEWLINE] + rest);
      OccursAcross(body, [NEWLINE] + rest, INCBIN, i);
    }
  }

  /** The directive holds no newline, so a run of lines has it exactly when one of them does. */
  lemma IncbinInRun(body: string, rest: string)
    ensures Occurs(body + [NEWLINE] + rest, INCBIN) <==> Occurs(body, INCBIN) || Occurs(rest, INCBIN)
  {
    var text := body + [NEWLINE] + rest;
    if Occurs(body, INCBIN) || Occurs(rest, INCBIN) {
      IncbinInPart(body, rest);
    }
    if Occurs(text, INCBIN) {
      var i :| 0 <= i <= |text| - |INCBIN| && OccursAt(text, INCBIN, i);
      IncbinInOne(body, rest, i);
    }
  }

  lemma PragmaStartsWithHash(body: string)
    ensures PCH_PRAGMA <= body ==> body != "" && body[0] == HASH
  {
    assert PCH_PRAGMA[0] == HASH;
  }

  lemma PlainLine(o: Options, line: Line)
    requires Plain(line)
    ensures Gather(o, [line])
            == Gathered(line.body + (if line.ended then [NEWLINE] else ""), Occurs(line.body, INCBIN), [], true)
  {
    GatherOne(o, line);
    PragmaStartsWithHash(line.body);
  }

  lemma AfterPlainLine(run: string, k: nat)
    requires NoHashLine(run, 0, |run|) && k < |run| && run[k] == NEWLINE
    ensures NoHashLine(run[k + 1..], 0, |run| - k - 1) && Plain(Line(run[..k], true))
    ensures run == run[..k] + [NEWLINE] + run[k + 1..]
  {
    var rest := run[k + 1..];
    forall j | 0 <= j < |rest| && LineStart(rest, 0, j) ensures rest[j] != HASH {
      assert LineStart(run, 0, k + 1 + j);
    }
    assert LineStart(run, 0, 0);
  }

  lemma PlainFirst(o: Options, body: string, rest: string)
    requires Plain(Line(body, true)) && Gather(o, Lines(rest)) == Gathered(rest, Occurs(rest, INCBIN), [], true)
    ensures var run := body + [NEWLINE] + rest;
            Gather(o, [Line(body, true)] + Lines(rest)) == Gathered(run, Occurs(run, INCBIN), [], true)
  {
    PlainLine(o, Line(body, true));
    GatherConcat(o, [Line(body, true)], Lines(rest));
    IncbinInRun(body, rest);
  }

  /** A run of whole plain lines is its own normal form. */
  lemma {:induction false} PlainRun(o: Options, run: string)
    requires EndsLine(run) && NoHashLine(run, 0, |run|)
    ensures Gather(o, Lines(run)) == Gathered(run, Occurs(run, INCBIN), [], true)
    decreases |run|
  {
    if run != "" {
      var k := FirstNewline(run);
      assert k < |run|;
      var body, rest := run[..k], run[k + 1..];
      AfterPlainLine(run, k);
      PlainRun(o, rest);
      PlainFirst(o, body, rest);
      assert Lines(run) == [Line(body, true)] + Lines(rest);
    }
  }
}

/** The streaming pass, one read at a time. */
module PreprocessedStream {
  import opened Common
  import opened Linemarker
  import opened PreprocessedLines
  import opened Text
  import opened TextLines

  const HASH_BATCH_BYTES := 256 * 1024

  /** The first position of c from one position up to another, or the latter. */
  method MemChr(data: string, c: char, from: nat, to: nat) returns (r: nat)
    requires from <= to <= |data|
    ensures from <= r <= to && (r < to ==> data[r] == c)
    ensures forall k :: from <= k < r ==> data[k] != c
  {
    r := from;
    while r < to && data[r] != c
      invariant from <= r <= to && forall k :: from <= k < r ==> data[k] != c
    {
      r := r + 1;
    }
  }

  /** One past the last newline at or after a position, or that position. */
  method WholeLinesEnd(data: string, from: nat) returns (r: nat)
    requires from <= |data|
    ensures from <= r <= |data| && EndsLine(data[from..r]) && NEWLINE !in data[r..]
  {
    r := |data|;
    while r > from && data[r - 1] != NEWLINE
      invariant from <= r <= |data| && NEWLINE !in data[r..]
    {
      r := r - 1;
    }
  }

  class Normalizer {
    const o: Options
    var ok: bool
    var hashed: string      // what the hasher was given
    var hashBatch: string   // what waits to be given
    var sawIncbin: bool
    var pchPaths: seq<string>
    var pending: string     // a partial trailing line
    ghost var whole: string // the whole lines read so far

    constructor (o: Options)
      ensures this.o == o && Valid() && whole == "" && pending == ""
    {
      this.o := o;
      ok, hashed, hashBatch, sawIncbin, pchPaths, pending, whole := true, "", "", false, [], "", "";
    }

    ghost function View(): Gathered
      reads this
    {
      Gathered(hashed + hashBatch, sawIncbin, pchPaths, ok)
    }

    ghost predicate Valid()
      reads this
    {
      && |hashBatch| <= HASH_BATCH_BYTES
      && EndsLine(whole) && NEWLINE !in pending
      && View() == Gather(o, Lines(whole))
    }

    method Emit(text: string)
      requires |hashBatch| <= HASH_BATCH_BYTES
      modifies this`hashed, this`hashBatch
      ensures |hashBatch| <= HASH_BATCH_BYTES
      ensures hashed + hashBatch == old(hashed + hashBatch) + text
    {
      if |hashBatch| + |text| > HASH_BATCH_BYTES {
        hashed := hashed + hashBatch;
        hashBatch := "";
        if |text| > HASH_BATCH_BYTES {
          hashed := hashed + text;
          return;
        }
      }
      hashBatch := hashBatch + text;
    }

    method FeedPlain(text: string)
      requires |hashBatch| <= HASH_BATCH_BYTES
      modifies this`hashed, this`hashBatch, this`sawIncbin
      ensures |hashBatch| <= HASH_BATCH_BYTES
      ensures View() == Join(old(View()), Gathered(text, Occurs(text, INCBIN), [], true))
    {
      Emit(text);
      if !sawIncbin && Occurs(text, INCBIN) {
        sawIncbin := true;
      }
    }

    /** A well-formed PCH pragma, without its newline. */
    method FeedPragma(line: string, ghost l: Line)
      requires l.body == line && IsPragma(o, l) && !Malformed(o, l) && |hashBatch| <= HASH_BATCH_BYTES
      modifies this`hashed, this`hashBatch, this`pchPaths
      ensures |hashBatch| <= HASH_BATCH_BYTES
      ensures View() == Join(old(View()), Gathered(NormalBody(o, l), false, PathsOf(o, l), true))
    {
      var pch := line[|PCH_PRAGMA|..|line| - 1];
      pchPaths := pchPaths + [pch];
      ghost var before := hashed + hashBatch;
      Emit(PCH_PRAGMA);
      var escaped := Escape(o.canon(pch));
      Emit(escaped);
      Emit([QUOTE]);
      assert before + PCH_PRAGMA + escaped + [QUOTE] == before + (PCH_PRAGMA + escaped + [QUOTE]);
    }

    /** A line without its newline; false for a malformed pragma. */
    method FeedBody(line: string, ghost l: Line) returns (wellFormed: bool)
      requires l.body == line && |hashBatch| <= HASH_BATCH_BYTES
      modifies this`hashed, this`hashBatch, this`sawIncbin, this`pchPaths
      ensures |hashBatch| <= HASH_BATCH_BYTES
      ensures wellFormed <==> !Malformed(o, l)
      ensures View() == if wellFormed
                        then Join(old(View()), Gathered(NormalBody(o, l), HasIncbin(l), PathsOf(o, l), true))
                        else old(View())
    {
      wellFormed := true;
      if o.collectPch && PCH_PRAGMA <= line {
        if |line| <= |PCH_PRAGMA| || line[|line| - 1] != QUOTE {
          return false;
        }
        FeedPragma(line, l);
        assert !Plain(l);
      } else if line != "" && line[0] == HASH {
        var normal := NormalizeLinemarker(line, o.canon);
        Emit(normal);
      } else {
        FeedPlain(line);
      }
    }

    /** What one line adds, whatever kind it is. */
    method FeedLine(line: string, withNewline: bool)
      requires |hashBatch| <= HASH_BATCH_BYTES
      modifies this`hashed, this`hashBatch, this`sawIncbin, this`pchPaths, this`ok
      ensures |hashBatch| <= HASH_BATCH_BYTES
      ensures View() == Join(old(View()), Gather(o, [Line(line, withNewline)]))
    {
      ghost var l := Line(line, withNewline);
      ghost var before := View();
      var wellFormed := FeedBody(line, l);
      if !wellFormed {
        ok := false;
        GatherMalformed(o, l, before);
        return;
      }
      GatherWellFormed(o, l, before);
      if withNewline {
        Emit([NEWLINE]);
      }
    }

    /** The line that completes the pending one. */
    method TakeLine(line: string)
      requires Valid() && NEWLINE !in line
      modifies this`hashed, this`hashBatch, this`sawIncbin, this`pchPaths, this`ok, this`whole
      ensures Valid() && whole == old(whole) + (line + [NEWLINE])
    {
      GatherLine(o, whole, line);
      FeedLine(line, true);
      whole := whole + (line + [NEWLINE]);
    }

    /** A line that is all in one read. */
    method TakeLineAt(data: string, from: nat, to: nat)
      requires Valid() && from <= to < |data| && data[to] == NEWLINE && NEWLINE !in data[from..to]
      modifies this`hashed, this`hashBatch, this`sawIncbin, this`pchPaths, this`ok, this`whole
      ensures Valid() && whole == old(whole) + data[from..to + 1]
    {
      var line := data[from..to];
      LineOf(data, from, to, line);
      TakeLine(line);
    }

    /** Whole lines none of which starts with a hash sign. */
    method TakeRun(data: string, from: nat, to: nat)
      requires Valid() && from < to <= |data| && NoHashLine(data, from, to) && data[to - 1] == NEWLINE
      modifies this`hashed, this`hashBatch, this`sawIncbin, this`whole
      ensures Valid() && whole == old(whole) + data[from..to]
    {
      var run := data[from..to];
      GatherRun(o, whole, data, from, to, run);
      FeedPlain(run);
      whole := whole + run;
    }

    /** The plain run before a line that starts with a hash sign, and that line. */
    method TakeHashLine(data: string, runStart: nat, h: nat, end: nat) returns (next: nat)
      requires Valid() && runStart <= h < end <= |data| && data[end - 1] == NEWLINE
      requires NoHashLine(data, runStart, h) && (h == runStart || data[h - 1] == NEWLINE)
      modifies this`hashed, this`hashBatch, this`sawIncbin, this`pchPaths, this`ok, this`whole
      ensures h < next <= end && data[next - 1] == NEWLINE
      ensures Valid() && whole == old(whole) + data[runStart..next]
    {
      var lineEnd := MemChr(data, NEWLINE, h, end);
      next := lineEnd + 1;
      if h > runStart {
        TakeRun(data, runStart, h);
        TakeLineAt(data, h, lineEnd);
        Extend(old(whole), data, runStart, h, next);
      } else {
        TakeLineAt(data, h, lineEnd);
      }
    }

    /** From one hash sign to the next; scan is at the end once there is none. */
    method ScanStep(data: string, runStart: nat, scan: nat, end: nat) returns (runStart': nat, scan': nat)
      requires Valid() && runStart <= scan < end <= |data| && data[end - 1] == NEWLINE
      requires NoHashLine(data, runStart, scan)
      modifies this`hashed, this`hashBatch, this`sawIncbin, this`pchPaths, this`ok, this`whole
      ensures runStart <= runStart' <= scan' <= end && scan < scan' && NoHashLine(data, runStart', scan')
      ensures Valid() && whole == old(whole) + data[runStart..runStart']
    {
      var h := MemChr(data, HASH, scan, end);
      if h == end {
        return runStart, end;
      }
      if h != runStart && data[h - 1] != NEWLINE {
        return runStart, h + 1;
      }
      var next := TakeHashLine(data, runStart, h, end);
      return next, next;
    }

    /** The whole lines of a read, skipping from one hash sign to the next. */
    method TakeWholeLines(data: string, lineStart: nat, end: nat)
      requires Valid() && lineStart < end <= |data| && data[end - 1] == NEWLINE
      modifies this`hashed, this`hashBatch, this`sawIncbin, this`pchPaths, this`ok, this`whole
      ensures Valid() && whole == old(whole) + data[lineStart..end]
    {
      var runStart, scan := lineStart, lineStart;
      assert old(whole) + data[lineStart..runStart] == old(whole);
      while scan < end
        invariant lineStart <= runStart <= scan <= end && Valid()
        invariant whole == old(whole) + data[lineStart..runStart]
        invariant NoHashLine(data, runStart, scan)
        decreases end - scan
      {
        ghost var from := runStart;
        runStart, scan := ScanStep(data, runStart, scan, end);
        Extend(old(whole), data, lineStart, from, runStart);
      }
      if end > runStart {
        TakeRun(data, runStart, end);
        Extend(old(whole), data, lineStart, runStart, end);
      }
    }

    /** The lines of a read from a position on, when no line is pending. */
    method TakeLines(data: string, lineStart: nat)
      requires Valid() && lineStart <= |data| && pending == ""
      modifies this`hashed, this`hashBatch, this`sawIncbin, this`pchPaths, this`ok, this`whole, this`pending
      ensures Valid() && whole + pending == old(whole) + data[lineStart..]
    {
      var end := WholeLinesEnd(data, lineStart);
      if end > lineStart {
        TakeWholeLines(data, lineStart, end);
      }
      if end < |data| {
        pending := data[end..];
      }
      Extend(old(whole), data, lineStart, end, |data|);
      assert data[end..|data|] == data[end..] && data[lineStart..|data|] == data[lineStart..];
    }

    method CompletePending(data: string, newline: nat)
      requires Valid() && newline < |data| && data[newline] == NEWLINE && NEWLINE !in data[..newline]
      modifies this`hashed, this`hashBatch, this`sawIncbin, this`pchPaths, this`ok, this`whole, this`pending
      ensures Valid() && pending == "" && whole == old(whole + pending) + data[..newline + 1]
    {
      var line := pending + data[..newline];
      pending := "";
      TakeLine(line);
      Completed(old(whole), old(pending), data, newline);
    }

    method TakeChunk(data: string)
      requires Valid()
      modifies this`hashed, this`hashBatch, this`sawIncbin, this`pchPaths, this`ok, this`whole, this`pending
      ensures Valid() && whole + pending == old(whole + pending) + data
    {
      if pending != "" {
        var newline := MemChr(data, NEWLINE, 0, |data|);
        if newline == |data| {
          Regroup(whole, pending, data);
          pending := pending + data;
          return;
        }
        CompletePending(data, newline);
        TakeLines(data, newline + 1);
        CutAt(old(whole + pending), data, newline + 1);
      } else {
        assert whole + pending == whole && data[0..] == data;
        TakeLines(data, 0);
      }
    }

    /** The last, unended line, and what is left of the batch. */
    method Finish(failed: bool)
      requires if failed then !ok else Valid()
      modifies this
      ensures ok <==> !failed && AllWellFormed(o, Lines(old(whole + pending)))
      ensures ok ==> Gathered(hashed, sawIncbin, pchPaths, true) == Gather(o, Lines(old(whole + pending)))
    {
      if !failed && pending != "" {
        GatherLast(o, whole, pending);
      } else {
        assert pending == "" ==> whole + pending == whole;
      }
      if ok && pending != "" {
        FeedLine(pending, false);
      }
      if hashBatch != "" {
        hashed := hashed + hashBatch;
        hashBatch := "";
      }
    }
  }

  /** A file as it is read, one non-empty piece after another, and whether reading then failed. */
  datatype Stream = Stream(chunks: seq<string>, failed: bool)

  function Content(chunks: seq<string>): string {
    Flat(chunk => chunk, chunks)
  }

  /**
   For every file and every way reads slice it, a successful run gives the
   hasher each line's normal form in order, reports the directive exactly when
   a plain line has it, and lists the pragma paths in order. It succeeds
   exactly when the file could be read and no pragma was malformed.
   */
  method HashNormalizedPreprocessedOutput(o: Options, file: Option<Stream>)
    returns (ok: bool, hashed: string, sawIncbin: bool, pchPaths: seq<string>)
    ensures ok <==> file.Some? && !file.value.failed && AllWellFormed(o, Lines(Content(file.value.chunks)))
    ensures ok ==> hashed == NormalText(o, Lines(Content(file.value.chunks)))
    ensures ok ==> (sawIncbin <==> AnyIncbin(Lines(Content(file.value.chunks))))
    ensures ok ==> pchPaths == PragmaPaths(o, Lines(Content(file.value.chunks)))
  {
    if file.None? {
      return false, "", false, [];
    }
    var Stream(chunks, failed) := file.value;
    var n := new Normalizer(o);
    for i := 0 to |chunks|
      invariant n.Valid() && fresh(n) && n.o == o && n.whole + n.pending == Content(chunks[..i])
    {
      assert chunks[..i + 1][..i] == chunks[..i];
      n.TakeChunk(chunks[i]);
    }
    assert chunks[..|chunks|] == chunks;
    if failed {
      n.ok := false;
    }
    n.Finish(failed);
    ok, hashed, sawIncbin, pchPaths := n.ok, n.hashed, n.sawIncbin, n.pchPaths;
  }

  lemma Completed(base: string, pending: string, data: string, newline: nat)
    requires newline < |data| && data[newline] == NEWLINE
    ensures base + (pending + data[..newline] + [NEWLINE]) == base + pending + data[..newline + 1]
  {
    assert data[..newline] + [NEWLINE] == data[..newline + 1];
    assert pending + data[..newline] + [NEWLINE] == pending + data[..newline + 1];
  }

  lemma CutAt(base: string, data: string, at: nat)
    requires at <= |data|
    ensures base + data[..at] + data[at..] == base + data
  {
    assert data[..at] + data[at..] == data;
  }

  lemma Extend(base: string, data: string, a: nat, b: nat, c: nat)
    requires a <= b <= c <= |data|
    ensures base + data[a..b] + data[b..c] == base + data[a..c]
  {
    assert data[a..b] + data[b..c] == data[a..c];
  }

  lemma GatherMalformed(o: Options, line: Line, before: Gathered)
    requires Malformed(o, line)
    ensures Join(before, Gather(o, [line])) == before.(ok := false)
  {
    GatherOne(o, line);
    assert PCH_PRAGMA[0] == HASH;
  }

  lemma GatherWellFormed(o: Options, line: Line, before: Gathered)
    requires !Malformed(o, line)
    ensures var body := Join(before, Gathered(NormalBody(o, line), HasIncbin(line), PathsOf(o, line), true));
            Join(before, Gather(o, [line])) == if line.ended then body.(fed := body.fed + [NEWLINE]) else body
  {
    GatherOne(o, line);
    var body := NormalBody(o, line);
    assert before.fed + (body + [NEWLINE]) == before.fed + body + [NEWLINE];
  }

  lemma LineOf(data: string, from: nat, to: nat, line: string)
    requires from <= to < |data| && data[to] == NEWLINE && line == data[from..to]
    ensures line + [NEWLINE] == data[from..to + 1]
  {
  }

  lemma GatherLine(o: Options, whole: string, line: string)
    requires EndsLine(whole) && NEWLINE !in line
    ensures Gather(o, Lines(whole + (line + [NEWLINE]))) == Join(Gather(o, Lines(whole)), Gather(o, [Line(line, true)]))
  {
    LinesConcat(whole, line + [NEWLINE]);
    OneLine(line);
    GatherConcat(o, Lines(whole), [Line(line, true)]);
  }

  lemma GatherLast(o: Options, whole: string, line: string)
    requires EndsLine(whole) && NEWLINE !in line && line != ""
    ensures Gather(o, Lines(whole + line)) == Join(Gather(o, Lines(whole)), Gather(o, [Line(line, false)]))
  {
    LinesConcat(whole, line);
    OneLine(line);
    GatherConcat(o, Lines(whole), [Line(line, false)]);
  }

  lemma RunOfPlainLines(data: string, from: nat, to: nat, run: string)
    requires from < to <= |data| && NoHashLine(data, from, to) && data[to - 1] == NEWLINE && run == data[from..to]
    ensures NoHashLine(run, 0, |run|) && EndsLine(run)
  {
    assert run[|run| - 1] == data[to - 1];
    forall k | 0 <= k < |run| && LineStart(run, 0, k) ensures run[k] != HASH {
      assert LineStart(data, from, from + k);
    }
  }

  lemma GatherRun(o: Options, whole: string, data: string, from: nat, to: nat, run: string)
    requires EndsLine(whole) && from < to <= |data| && NoHashLine(data, from, to) && data[to - 1] == NEWLINE
    requires run == data[from..to]
    ensures EndsLine(whole + run)
    ensures Gather(o, Lines(whole + run)) == Join(Gather(o, Lines(whole)), Gathered(run, Occurs(run, INCBIN), [], true))
  {
    RunOfPlainLines(data, from, to, run);
    LinesConcat(whole, run);
    PlainRun(o, run);
    GatherConcat(o, Lines(whole), Lines(run));
  }
}
