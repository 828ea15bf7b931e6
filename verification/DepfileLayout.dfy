/**
 What the grammar of dependency files reads, said without it: rules laid out
 with any blanks, line continuations and blank lines, and paths spelled with
 any of their escapes. A text is read exactly when it is such a layout.
 */
module DepfileLayout {
  import opened Common
  import opened Depfile

  // ---- gaps ------------------------------------------------------------------------

  /** A blank, or a line that goes on after its end. */
  datatype Piece = Space1(c: char) | Joint(eol: string)

  type Gap = seq<Piece>

  predicate IsEol(e: string) { e == "\n" || e == "\r" || e == "\r\n" }

  function PieceText(p: Piece): string {
    match p
    case Space1(c) => [c]
    case Joint(e) => [BACKSLASH] + e
  }

  function GapText(g: Gap): string { if g == [] then "" else PieceText(g[0]) + GapText(g[1..]) }

  predicate StartsWithLf(s: string) { s != "" && s[0] == '\n' }

  /** A CR that an LF follows is not an end of line of its own. */
  predicate EolStands(e: string, rest: string) { IsEol(e) && (e == "\r" ==> !StartsWithLf(rest)) }

  predicate PieceStands(p: Piece, rest: string) {
    match p
    case Space1(c) => Blank(c)
    case Joint(e) => EolStands(e, rest)
  }

  predicate GapStands(g: Gap, rest: string) {
    g == [] || (PieceStands(g[0], GapText(g[1..]) + rest) && GapStands(g[1..], rest))
  }

  /** Nothing there is passed over. */
  predicate Solid(s: string) { Skip(s) == s }

  lemma EolReads(e: string, rest: string)
    requires EolStands(e, rest)
    ensures Eol(e + rest) == |e| && (e + rest)[|e|..] == rest
  {
  }

  lemma PieceSkipped(p: Piece, rest: string)
    requires PieceStands(p, rest)
    ensures Skip(PieceText(p) + rest) == Skip(rest)
  {
    var s := PieceText(p) + rest;
    match p
    case Space1(c) => assert s[1..] == rest;
    case Joint(e) =>
      EolReads(e, rest);
      assert s[1..] == e + rest;
      assert s[1 + |e|..] == rest;
  }

  lemma GapCons(p: Piece, g: Gap, rest: string)
    ensures GapText([p] + g) + rest == PieceText(p) + (GapText(g) + rest)
    ensures GapStands([p] + g, rest) <==> PieceStands(p, GapText(g) + rest) && GapStands(g, rest)
  {
    assert ([p] + g)[1..] == g;
    Regroup(PieceText(p), GapText(g), rest);
  }

  lemma {:induction false} GapSkipped(g: Gap, rest: string)
    requires GapStands(g, rest)
    ensures Skip(GapText(g) + rest) == Skip(rest)
  {
    if g == [] {
      assert GapText(g) + rest == rest;
    } else {
      var p, more := g[0], g[1..];
      assert g == [p] + more;
      GapCons(p, more, rest);
      GapSkipped(more, rest);
      PieceSkipped(p, GapText(more) + rest);
    }
  }

  lemma {:induction false} SkippedIsSolid(s: string)
    ensures Solid(Skip(s))
  {
    if s != "" && Blank(s[0]) {
      SkippedIsSolid(s[1..]);
    } else if s != "" && s[0] == BACKSLASH && Eol(s[1..]) > 0 {
      SkippedIsSolid(s[1 + Eol(s[1..])..]);
    }
  }

  lemma FirstPiece(s: string) returns (p: Piece, rest: string)
    requires !Solid(s)
    ensures s == PieceText(p) + rest && PieceStands(p, rest) && Skip(s) == Skip(rest)
  {
    if Blank(s[0]) {
      p, rest := Space1(s[0]), s[1..];
    } else {
      var n := Eol(s[1..]);
      p, rest := Joint(s[1..1 + n]), s[1 + n..];
      EolIs(s[1..]);
      assert s[1..][..n] == s[1..1 + n] && s[1..][n..] == rest;
    }
  }

  /** What is passed over is a gap. */
  lemma {:induction false} SkippedIsGap(s: string) returns (g: Gap)
    ensures s == GapText(g) + Skip(s) && GapStands(g, Skip(s))
    decreases |s|
  {
    if Solid(s) {
      g := [];
    } else {
      var p, rest := FirstPiece(s);
      var more := SkippedIsGap(rest);
      g := [p] + more;
      GapCons(p, more, Skip(s));
    }
  }

  lemma EolIs(s: string)
    requires Eol(s) > 0
    ensures EolStands(s[..Eol(s)], s[Eol(s)..])
  {
  }

  // ---- paths -----------------------------------------------------------------------

  /** One character of a path: as it is, behind a backslash, or a dollar written twice. */
  datatype Glyph = Plain(c: char) | Quoted(c: char) | Dollars

  function GlyphText(g: Glyph): string {
    match g
    case Plain(c) => [c]
    case Quoted(c) => [BACKSLASH, c]
    case Dollars => "$$"
  }

  function GlyphChar(g: Glyph): char {
    match g
    case Plain(c) => c
    case Quoted(c) => c
    case Dollars => '$'
  }

  function Spelling(gs: seq<Glyph>): string { if gs == [] then "" else GlyphText(gs[0]) + Spelling(gs[1..]) }

  function Spelt(gs: seq<Glyph>): (path: string)
    ensures |path| == |gs|
  {
    if gs == [] then "" else [GlyphChar(gs[0])] + Spelt(gs[1..])
  }

  /** A dollar that a dollar follows is not one of its own. */
  predicate GlyphStands(g: Glyph, rest: string) {
    match g
    case Plain(c) => !Space(c) && c != ':' && c != BACKSLASH && (c == '$' ==> rest == "" || rest[0] != '$')
    case Quoted(c) => Escapable(c)
    case Dollars => true
  }

  predicate GlyphsStand(gs: seq<Glyph>, rest: string) {
    gs == [] || (GlyphStands(gs[0], Spelling(gs[1..]) + rest) && GlyphsStand(gs[1..], rest))
  }

  lemma SpellingCons(g: Glyph, gs: seq<Glyph>, rest: string)
    ensures Spelling([g] + gs) + rest == GlyphText(g) + (Spelling(gs) + rest)
    ensures GlyphsStand([g] + gs, rest) <==> GlyphStands(g, Spelling(gs) + rest) && GlyphsStand(gs, rest)
    ensures Spelt([g] + gs) == [GlyphChar(g)] + Spelt(gs)
  {
    assert ([g] + gs)[1..] == gs;
    Regroup(GlyphText(g), Spelling(gs), rest);
  }

  lemma GlyphReads(g: Glyph, rest: string)
    requires GlyphStands(g, rest)
    ensures PathChar(GlyphText(g) + rest) == Parsed(GlyphChar(g), rest)
  {
    var s := GlyphText(g) + rest;
    assert s[|GlyphText(g)|..] == rest;
  }

  lemma {:induction false} GlyphsRead(gs: seq<Glyph>, rest: string)
    requires GlyphsStand(gs, rest) && PathChar(rest).Fail?
    ensures PathChars(Spelling(gs) + rest) == (Spelt(gs), rest)
  {
    if gs == [] {
      assert Spelling(gs) + rest == rest;
    } else {
      var g, more := gs[0], gs[1..];
      assert gs == [g] + more;
      SpellingCons(g, more, rest);
      GlyphsRead(more, rest);
      GlyphReads(g, Spelling(more) + rest);
    }
  }

  lemma GlyphIsSolid(gs: seq<Glyph>, rest: string)
    requires gs != [] && GlyphsStand(gs, rest)
    ensures Solid(Spelling(gs) + rest)
  {
    var s, first := Spelling(gs) + rest, GlyphText(gs[0]);
    assert s[0] == first[0];
    if gs[0].Quoted? {
      assert s[1..][0] == gs[0].c;
    }
  }

  lemma GlyphOf(s: string) returns (g: Glyph)
    requires PathChar(s).Parsed?
    ensures s == GlyphText(g) + PathChar(s).rest
    ensures GlyphChar(g) == PathChar(s).value && GlyphStands(g, PathChar(s).rest)
  {
    if |s| > 1 && s[0] == BACKSLASH && Escapable(s[1]) {
      g := Quoted(s[1]);
    } else if |s| > 1 && s[0] == '$' && s[1] == '$' {
      g := Dollars;
    } else {
      g := Plain(s[0]);
    }
  }

  /** What a path is read from is a spelling of it. */
  lemma {:induction false} PathIsSpelt(s: string) returns (gs: seq<Glyph>)
    ensures s == Spelling(gs) + PathChars(s).1 && Spelt(gs) == PathChars(s).0
    ensures GlyphsStand(gs, PathChars(s).1) && PathChar(PathChars(s).1).Fail?
    decreases |s|
  {
    gs := [];
    if PathChar(s).Parsed? {
      var g := GlyphOf(s);
      var more := PathIsSpelt(PathChar(s).rest);
      gs := [g] + more;
      SpellingCons(g, more, PathChars(s).1);
    }
  }

  // ---- paths one after another -----------------------------------------------------

  datatype Laid = Laid(gap: Gap, path: seq<Glyph>)

  function LaidText(t: Laid): string { GapText(t.gap) + Spelling(t.path) }

  function LaidTexts(ts: seq<Laid>): string { if ts == [] then "" else LaidText(ts[0]) + LaidTexts(ts[1..]) }

  function PathsOf(ts: seq<Laid>): (paths: seq<string>)
    ensures |paths| == |ts|
  {
    if ts == [] then [] else [Spelt(ts[0].path)] + PathsOf(ts[1..])
  }

  predicate LaidStands(t: Laid, rest: string) {
    t.path != [] && GapStands(t.gap, Spelling(t.path) + rest) && GlyphsStand(t.path, rest)
  }

  /** Between two paths there is a gap. */
  predicate AllStand(ts: seq<Laid>, rest: string) {
    ts == [] || (&& LaidStands(ts[0], LaidTexts(ts[1..]) + rest) && AllStand(ts[1..], rest)
                 && (|ts| > 1 ==> ts[1].gap != []))
  }

  /** Where no path starts, none goes on. */
  lemma NoneGoesOn(rest: string)
    requires Token(rest).Fail?
    ensures PathChar(rest).Fail?
  {
    if PathChar(rest).Parsed? {
      var g := GlyphOf(rest);
      assert Solid(rest);
    }
  }

  lemma LaidCons(t: Laid, ts: seq<Laid>, rest: string)
    ensures LaidTexts([t] + ts) + rest == LaidText(t) + (LaidTexts(ts) + rest)
    ensures PathsOf([t] + ts) == [Spelt(t.path)] + PathsOf(ts)
    ensures AllStand([t] + ts, rest) <==>
            LaidStands(t, LaidTexts(ts) + rest) && AllStand(ts, rest) && (ts != [] ==> ts[0].gap != [])
  {
    assert ([t] + ts)[1..] == ts;
    Regroup(LaidText(t), LaidTexts(ts), rest);
  }

  lemma GapEndsPath(g: Gap, rest: string)
    requires g != [] && GapStands(g, rest)
    ensures PathChar(GapText(g) + rest).Fail?
  {
    var p, more := g[0], g[1..];
    assert g == [p] + more;
    GapCons(p, more, rest);
    PieceEndsPath(p, GapText(more) + rest);
  }

  lemma PieceEndsPath(p: Piece, rest: string)
    requires PieceStands(p, rest)
    ensures PathChar(PieceText(p) + rest).Fail?
  {
    var s := PieceText(p) + rest;
    assert s[0] == PieceText(p)[0];
    if p.Joint? {
      assert s[1] == p.eol[0];
    }
  }

  lemma LaidReads(t: Laid, rest: string)
    requires LaidStands(t, rest) && PathChar(rest).Fail?
    ensures Token(LaidText(t) + rest) == Parsed(Spelt(t.path), rest)
  {
    Regroup(GapText(t.gap), Spelling(t.path), rest);
    GapSkipped(t.gap, Spelling(t.path) + rest);
    GlyphIsSolid(t.path, rest);
    GlyphsRead(t.path, rest);
  }

  lemma PathEnds(ts: seq<Laid>, rest: string)
    requires AllStand(ts, rest) && (if ts == [] then PathChar(rest).Fail? else ts[0].gap != [])
    ensures PathChar(LaidTexts(ts) + rest).Fail?
  {
    if ts == [] {
      assert LaidTexts(ts) + rest == rest;
    } else {
      var t, tail := ts[0], LaidTexts(ts[1..]) + rest;
      assert ts == [t] + ts[1..];
      LaidCons(t, ts[1..], rest);
      Regroup(GapText(t.gap), Spelling(t.path), tail);
      GapEndsPath(t.gap, Spelling(t.path) + tail);
    }
  }

  lemma {:induction false} AllRead(ts: seq<Laid>, rest: string)
    requires AllStand(ts, rest) && Token(rest).Fail?
    ensures Tokens(LaidTexts(ts) + rest) == (PathsOf(ts), rest)
  {
    NoneGoesOn(rest);
    if ts == [] {
      assert LaidTexts(ts) + rest == rest;
    } else {
      var t, more := ts[0], ts[1..];
      assert ts == [t] + more;
      LaidCons(t, more, rest);
      PathEnds(more, rest);
      LaidReads(t, LaidTexts(more) + rest);
      AllRead(more, rest);
    }
  }

  lemma TokenIsLaid(s: string) returns (t: Laid)
    requires Token(s).Parsed?
    ensures s == LaidText(t) + Token(s).rest && Spelt(t.path) == Token(s).value && LaidStands(t, Token(s).rest)
    ensures PathChar(Token(s).rest).Fail?
    ensures PathChar(s).Fail? ==> t.gap != []
  {
    var g := SkippedIsGap(s);
    var gs := PathIsSpelt(Skip(s));
    t := Laid(g, gs);
    Regroup(GapText(g), Spelling(gs), Token(s).rest);
    assert g == [] ==> GapText(g) + Skip(s) == Skip(s);
  }

  lemma {:induction false} TokensAreLaid(s: string) returns (ts: seq<Laid>)
    ensures s == LaidTexts(ts) + Tokens(s).1 && PathsOf(ts) == Tokens(s).0 && AllStand(ts, Tokens(s).1)
    ensures Token(Tokens(s).1).Fail?
    ensures PathChar(s).Fail? && ts != [] ==> ts[0].gap != []
    decreases |s|
  {
    ts := [];
    if Token(s).Parsed? {
      var t := TokenIsLaid(s);
      var more := TokensAreLaid(Token(s).rest);
      ts := [t] + more;
      LaidCons(t, more, Tokens(s).1);
    }
  }

  // ---- rules -----------------------------------------------------------------------

  datatype LaidRule = LaidRule(targets: seq<Laid>, colon: Gap, prerequisites: seq<Laid>)

  /** The text from the colon on. */
  function AfterTargets(r: LaidRule): string { GapText(r.colon) + (":" + LaidTexts(r.prerequisites)) }

  function LaidRuleText(r: LaidRule): string { LaidTexts(r.targets) + AfterTargets(r) }

  function RuleOf(r: LaidRule): Rule { Rule(PathsOf(r.targets), PathsOf(r.prerequisites)) }

  predicate RuleStands(r: LaidRule, rest: string) {
    && r.targets != [] && AllStand(r.targets, AfterTargets(r) + rest)
    && GapStands(r.colon, ":" + LaidTexts(r.prerequisites) + rest)
    && AllStand(r.prerequisites, rest)
  }

  lemma ColonText(r: LaidRule, rest: string)
    ensures AfterTargets(r) + rest == GapText(r.colon) + (":" + LaidTexts(r.prerequisites) + rest)
    ensures (":" + LaidTexts(r.prerequisites) + rest)[1..] == LaidTexts(r.prerequisites) + rest
    ensures LaidRuleText(r) + rest == LaidTexts(r.targets) + (AfterTargets(r) + rest)
  {
    Regroup(GapText(r.colon), ":" + LaidTexts(r.prerequisites), rest);
    Regroup(LaidTexts(r.targets), AfterTargets(r), rest);
  }

  lemma ColonEnds(g: Gap, rest: string)
    requires rest != "" && rest[0] == ':' && GapStands(g, rest)
    ensures Token(GapText(g) + rest).Fail? && Skip(GapText(g) + rest) == rest
  {
    GapSkipped(g, rest);
  }

  lemma RuleReads(r: LaidRule, rest: string)
    requires RuleStands(r, rest) && Token(rest).Fail?
    ensures ParseRule(LaidRuleText(r) + rest) == Parsed(RuleOf(r), rest)
  {
    var colon := ":" + LaidTexts(r.prerequisites) + rest;
    ColonText(r, rest);
    ColonEnds(r.colon, colon);
    AllRead(r.targets, AfterTargets(r) + rest);
    AllRead(r.prerequisites, rest);
  }

  lemma RuleIsLaid(s: string) returns (r: LaidRule)
    requires ParseRule(s).Parsed?
    ensures s == LaidRuleText(r) + ParseRule(s).rest && RuleOf(r) == ParseRule(s).value
    ensures RuleStands(r, ParseRule(s).rest) && Token(ParseRule(s).rest).Fail?
  {
    var ts := TokensAreLaid(s);
    var after := Tokens(s).1;
    var g := SkippedIsGap(after);
    var colon := Skip(after);
    var ps := TokensAreLaid(colon[1..]);
    var rest := ParseRule(s).rest;
    r := LaidRule(ts, g, ps);
    RuleTextIs(r, rest, s, after, colon);
  }

  lemma RuleTextIs(r: LaidRule, rest: string, s: string, after: string, colon: string)
    requires s == LaidTexts(r.targets) + after && after == GapText(r.colon) + colon
    requires colon != "" && colon[0] == ':' && colon[1..] == LaidTexts(r.prerequisites) + rest
    ensures s == LaidRuleText(r) + rest && after == AfterTargets(r) + rest
    ensures colon == ":" + LaidTexts(r.prerequisites) + rest
  {
    assert colon == ":" + colon[1..];
    Regroup(":", LaidTexts(r.prerequisites), rest);
    ColonText(r, rest);
  }

  // ---- files -----------------------------------------------------------------------

  /** An end of line, after a gap. */
  datatype Break = Break(gap: Gap, eol: string)

  function BreakText(b: Break): string { GapText(b.gap) + b.eol }

  function BreaksText(bs: seq<Break>): string { if bs == [] then "" else BreakText(bs[0]) + BreaksText(bs[1..]) }

  predicate BreaksStand(bs: seq<Break>, rest: string) {
    bs == [] || (var after := BreaksText(bs[1..]) + rest;
                 && GapStands(bs[0].gap, bs[0].eol + after) && EolStands(bs[0].eol, after)
                 && BreaksStand(bs[1..], rest))
  }

  lemma BreaksCons(b: Break, bs: seq<Break>, rest: string)
    ensures BreaksText([b] + bs) + rest == GapText(b.gap) + (b.eol + (BreaksText(bs) + rest))
    ensures BreaksStand([b] + bs, rest) <==>
            && GapStands(b.gap, b.eol + (BreaksText(bs) + rest)) && EolStands(b.eol, BreaksText(bs) + rest)
            && BreaksStand(bs, rest)
  {
    assert ([b] + bs)[1..] == bs;
    Regroup(BreakText(b), BreaksText(bs), rest);
    Regroup(GapText(b.gap), b.eol, BreaksText(bs) + rest);
  }

  lemma EolIsSolid(e: string, rest: string)
    requires EolStands(e, rest)
    ensures Solid(e + rest) && Eol(e + rest) == |e| && (e + rest)[|e|..] == rest
  {
    EolReads(e, rest);
  }

  lemma {:induction false} BreaksPassed(bs: seq<Break>, rest: string)
    requires BreaksStand(bs, rest) && Eol(Skip(rest)) == 0
    ensures Eols(BreaksText(bs) + rest) == Skip(rest)
    ensures bs != [] ==> Eol(Skip(BreaksText(bs) + rest)) > 0
  {
    if bs == [] {
      assert BreaksText(bs) + rest == rest;
    } else {
      var b, more := bs[0], bs[1..];
      var after := BreaksText(more) + rest;
      assert bs == [b] + more;
      BreaksCons(b, more, rest);
      GapSkipped(b.gap, b.eol + after);
      EolIsSolid(b.eol, after);
      BreaksPassed(more, rest);
    }
  }

  /** A rule and the ends of line behind it. */
  datatype Row = Row(rule: LaidRule, breaks: seq<Break>)

  /** Blank lines, the rules, and a last line with nothing on it. */
  datatype Layout = Layout(lead: seq<Break>, rows: seq<Row>, tail: Gap)

  function RowsText(rows: seq<Row>, tail: Gap): string {
    if rows == [] then GapText(tail)
    else LaidRuleText(rows[0].rule) + (BreaksText(rows[0].breaks) + RowsText(rows[1..], tail))
  }

  function LayoutText(f: Layout): string { BreaksText(f.lead) + RowsText(f.rows, f.tail) }

  function RulesIn(rows: seq<Row>): seq<Rule> {
    if rows == [] then [] else [RuleOf(rows[0].rule)] + RulesIn(rows[1..])
  }

  /** Rules are on lines of their own. */
  predicate RowsStand(rows: seq<Row>, tail: Gap) {
    if rows == [] then GapStands(tail, "")
    else
      var after := RowsText(rows[1..], tail);
      && RuleStands(rows[0].rule, BreaksText(rows[0].breaks) + after)
      && BreaksStand(rows[0].breaks, after) && RowsStand(rows[1..], tail)
      && (|rows| > 1 ==> rows[0].breaks != [])
  }

  predicate Legible(f: Layout) { RowsStand(f.rows, f.tail) && BreaksStand(f.lead, RowsText(f.rows, f.tail)) }

  lemma TailIsNothing(tail: Gap)
    requires GapStands(tail, "")
    ensures Skip(GapText(tail)) == "" && Token(GapText(tail)).Fail? && ParseRule("").Fail?
  {
    GapSkipped(tail, "");
    assert GapText(tail) + "" == GapText(tail);
  }

  /** Passing over what stands before a rule does not change what is read. */
  lemma SkipFirst(s: string)
    ensures ParseRule(Skip(s)) == ParseRule(s)
  {
    SkippedIsSolid(s);
  }

  lemma RuleStartsLine(s: string)
    requires Token(s).Parsed?
    ensures Eol(Skip(s)) == 0
  {
    var g := GlyphOf(Skip(s));
  }

  lemma {:induction false} RowsRead(rows: seq<Row>, tail: Gap)
    requires RowsStand(rows, tail)
    ensures Eol(Skip(RowsText(rows, tail))) == 0
    ensures rows != [] ==>
              var after := BreaksText(rows[0].breaks) + RowsText(rows[1..], tail);
              ParseRule(RowsText(rows, tail)) == Parsed(RuleOf(rows[0].rule), after) && Token(after).Fail?
  {
    if rows == [] {
      TailIsNothing(tail);
    } else {
      var r, bs, next := rows[0].rule, rows[0].breaks, RowsText(rows[1..], tail);
      RowsRead(rows[1..], tail);
      BreakEndsRule(bs, rows[1..], tail);
      RuleReads(r, BreaksText(bs) + next);
      RuleStartsLine(RowsText(rows, tail));
    }
  }

  lemma EolEndsRule(s: string)
    requires Eol(Skip(s)) > 0
    ensures Token(s).Fail?
  {
  }

  lemma BreakEndsRule(bs: seq<Break>, rows: seq<Row>, tail: Gap)
    requires BreaksStand(bs, RowsText(rows, tail)) && RowsStand(rows, tail) && (rows != [] ==> bs != [])
    requires Eol(Skip(RowsText(rows, tail))) == 0
    ensures Token(BreaksText(bs) + RowsText(rows, tail)).Fail?
  {
    var rest := RowsText(rows, tail);
    BreaksPassed(bs, rest);
    if bs == [] {
      TailIsNothing(tail);
      assert BreaksText(bs) + rest == rest;
    } else {
      EolEndsRule(BreaksText(bs) + rest);
    }
  }

  /** What is left when all rules are read is only ends of line and blanks. */
  lemma {:induction false} MoreRowsRead(bs: seq<Break>, rows: seq<Row>, tail: Gap)
    requires BreaksStand(bs, RowsText(rows, tail)) && RowsStand(rows, tail) && (rows != [] ==> bs != [])
    ensures var (rules, after) := MoreRules(BreaksText(bs) + RowsText(rows, tail));
            rules == RulesIn(rows) && Skip(Eols(after)) == ""
    decreases rows
  {
    var rest := RowsText(rows, tail);
    var s := BreaksText(bs) + rest;
    RowsRead(rows, tail);
    BreaksPassed(bs, rest);
    SkipFirst(rest);
    if rows == [] {
      TailIsNothing(tail);
      NoMoreRules(s);
    } else {
      MoreRowsRead(rows[0].breaks, rows[1..], tail);
      OneMoreRule(s, RuleOf(rows[0].rule), BreaksText(rows[0].breaks) + RowsText(rows[1..], tail));
    }
  }

  lemma NoMoreRules(s: string)
    requires ParseRule(Eols(s)).Fail?
    ensures MoreRules(s) == ([], s)
  {
  }

  lemma OneMoreRule(s: string, rule: Rule, after: string)
    requires Eol(Skip(s)) > 0 && ParseRule(Eols(s)) == Parsed(rule, after)
    ensures MoreRules(s) == ([rule] + MoreRules(after).0, MoreRules(after).1)
  {
  }

  /** A layout is read, and its rules are what is read. */
  lemma LayoutReads(f: Layout)
    requires Legible(f)
    ensures ParseRules(LayoutText(f)) == Some(RulesIn(f.rows))
  {
    var rest := RowsText(f.rows, f.tail);
    RowsRead(f.rows, f.tail);
    BreaksPassed(f.lead, rest);
    SkipFirst(rest);
    if f.rows == [] {
      TailIsNothing(f.tail);
    } else {
      MoreRowsRead(f.rows[0].breaks, f.rows[1..], f.tail);
    }
  }

  // ---- and only layouts are read ---------------------------------------------------

  /** What stands before a rule is ends of line and a gap. */
  lemma {:induction false} EolsAreBreaks(s: string) returns (bs: seq<Break>, g: Gap)
    ensures s == BreaksText(bs) + (GapText(g) + Eols(s)) && BreaksStand(bs, GapText(g) + Eols(s))
    ensures GapStands(g, Eols(s)) && Solid(Eols(s)) && Eol(Eols(s)) == 0 && (Eol(Skip(s)) > 0 ==> bs != [])
    decreases |s|
  {
    var gap := SkippedIsGap(s);
    var t := Skip(s);
    SkippedIsSolid(s);
    if Eol(t) == 0 {
      bs, g := [], gap;
      assert BreaksText(bs) + s == s;
    } else {
      var more;
      more, g := EolsAreBreaks(t[Eol(t)..]);
      bs := [Break(gap, t[..Eol(t)])] + more;
      BreakFirst(gap, t, more, GapText(g) + Eols(s));
    }
  }

  lemma BreakFirst(gap: Gap, t: string, bs: seq<Break>, rest: string)
    requires Eol(t) > 0 && GapStands(gap, t) && BreaksStand(bs, rest) && t[Eol(t)..] == BreaksText(bs) + rest
    ensures GapText(gap) + t == BreaksText([Break(gap, t[..Eol(t)])] + bs) + rest
    ensures BreaksStand([Break(gap, t[..Eol(t)])] + bs, rest)
  {
    EolIs(t);
    assert t == t[..Eol(t)] + t[Eol(t)..];
    BreaksCons(Break(gap, t[..Eol(t)]), bs, rest);
  }

  /** A gap before a rule is the gap of its first target. */
  function Shifted(r: LaidRule, g: Gap): LaidRule
    requires r.targets != []
  {
    r.(targets := [Laid(g + r.targets[0].gap, r.targets[0].path)] + r.targets[1..])
  }

  lemma {:induction false} GapTextsJoin(g: Gap, h: Gap)
    ensures GapText(g + h) == GapText(g) + GapText(h)
  {
    if g == [] {
      assert g + h == h;
    } else {
      GapTextsJoin(g[1..], h);
      assert (g + h)[1..] == g[1..] + h;
      Regroup(PieceText(g[0]), GapText(g[1..]), GapText(h));
    }
  }

  lemma {:induction false} GapsJoin(g: Gap, h: Gap, rest: string)
    requires GapStands(g, GapText(h) + rest) && GapStands(h, rest)
    ensures GapStands(g + h, rest)
  {
    if g == [] {
      assert g + h == h;
    } else {
      var p, more := g[0], g[1..];
      assert g == [p] + more && g + h == [p] + (more + h);
      GapCons(p, more, GapText(h) + rest);
      GapCons(p, more + h, rest);
      GapsJoin(more, h, rest);
      GapTextsJoin(more, h);
      Regroup(GapText(more), GapText(h), rest);
    }
  }

  lemma ShiftedStands(r: LaidRule, g: Gap, rest: string)
    requires RuleStands(r, rest) && GapStands(g, LaidRuleText(r) + rest)
    ensures LaidRuleText(Shifted(r, g)) + rest == GapText(g) + (LaidRuleText(r) + rest)
    ensures RuleStands(Shifted(r, g), rest) && RuleOf(Shifted(r, g)) == RuleOf(r)
  {
    var t, more := r.targets[0], r.targets[1..];
    var t' := Laid(g + t.gap, t.path);
    var tail := AfterTargets(r) + rest;
    assert r.targets == [t] + more;
    ColonText(r, rest);
    ColonText(Shifted(r, g), rest);
    LaidCons(t, more, tail);
    LaidCons(t', more, tail);
    var next := LaidTexts(more) + tail;
    Regroup(GapText(t.gap), Spelling(t.path), next);
    GapsJoin(g, t.gap, Spelling(t.path) + next);
    GapTextsJoin(g, t.gap);
    Regroup(GapText(g), GapText(t.gap), Spelling(t.path));
    Regroup(GapText(g), LaidText(t), next);
  }

  lemma RowFirst(r: LaidRule, g: Gap, bs: seq<Break>, others: seq<Row>, tail: Gap)
    requires var rest := BreaksText(bs) + RowsText(others, tail);
             && RuleStands(r, rest) && GapStands(g, LaidRuleText(r) + rest)
             && BreaksStand(bs, RowsText(others, tail)) && RowsStand(others, tail) && (others != [] ==> bs != [])
    ensures var rest, rows := BreaksText(bs) + RowsText(others, tail), [Row(Shifted(r, g), bs)] + others;
            && RowsText(rows, tail) == GapText(g) + (LaidRuleText(r) + rest) && RowsStand(rows, tail)
            && RulesIn(rows) == [RuleOf(r)] + RulesIn(others)
  {
    var rows := [Row(Shifted(r, g), bs)] + others;
    assert rows[1..] == others;
    ShiftedStands(r, g, BreaksText(bs) + RowsText(others, tail));
  }

  /** What follows a rule in a text that is read whole. */
  lemma {:induction false} RestIsLaid(s: string) returns (bs: seq<Break>, rows: seq<Row>, tail: Gap)
    requires Skip(Eols(MoreRules(s).1)) == ""
    ensures s == BreaksText(bs) + RowsText(rows, tail) && RulesIn(rows) == MoreRules(s).0
    ensures BreaksStand(bs, RowsText(rows, tail)) && RowsStand(rows, tail) && (rows != [] ==> bs != [])
    decreases |s|
  {
    var g;
    bs, g := EolsAreBreaks(s);
    if Eol(Skip(s)) == 0 || ParseRule(Eols(s)).Fail? {
      rows, tail := [], g;
      assert GapText(g) + Eols(s) == GapText(g);
    } else {
      var r := RuleIsLaid(Eols(s));
      var rest := ParseRule(Eols(s)).rest;
      var more, others;
      more, others, tail := RestIsLaid(rest);
      rows := [Row(Shifted(r, g), more)] + others;
      RowFirst(r, g, more, others, tail);
    }
  }

  /** Whatever is read is a layout of the rules that are read. */
  lemma ReadIsLayout(s: string) returns (f: Layout)
    requires ParseRules(s).Some?
    ensures Legible(f) && LayoutText(f) == s && RulesIn(f.rows) == ParseRules(s).value
  {
    var bs, g := EolsAreBreaks(s);
    if ParseRule(Eols(s)).Fail? {
      f := Layout(bs, [], g);
      assert Eols(Eols(s)) == Eols(s);
      assert GapText(g) + Eols(s) == GapText(g);
    } else {
      var r := RuleIsLaid(Eols(s));
      var rest := ParseRule(Eols(s)).rest;
      var more, others, tail := RestIsLaid(rest);
      f := Layout(bs, [Row(Shifted(r, g), more)] + others, tail);
      RowFirst(r, g, more, others, tail);
    }
  }

  /** So a text is read as some rules exactly when it is a layout of them. */
  lemma GrammarExactly(s: string, rules: seq<Rule>)
    ensures ParseRules(s) == Some(rules) <==> exists f :: Legible(f) && LayoutText(f) == s && RulesIn(f.rows) == rules
  {
    if ParseRules(s) == Some(rules) {
      var f := ReadIsLayout(s);
    }
    forall f | Legible(f) && LayoutText(f) == s ensures ParseRules(s) == Some(RulesIn(f.rows)) {
      LayoutReads(f);
    }
  }
}
