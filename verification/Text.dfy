/** Substrings. */
module Text {

  predicate OccursAt(text: string, pattern: string, i: nat) {
    i + |pattern| <= |text| && text[i..i + |pattern|] == pattern
  }

  /** What a substring search answers. */
  predicate Occurs(text: string, pattern: string) {
    exists i :: 0 <= i <= |text| - |pattern| && OccursAt(text, pattern, i)
  }

  lemma OccursIn(text: string, before: string, after: string, pattern: string)
    requires Occurs(text, pattern)
    ensures Occurs(before + text + after, pattern)
  {
    var i :| 0 <= i <= |text| - |pattern| && OccursAt(text, pattern, i);
    var whole := before + text + after;
    assert whole[|before| + i..|before| + i + |pattern|] == pattern;
    assert OccursAt(whole, pattern, |before| + i);
  }

  lemma PartHasNone(text: string, before: string, after: string, pattern: string)
    requires !Occurs(before + text + after, pattern)
    ensures !Occurs(text, pattern)
  {
    if Occurs(text, pattern) {
      OccursIn(text, before, after, pattern);
    }
  }

  /** A character that the pattern lacks is not within an occurrence. */
  lemma OccursApart(text: string, pattern: string, i: nat, n: nat)
    requires OccursAt(text, pattern, i) && n < |text| && text[n] !in pattern
    ensures n < i || n >= i + |pattern|
  {
    assert forall k :: 0 <= k < |pattern| ==> text[i + k] == text[i..i + |pattern|][k] == pattern[k];
  }

  /** An occurrence in the concatenation is in the first part, or touches the second. */
  lemma OccursAcross(first: string, second: string, pattern: string, i: nat)
    requires OccursAt(first + second, pattern, i)
    ensures i + |pattern| <= |first| ==> OccursAt(first, pattern, i)
    ensures forall n :: 0 <= n <= i && n <= |first| ==> OccursAt(first[n..] + second, pattern, i - n)
  {
    if i + |pattern| <= |first| {
      assert first[i..i + |pattern|] == (first + second)[i..i + |pattern|];
    }
    forall n | 0 <= n <= i && n <= |first| ensures OccursAt(first[n..] + second, pattern, i - n) {
      assert (first[n..] + second)[i - n..i - n + |pattern|] == (first + second)[i..i + |pattern|];
    }
  }
}

/** Text cut into lines. */
module TextLines {
  import opened Common

  const HASH := '#'
  const NEWLINE := '\n'

  /** A line without its newline, and whether it had one. */
  datatype Line = Line(body: string, ended: bool)

  function FirstNewline(text: string): (r: nat)
    ensures r <= |text| && (r < |text| ==> text[r] == NEWLINE)
    ensures forall k :: 0 <= k < r ==> text[k] != NEWLINE
  {
    if text == "" || text[0] == NEWLINE then 0 else 1 + FirstNewline(text[1..])
  }

  function Lines(text: string): seq<Line>
    decreases |text|
  {
    var k := FirstNewline(text);
    if text == "" then []
    else if k == |text| then [Line(text, false)]
    else [Line(text[..k], true)] + Lines(text[k + 1..])
  }

  predicate Plain(line: Line) { line.body == "" || line.body[0] != HASH }

  // ---- cutting text at line ends ---------------------------------------------------

  predicate EndsLine(text: string) { text == "" || text[|text| - 1] == NEWLINE }

  lemma FirstNewlineIs(text: string, k: nat)
    requires k <= |text| && (k < |text| ==> text[k] == NEWLINE) && NEWLINE !in text[..k]
    ensures FirstNewline(text) == k
  {
    assert forall j :: 0 <= j < k ==> text[j] == text[..k][j];
  }

  lemma {:induction false} LinesConcat(a: string, b: string)
    requires EndsLine(a)
    ensures Lines(a + b) == Lines(a) + Lines(b)
    decreases |a|
  {
    if a == "" {
      assert a + b == b;
    } else {
      var k := FirstNewline(a);
      assert k < |a|;
      FirstNewlineIs(a + b, k);
      assert (a + b)[k + 1..] == a[k + 1..] + b && (a + b)[..k] == a[..k];
      LinesConcat(a[k + 1..], b);
    }
  }

  lemma OneLine(body: string)
    requires NEWLINE !in body
    ensures Lines(body + [NEWLINE]) == [Line(body, true)]
    ensures body != "" ==> Lines(body) == [Line(body, false)]
  {
    var text := body + [NEWLINE];
    assert text[..|body|] == body;
    FirstNewlineIs(text, |body|);
    assert text[|body| + 1..] == "";
    assert body[..|body|] == body;
    FirstNewlineIs(body, |body|);
  }

  function LineText(line: Line): string {
    line.body + if line.ended then [NEWLINE] else ""
  }

  /** The lines put together are the text. */
  lemma {:induction false} LinesAre(text: string)
    ensures Flat(LineText, Lines(text)) == text
    decreases |text|
  {
    var k := FirstNewline(text);
    if text != "" && k == |text| {
      FlatOne(LineText, Line(text, false));
    } else if text != "" {
      LinesAre(text[k + 1..]);
      FlatCons(LineText, Line(text[..k], true), Lines(text[k + 1..]));
    }
  }

  /** No line holds a newline, and only the last can lack one at its end. */
  lemma {:induction false} LinesHoldNoNewline(text: string)
    ensures forall i :: 0 <= i < |Lines(text)| ==> NEWLINE !in Lines(text)[i].body
    ensures forall i :: 0 <= i < |Lines(text)| - 1 ==> Lines(text)[i].ended
    decreases |text|
  {
    var k := FirstNewline(text);
    if text != "" && k < |text| {
      LinesHoldNoNewline(text[k + 1..]);
    }
  }

  lemma FlatLines<T>(f: Line -> seq<T>, a: string, b: string)
    requires EndsLine(a)
    ensures Flat(f, Lines(a + b)) == Flat(f, Lines(a)) + Flat(f, Lines(b))
  {
    LinesConcat(a, b);
    FlatConcat(f, Lines(a), Lines(b));
  }

  /** Text made of pieces that end their lines has the lines of the pieces. */
  lemma {:induction false} LinesOfFlat<X, T>(g: X -> string, f: Line -> seq<T>, h: X -> seq<T>, xs: seq<X>)
    requires forall i :: 0 <= i < |xs| ==> EndsLine(g(xs[i])) && Flat(f, Lines(g(xs[i]))) == h(xs[i])
    ensures EndsLine(Flat(g, xs)) && Flat(f, Lines(Flat(g, xs))) == Flat(h, xs)
  {
    if xs != [] {
      var n := |xs| - 1;
      var before, last := Flat(g, xs[..n]), g(xs[n]);
      LinesOfFlat(g, f, h, xs[..n]);
      FlatLines(f, before, last);
      assert Flat(g, xs) == before + last;
    }
  }

  function FirstLine(text: string): Line {
    Line(text[..FirstNewline(text)], FirstNewline(text) < |text|)
  }

  function AfterLine(text: string): string {
    if FirstNewline(text) < |text| then text[FirstNewline(text) + 1..] else ""
  }

  lemma FirstLineOff<T>(f: Line -> seq<T>, text: string)
    requires text != ""
    ensures Flat(f, Lines(text)) == f(FirstLine(text)) + Flat(f, Lines(AfterLine(text)))
  {
    assert FirstNewline(text) == |text| ==> text[..|text|] == text;
    assert Lines(text) == [FirstLine(text)] + Lines(AfterLine(text));
    FlatCons(f, FirstLine(text), Lines(AfterLine(text)));
  }

  // ---- lines that do not start with a hash sign ------------------------------------

  predicate LineStart(text: string, from: nat, k: nat)
    requires k <= |text|
  {
    k == from || (k > 0 && text[k - 1] == NEWLINE)
  }

  /** No line that starts in text from one position up to another starts with a hash sign. */
  ghost predicate NoHashLine(text: string, from: nat, to: nat)
    requires to <= |text|
  {
    forall k :: from <= k < to && LineStart(text, from, k) ==> text[k] != HASH
  }

  lemma {:induction false} PlainLines(text: string)
    requires NoHashLine(text, 0, |text|)
    ensures forall i :: 0 <= i < |Lines(text)| ==> Plain(Lines(text)[i])
    decreases |text|
  {
    if text != "" {
      assert LineStart(text, 0, 0);
      var k := FirstNewline(text);
      if k < |text| {
        var rest := text[k + 1..];
        assert NoHashLine(rest, 0, |rest|) by {
          forall j | 0 <= j < |rest| && LineStart(rest, 0, j) ensures rest[j] != HASH {
            assert LineStart(text, 0, k + 1 + j);
          }
        }
        PlainLines(rest);
      }
    }
  }
}
