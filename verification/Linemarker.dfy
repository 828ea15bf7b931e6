/** The linemarkers of preprocessed text, and rewriting the path inside one. */
module Linemarker {
  import opened Common

  const QUOTE := '\"'
  const BACKSLASH := '\\'

  // ---- the escapes of a C string body ----------------------------------------------

  function EscapedChar(c: char): string {
    if c == BACKSLASH || c == QUOTE then [BACKSLASH, c] else [c]
  }

  function Escaped(s: string): string { Flat(EscapedChar, s) }

  function Unescaped(s: string): string {
    if s == "" then ""
    else if s[0] == BACKSLASH && |s| > 1 then [s[1]] + Unescaped(s[2..])
    else [s[0]] + Unescaped(s[1..])
  }

  method Escape(s: string) returns (out: string)
    ensures out == Escaped(s)
  {
    out := "";
    for i := 0 to |s|
      invariant out == Escaped(s[..i])
    {
      assert s[..i + 1][..i] == s[..i];
      if s[i] == BACKSLASH || s[i] == QUOTE {
        out := out + [BACKSLASH];
      }
      out := out + [s[i]];
    }
    assert s[..|s|] == s;
  }

  method Unescape(s: string) returns (out: string)
    ensures out == Unescaped(s)
  {
    out := "";
    var i := 0;
    while i < |s|
      invariant i <= |s| && out + Unescaped(s[i..]) == Unescaped(s)
    {
      ghost var rest := s[i..];
      if s[i] == BACKSLASH && i + 1 < |s| {
        i := i + 1;
        assert rest[2..] == s[i + 1..];
      } else {
        assert rest[1..] == s[i + 1..];
      }
      out := out + [s[i]];
      i := i + 1;
    }
  }

  /** A string body that a closing quote may follow: every quote and every backslash in it is escaped. */
  predicate Closed(raw: string) {
    raw == "" ||
    if raw[0] == BACKSLASH then |raw| > 1 && Closed(raw[2..]) else raw[0] != QUOTE && Closed(raw[1..])
  }

  /** Escaping is undone by unescaping, and leaves a body that a quote may follow. */
  lemma {:induction false} EscapeRoundTrip(s: string)
    ensures Unescaped(Escaped(s)) == s && Closed(Escaped(s))
  {
    if s != "" {
      FlatFirst(EscapedChar, s);
      EscapeRoundTrip(s[1..]);
      var out, rest := Escaped(s), Escaped(s[1..]);
      if s[0] == BACKSLASH || s[0] == QUOTE {
        assert out[2..] == rest;
      } else {
        assert out[1..] == rest;
      }
    }
  }

  // ---- where the path of a linemarker is -------------------------------------------

  predicate Blank(c: char) { c == ' ' || c == '\t' }

  predicate Digit(c: char) { '0' <= c <= '9' }

  /** Every character from i up to j is of a kind. */
  ghost predicate All(kind: char -> bool, s: string, i: nat, j: nat)
    requires j <= |s|
  {
    forall k :: i <= k < j ==> kind(s[k])
  }

  /** The first position from i on whose character is not of a kind. */
  function Past(kind: char -> bool, line: string, i: nat): (r: nat)
    requires i <= |line|
    ensures i <= r <= |line| && All(kind, line, i, r)
    ensures r < |line| ==> !kind(line[r])
    decreases |line| - i
  {
    if i < |line| && kind(line[i]) then Past(kind, line, i + 1) else i
  }

  lemma PastIs(kind: char -> bool, line: string, i: nat, j: nat)
    requires i <= j <= |line| && All(kind, line, i, j) && (j < |line| ==> !kind(line[j]))
    ensures Past(kind, line, i) == j
  {
  }

  /** The first unescaped quote from j on, or the length if there is none. */
  function CloseQuote(line: string, j: nat): (r: nat)
    ensures j <= |line| ==> j <= r
    ensures r <= |line| && (r < |line| ==> line[r] == QUOTE)
    decreases |line| - j
  {
    if j >= |line| then |line|
    else if line[j] == BACKSLASH then CloseQuote(line, j + 2)
    else if line[j] == QUOTE then j
    else CloseQuote(line, j + 1)
  }

  /** A '#', blanks up to i, at least one digit up to j, and blanks. */
  ghost predicate LeadSplit(pre: string, i: nat, j: nat) {
    && 1 <= i < j <= |pre| && pre[0] == '#'
    && All(Blank, pre, 1, i) && All(Digit, pre, i, j) && All(Blank, pre, j, |pre|)
  }

  /** What stands before the path of a linemarker. */
  ghost predicate Lead(pre: string) {
    exists i, j :: LeadSplit(pre, i, j)
  }

  /** The shape of a linemarker, stated without saying how to look for it. */
  ghost predicate IsMarker(line: string, pre: string, raw: string, rest: string) {
    line == pre + [QUOTE] + raw + [QUOTE] + rest && Lead(pre) && Closed(raw)
  }

  /** Where the opening quote is, when the line starts as a linemarker does. */
  function OpenQuote(line: string): (r: Option<nat>)
    ensures r.Some? ==> 1 < r.value < |line| && line[r.value] == QUOTE
  {
    if line == "" || line[0] != '#' then None
    else
      var i := Past(Blank, line, 1);
      var j := Past(Digit, line, i);
      var q := Past(Blank, line, j);
      if i == j || q == |line| || line[q] != QUOTE then None else Some(q)
  }

  /** Where the path starts and where it ends, when the line has the shape. */
  function PathBounds(line: string): (r: Option<(nat, nat)>)
    ensures r.Some? ==> 2 < r.value.0 <= r.value.1 < |line|
                        && line[r.value.0 - 1] == QUOTE && line[r.value.1] == QUOTE
  {
    match OpenQuote(line)
    case None => None
    case Some(q) =>
      var c := CloseQuote(line, q + 1);
      if c == |line| then None else Some((q + 1, c))
  }

  function Normalized(canon: string -> string, line: string): string {
    match PathBounds(line)
    case None => line
    case Some((start, end)) => line[..start] + Escaped(canon(Unescaped(line[start..end]))) + line[end..]
  }

  lemma {:induction false} CloseQuoteAfter(line: string, j: nat, raw: string, rest: string)
    requires j <= |line| && line[j..] == raw + [QUOTE] + rest && Closed(raw)
    ensures CloseQuote(line, j) == j + |raw|
    decreases |raw|
  {
    if raw == "" {
      assert line[j] == line[j..][0] == QUOTE;
    } else {
      var n := if raw[0] == BACKSLASH then 2 else 1;
      assert line[j] == line[j..][0] == raw[0];
      assert line[j + n..] == line[j..][n..] == raw[n..] + [QUOTE] + rest;
      CloseQuoteAfter(line, j + n, raw[n..], rest);
    }
  }

  lemma {:induction false} ClosedBefore(line: string, j: nat)
    requires j <= |line| && CloseQuote(line, j) < |line|
    ensures Closed(line[j..CloseQuote(line, j)])
    decreases |line| - j
  {
    var c := CloseQuote(line, j);
    if j < c {
      var n := if line[j] == BACKSLASH then 2 else 1;
      ClosedBefore(line, j + n);
      assert line[j..c][n..] == line[j + n..c];
    }
  }

  /** The part before the quote of a line that starts with a lead is found, whatever follows. */
  lemma OpenQuoteAfter(line: string, pre: string)
    requires pre + [QUOTE] <= line && Lead(pre)
    ensures OpenQuote(line) == Some(|pre|)
  {
    var i, j :| LeadSplit(pre, i, j);
    assert forall k :: 0 <= k < |pre| ==> line[k] == pre[k];
    assert All(Blank, line, 1, i) && All(Digit, line, i, j) && All(Blank, line, j, |pre|);
    assert line[|pre|] == (pre + [QUOTE])[|pre|] == QUOTE;
    PastIs(Blank, line, 1, i);
    PastIs(Digit, line, i, j);
    PastIs(Blank, line, j, |pre|);
  }

  lemma LeadBefore(line: string)
    requires OpenQuote(line).Some?
    ensures Lead(line[..OpenQuote(line).value])
  {
    var i := Past(Blank, line, 1);
    var j := Past(Digit, line, i);
    assert LeadSplit(line[..OpenQuote(line).value], i, j);
  }

  /** The search finds exactly the lines of the shape, and splits each the one way it can be split. */
  lemma FoundExactly(line: string, pre: string, raw: string, rest: string)
    requires IsMarker(line, pre, raw, rest)
    ensures PathBounds(line) == Some((|pre| + 1, |pre| + 1 + |raw|))
  {
    OpenQuoteAfter(line, pre);
    assert line[|pre| + 1..] == raw + [QUOTE] + rest;
    CloseQuoteAfter(line, |pre| + 1, raw, rest);
  }

  lemma FoundIsMarker(line: string)
    requires PathBounds(line).Some?
    ensures var (start, end) := PathBounds(line).value;
            IsMarker(line, line[..start - 1], line[start..end], line[end + 1..])
  {
    var (start, end) := PathBounds(line).value;
    LeadBefore(line);
    ClosedBefore(line, start);
    assert line == line[..start - 1] + [QUOTE] + line[start..end] + [QUOTE] + line[end + 1..];
  }

  lemma MarkerNormalized(canon: string -> string, line: string, pre: string, raw: string, rest: string)
    requires IsMarker(line, pre, raw, rest)
    ensures Normalized(canon, line) == pre + [QUOTE] + Escaped(canon(Unescaped(raw))) + [QUOTE] + rest
  {
    FoundExactly(line, pre, raw, rest);
    var start, end := |pre| + 1, |pre| + 1 + |raw|;
    assert line[..start] == pre + [QUOTE];
    assert line[start..end] == raw;
    assert line[end..] == [QUOTE] + rest;
  }

  /** A linemarker has its path, read without its escapes, replaced; every other line is left alone. */
  lemma NormalizedMeans(canon: string -> string, line: string)
    ensures forall pre, raw, rest :: IsMarker(line, pre, raw, rest) ==>
              Normalized(canon, line) == pre + [QUOTE] + Escaped(canon(Unescaped(raw))) + [QUOTE] + rest
    ensures (forall pre, raw, rest :: !IsMarker(line, pre, raw, rest)) ==> Normalized(canon, line) == line
  {
    forall pre, raw, rest | IsMarker(line, pre, raw, rest)
      ensures Normalized(canon, line) == pre + [QUOTE] + Escaped(canon(Unescaped(raw))) + [QUOTE] + rest
    {
      MarkerNormalized(canon, line, pre, raw, rest);
    }
    if PathBounds(line).Some? {
      FoundIsMarker(line);
    }
  }

  method SkipWhile(kind: char -> bool, line: string, start: nat) returns (i: nat)
    requires start <= |line|
    ensures i == Past(kind, line, start)
  {
    i := start;
    while i < |line| && kind(line[i])
      invariant start <= i <= |line| && Past(kind, line, i) == Past(kind, line, start)
    {
      i := i + 1;
    }
  }

  method FindCloseQuote(line: string, start: nat) returns (j: nat)
    ensures j >= |line| ==> CloseQuote(line, start) == |line|
    ensures j < |line| ==> j == CloseQuote(line, start)
  {
    j := start;
    while j < |line|
      invariant CloseQuote(line, j) == CloseQuote(line, start)
    {
      if line[j] == BACKSLASH {
        j := j + 2;
        continue;
      }
      if line[j] == QUOTE {
        break;
      }
      j := j + 1;
    }
  }

  method FindOpenQuote(line: string) returns (r: Option<nat>)
    ensures r == OpenQuote(line)
  {
    if line == "" || line[0] != '#' {
      return None;
    }
    var i := SkipWhile(Blank, line, 1);
    if i >= |line| || !Digit(line[i]) {
      return None;
    }
    i := SkipWhile(Digit, line, i);
    i := SkipWhile(Blank, line, i);
    if i >= |line| || line[i] != QUOTE {
      return None;
    }
    r := Some(i);
  }

  method NormalizeLinemarker(line: string, canon: string -> string) returns (out: string)
    ensures out == Normalized(canon, line)
  {
    var openQuote := FindOpenQuote(line);
    if openQuote.None? {
      return line;
    }
    var start := openQuote.value + 1;
    var closeQuote := FindCloseQuote(line, start);
    if closeQuote >= |line| {
      return line;
    }
    var raw := Unescape(line[start..closeQuote]);
    var mapped := Escape(canon(raw));
    out := line[..start] + mapped + line[closeQuote..];
  }
}

/** Linemarkers of a build tree that has moved. */
module LinemarkerRelocation {
  import opened Linemarker
  import Roots

  /** The linemarker for a path, as the preprocessor writes it. */
  function Marker(pre: string, path: string, rest: string): string {
    pre + [QUOTE] + Escaped(path) + [QUOTE] + rest
  }

  function Canon(roots: seq<Roots.Root>): string -> string {
    path => Roots.Canonicalize(roots, path)
  }

  /** The path a linemarker names is the one that is mapped, whatever characters it has. */
  lemma MarkerMapsItsPath(canon: string -> string, pre: string, path: string, rest: string)
    requires Lead(pre)
    ensures Normalized(canon, Marker(pre, path, rest)) == Marker(pre, canon(path), rest)
  {
    EscapeRoundTrip(path);
    MarkerNormalized(canon, Marker(pre, path, rest), pre, Escaped(path), rest);
  }

  /**
   Moving the tree and its roots from one place to another keeps the normal form of
   exactly the markers under a root.
   */
  lemma RelocatedMarker(roots: seq<Roots.Root>, a: string, b: string, pre: string, path: string, rest: string)
    requires Roots.Movable(roots, a, b) && a <= path && Lead(pre)
    ensures Normalized(Canon(Roots.Moved(roots, b, |a|)), Marker(pre, b + path[|a|..], rest))
            == Normalized(Canon(roots), Marker(pre, path, rest))
            <==> Roots.Covers(roots, path) || a == b
  {
    var moved, path' := Roots.Moved(roots, b, |a|), b + path[|a|..];
    MarkerMapsItsPath(Canon(roots), pre, path, rest);
    MarkerMapsItsPath(Canon(moved), pre, path', rest);
    Roots.RelocationExactly(roots, a, b, path);
    MarkersDiffer(pre, Roots.Canonicalize(roots, path), Roots.Canonicalize(moved, path'), rest);
  }

  lemma MarkersDiffer(pre: string, p: string, q: string, rest: string)
    ensures Marker(pre, p, rest) == Marker(pre, q, rest) <==> p == q
  {
    EscapeRoundTrip(p);
    EscapeRoundTrip(q);
    var x, y := Marker(pre, p, rest), Marker(pre, q, rest);
    if x == y {
      var n := |pre| + 1;
      assert x[n..|x| - |rest| - 1] == Escaped(p) && y[n..|y| - |rest| - 1] == Escaped(q);
    }
  }
}
