/** The preprocessed text of a build tree that has moved: when what is hashed of it stays the same. */
module PreprocessedRelocation {
  import opened Common
  import opened Linemarker
  import LinemarkerRelocation
  import opened PreprocessedLines
  import Roots
  import opened TextLines

  /**
   A line of preprocessed text: one that names no path, a linemarker, or the pragma of a
   precompiled header. A path is in the tree that moves, or somewhere else.
   */
  datatype Item =
    | Verbatim(body: string)
    | Marker(pre: string, path: string, rest: string, moves: bool)
    | Pragma(path: string, moves: bool)

  /** The compiler escapes the path of a linemarker and not that of a pragma. */
  function Body(item: Item): string {
    match item
    case Verbatim(body) => body
    case Marker(pre, path, rest, _) => LinemarkerRelocation.Marker(pre, path, rest)
    case Pragma(path, _) => PCH_PRAGMA + path + [QUOTE]
  }

  function ItemText(item: Item): string { Body(item) + [NEWLINE] }

  function TextOf(items: seq<Item>): string { Flat(ItemText, items) }

  predicate OneLiner(s: string) { NEWLINE !in s }

  ghost predicate Legal(item: Item) {
    match item
    case Verbatim(body) => OneLiner(body) && PathBounds(body).None? && !(PCH_PRAGMA <= body)
    case Marker(pre, path, rest, _) => OneLiner(pre) && OneLiner(path) && OneLiner(rest) && Lead(pre)
    case Pragma(path, _) => OneLiner(path)
  }

  // ---- the normal form of a line ---------------------------------------------------

  /** What is hashed of an item. */
  function Shown(o: Options, item: Item): string {
    match item
    case Verbatim(body) => body
    case Marker(pre, path, rest, _) => LinemarkerRelocation.Marker(pre, o.canon(path), rest)
    case Pragma(path, _) => PCH_PRAGMA + (if o.collectPch then Escaped(o.canon(path)) else path) + [QUOTE]
  }

  function ShownText(o: Options): Item -> string { (item: Item) => Shown(o, item) + [NEWLINE] }

  /** A linemarker is no pragma, and a pragma is no linemarker. */
  lemma PragmaIsNoMarker(body: string)
    requires PCH_PRAGMA <= body
    ensures PathBounds(body).None? && !Plain(Line(body, true))
  {
    assert body[0] == PCH_PRAGMA[0] && body[1] == PCH_PRAGMA[1];
    assert Past(Blank, body, 1) == 1 && Past(Digit, body, 1) == 1;
  }

  lemma MarkerIsNoPragma(pre: string, path: string, rest: string)
    requires Lead(pre)
    ensures var body := LinemarkerRelocation.Marker(pre, path, rest);
            !(PCH_PRAGMA <= body) && !Plain(Line(body, true))
  {
    var body := LinemarkerRelocation.Marker(pre, path, rest);
    var i, j :| LeadSplit(pre, i, j);
    assert body[0] == pre[0] && body[1] == pre[1] && (Blank(pre[1]) || Digit(pre[1]));
    assert PCH_PRAGMA[1] == 'p';
  }

  lemma ItemNormal(o: Options, item: Item)
    requires Legal(item)
    ensures NormalForm(o, Line(Body(item), true)) == ShownText(o)(item)
  {
    var line := Line(Body(item), true);
    match item {
      case Verbatim(body) =>
      case Marker(pre, path, rest, _) =>
        MarkerIsNoPragma(pre, path, rest);
        LinemarkerRelocation.MarkerMapsItsPath(o.canon, pre, path, rest);
      case Pragma(path, _) =>
        PragmaIsNoMarker(line.body);
        assert line.body[|PCH_PRAGMA|..|line.body| - 1] == path;
    }
  }

  lemma BodyIsOneLine(item: Item)
    requires Legal(item)
    ensures OneLiner(Body(item))
  {
    if !item.Verbatim? {
      EscapedOneLiner(item.path);
    }
  }

  lemma EscapedOneLiner(s: string)
    requires OneLiner(s)
    ensures OneLiner(Escaped(s))
  {
    var ok := (c: char) => c != NEWLINE;
    FlatEvery(EscapedChar, ok, s);
    assert forall i :: 0 <= i < |s| ==> Every(ok, EscapedChar(s[i]));
    assert Every(ok, Escaped(s));
  }

  lemma TextNormal(o: Options, items: seq<Item>)
    requires forall i :: 0 <= i < |items| ==> Legal(items[i])
    ensures NormalText(o, Lines(TextOf(items))) == Flat(ShownText(o), items)
  {
    var f := (line: Line) => NormalForm(o, line);
    forall i | 0 <= i < |items|
      ensures EndsLine(ItemText(items[i])) && Flat(f, Lines(ItemText(items[i]))) == ShownText(o)(items[i])
    {
      BodyIsOneLine(items[i]);
      OneLine(Body(items[i]));
      FlatOne(f, Line(Body(items[i]), true));
      ItemNormal(o, items[i]);
    }
    LinesOfFlat(ItemText, f, ShownText(o), items);
    FlatSame(f, line => NormalForm(o, line), Lines(TextOf(items)));
  }

  /** The headers looked for later are those of the pragmas, as the compiler wrote them, in order. */
  function Headers(items: seq<Item>): seq<string> {
    Flat((item: Item) => if item.Pragma? then [item.path] else [], items)
  }

  lemma HeadersCollected(o: Options, items: seq<Item>)
    requires o.collectPch && forall i :: 0 <= i < |items| ==> Legal(items[i])
    ensures PragmaPaths(o, Lines(TextOf(items))) == Headers(items)
  {
    var f := (line: Line) => PathsOf(o, line);
    var h := (item: Item) => if item.Pragma? then [item.path] else [];
    forall i | 0 <= i < |items|
      ensures EndsLine(ItemText(items[i])) && Flat(f, Lines(ItemText(items[i]))) == h(items[i])
    {
      BodyIsOneLine(items[i]);
      OneLine(Body(items[i]));
      FlatOne(f, Line(Body(items[i]), true));
      HeaderOf(o, items[i]);
    }
    LinesOfFlat(ItemText, f, h, items);
    FlatSame(f, line => PathsOf(o, line), Lines(TextOf(items)));
    FlatSame(h, (item: Item) => if item.Pragma? then [item.path] else [], items);
  }

  lemma HeaderOf(o: Options, item: Item)
    requires o.collectPch && Legal(item)
    ensures PathsOf(o, Line(Body(item), true)) == if item.Pragma? then [item.path] else []
  {
    match item {
      case Verbatim(_) =>
      case Marker(pre, path, rest, _) => MarkerIsNoPragma(pre, path, rest);
      case Pragma(path, _) =>
        var body := Body(item);
        assert body[|PCH_PRAGMA|..|body| - 1] == path;
    }
  }

  // ---- lines can be told apart -----------------------------------------------------

  lemma FirstLinesAgree(s: string, t: string, more: string, rest: string)
    requires OneLiner(s) && OneLiner(t)
    ensures s + [NEWLINE] + more == t + [NEWLINE] + rest <==> s == t && more == rest
  {
    var x, y := s + [NEWLINE] + more, t + [NEWLINE] + rest;
    if x == y {
      assert x[..|s|] == s && y[..|t|] == t;
      FirstNewlineIs(x, |s|);
      FirstNewlineIs(y, |t|);
      assert x[|s| + 1..] == more && y[|t| + 1..] == rest;
    }
  }

  /** Two lists of lines, equally long, are the same text only if they agree line by line. */
  lemma {:induction false} LinesAgree(o: Options, p: Options, xs: seq<Item>, ys: seq<Item>)
    requires |xs| == |ys|
    requires forall i :: 0 <= i < |xs| ==> OneLiner(Shown(o, xs[i])) && OneLiner(Shown(p, ys[i]))
    ensures Flat(ShownText(o), xs) == Flat(ShownText(p), ys) <==>
            forall i :: 0 <= i < |xs| ==> Shown(o, xs[i]) == Shown(p, ys[i])
  {
    if xs != [] {
      var more, rest := Flat(ShownText(o), xs[1..]), Flat(ShownText(p), ys[1..]);
      FlatFirst(ShownText(o), xs);
      FlatFirst(ShownText(p), ys);
      LinesAgree(o, p, xs[1..], ys[1..]);
      FirstLinesAgree(Shown(o, xs[0]), Shown(p, ys[0]), more, rest);
      assert forall i :: 0 <= i < |xs| - 1 ==> xs[1..][i] == xs[i + 1] && ys[1..][i] == ys[i + 1];
      assert forall i :: 0 < i < |xs| ==> xs[i] == xs[1..][i - 1] && ys[i] == ys[1..][i - 1];
    }
  }

  // ---- moving the tree -------------------------------------------------------------

  /** How the lines are hashed under a list of roots. */
  function Under(roots: seq<Roots.Root>, collectPch: bool): Options {
    Options(LinemarkerRelocation.Canon(roots), collectPch)
  }

  function MovedItem(item: Item, a: string, b: string): Item {
    if item.Verbatim? || !item.moves || !(a <= item.path) then item
    else item.(path := b + item.path[|a|..])
  }

  function MovedItems(items: seq<Item>, a: string, b: string): seq<Item> {
    seq(|items|, i requires 0 <= i < |items| => MovedItem(items[i], a, b))
  }

  /** What moves starts with the old prefix; what stays is outside the roots, before and after. */
  predicate Placed(roots: seq<Roots.Root>, a: string, b: string, item: Item)
    requires Roots.Movable(roots, a, b)
  {
    item.Verbatim? ||
    if item.moves then a <= item.path
    else !Roots.Covers(roots, item.path) && !Roots.Covers(Roots.Moved(roots, b, |a|), item.path)
  }

  /** Whether what is hashed of a line does not show where the tree is. */
  predicate Hidden(roots: seq<Roots.Root>, collectPch: bool, item: Item) {
    item.Verbatim? || !item.moves || (Roots.Covers(roots, item.path) && (item.Pragma? ==> collectPch))
  }

  lemma PragmasDiffer(p: string, q: string)
    ensures PCH_PRAGMA + p + [QUOTE] == PCH_PRAGMA + q + [QUOTE] <==> p == q
  {
    var x, y := PCH_PRAGMA + p + [QUOTE], PCH_PRAGMA + q + [QUOTE];
    if x == y {
      assert x[|PCH_PRAGMA|..|x| - 1] == p && y[|PCH_PRAGMA|..|y| - 1] == q;
    }
  }

  lemma EscapesDiffer(p: string, q: string)
    ensures Escaped(p) == Escaped(q) <==> p == q
  {
    EscapeRoundTrip(p);
    EscapeRoundTrip(q);
  }

  /** A moved path is another path, unless nothing moved. */
  lemma MovedPathDiffers(a: string, b: string, path: string)
    requires a <= path
    ensures b + path[|a|..] == path <==> a == b
  {
    assert path == a + path[|a|..];
    if b + path[|a|..] == path {
      assert |a| == |b| && a == path[..|a|] == b;
    }
  }

  lemma RelocatedPragma(roots: seq<Roots.Root>, collectPch: bool, a: string, b: string, path: string)
    requires Roots.Movable(roots, a, b) && a <= path
    ensures Shown(Under(Roots.Moved(roots, b, |a|), collectPch), Pragma(b + path[|a|..], true))
            == Shown(Under(roots, collectPch), Pragma(path, true))
            <==> a == b || (collectPch && Roots.Covers(roots, path))
  {
    var moved, path' := Roots.Moved(roots, b, |a|), b + path[|a|..];
    var p, q := Roots.Canonicalize(roots, path), Roots.Canonicalize(moved, path');
    Roots.RelocationExactly(roots, a, b, path);
    EscapesDiffer(p, q);
    MovedPathDiffers(a, b, path);
    PragmasDiffer(if collectPch then Escaped(q) else path', if collectPch then Escaped(p) else path);
  }

  lemma RelocatedItem(roots: seq<Roots.Root>, collectPch: bool, a: string, b: string, item: Item)
    requires Roots.Movable(roots, a, b) && Legal(item) && Placed(roots, a, b, item)
    ensures Shown(Under(Roots.Moved(roots, b, |a|), collectPch), MovedItem(item, a, b))
            == Shown(Under(roots, collectPch), item)
            <==> a == b || Hidden(roots, collectPch, item)
  {
    var moved := Roots.Moved(roots, b, |a|);
    match item {
      case Verbatim(_) =>
      case Marker(pre, path, rest, moves) =>
        if moves {
          var path' := b + path[|a|..];
          LinemarkerRelocation.MarkerMapsItsPath(LinemarkerRelocation.Canon(roots), pre, path, rest);
          LinemarkerRelocation.MarkerMapsItsPath(LinemarkerRelocation.Canon(moved), pre, path', rest);
          LinemarkerRelocation.RelocatedMarker(roots, a, b, pre, path, rest);
        }
      case Pragma(path, moves) =>
        if moves {
          RelocatedPragma(roots, collectPch, a, b, path);
        }
    }
  }

  // ---- every line stays a line -----------------------------------------------------

  ghost predicate NamesOneLine(roots: seq<Roots.Root>) {
    forall i :: 0 <= i < |roots| ==> OneLiner(roots[i].canonical)
  }

  lemma CanonicalOneLine(roots: seq<Roots.Root>, path: string)
    requires NamesOneLine(roots) && OneLiner(path)
    ensures OneLiner(Roots.Canonicalize(roots, path)) && OneLiner(Escaped(Roots.Canonicalize(roots, path)))
  {
    var r := Roots.LastCovering(roots, path);
    if r < |roots| {
      assert forall c :: c in path[|roots[r].path|..] ==> c in path;
    }
    EscapedOneLiner(Roots.Canonicalize(roots, path));
  }

  lemma ShownOneLine(roots: seq<Roots.Root>, collectPch: bool, item: Item)
    requires NamesOneLine(roots) && Legal(item)
    ensures OneLiner(Shown(Under(roots, collectPch), item))
  {
    if !item.Verbatim? {
      CanonicalOneLine(roots, item.path);
    }
  }

  lemma MovedLegal(item: Item, a: string, b: string)
    requires Legal(item) && OneLiner(b)
    ensures Legal(MovedItem(item, a, b))
  {
    if !item.Verbatim? && item.moves && a <= item.path {
      assert forall c :: c in item.path[|a|..] ==> c in item.path;
    }
  }

  /**
   Relocation of a whole text: moving the tree and its roots keeps what is hashed of the
   preprocessed text exactly when every path in the tree is under a root, and a pragma's
   is looked at.
   */
  lemma RelocatedText(roots: seq<Roots.Root>, collectPch: bool, a: string, b: string, items: seq<Item>)
    requires Roots.Movable(roots, a, b) && OneLiner(b) && NamesOneLine(roots)
    requires forall i :: 0 <= i < |items| ==> Legal(items[i]) && Placed(roots, a, b, items[i])
    ensures NormalText(Under(Roots.Moved(roots, b, |a|), collectPch), Lines(TextOf(MovedItems(items, a, b))))
            == NormalText(Under(roots, collectPch), Lines(TextOf(items)))
            <==> a == b || forall i :: 0 <= i < |items| ==> Hidden(roots, collectPch, items[i])
  {
    var moved, items' := Roots.Moved(roots, b, |a|), MovedItems(items, a, b);
    var o, o' := Under(roots, collectPch), Under(moved, collectPch);
    assert NamesOneLine(moved);
    forall i | 0 <= i < |items|
      ensures Legal(items'[i]) && OneLiner(Shown(o', items'[i])) && OneLiner(Shown(o, items[i]))
      ensures Shown(o', items'[i]) == Shown(o, items[i]) <==> a == b || Hidden(roots, collectPch, items[i])
    {
      MovedLegal(items[i], a, b);
      ShownOneLine(moved, collectPch, items'[i]);
      ShownOneLine(roots, collectPch, items[i]);
      RelocatedItem(roots, collectPch, a, b, items[i]);
    }
    TextNormal(o', items');
    TextNormal(o, items);
    LinesAgree(o', o, items', items);
  }
}
