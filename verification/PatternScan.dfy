/** Hashing a stored output while looking for byte patterns in it, one read at a time. */
module PatternScan {
  import opened Common
  import opened Text

  type Digest = string

  datatype Read = Data(bytes: string) | Interrupted

  datatype Scanned = Scanned(digest: Digest, size: nat, found: Option<nat>)

  /** The bytes a sequence of reads delivered. */
  function Content(chunks: seq<Read>): string {
    if chunks == [] then ""
    else Content(chunks[..|chunks| - 1]) + (match chunks[|chunks| - 1] case Data(b) => b case Interrupted => "")
  }

  predicate Matches(patterns: seq<string>, i: nat, text: string) {
    i < |patterns| && patterns[i] != "" && Occurs(text, patterns[i])
  }

  ghost predicate AnyMatches(patterns: seq<string>, text: string) {
    exists i :: Matches(patterns, i, text)
  }

  /** Every non-empty pattern is at most one byte longer than what is carried from read to read. */
  ghost predicate CarriesEnough(patterns: seq<string>, carried: nat) {
    forall i :: 0 <= i < |patterns| ==> |patterns[i]| <= carried + 1
  }

  function Tail(text: string, n: nat): string {
    if |text| <= n then text else text[|text| - n..]
  }

  /**
   Searching the carried tail with the new bytes finds exactly what searching
   everything would, if the rest had nothing.
   */
  lemma TailSuffices(text: string, more: string, patterns: seq<string>, carried: nat, i: nat)
    requires CarriesEnough(patterns, carried) && !Matches(patterns, i, text)
    ensures Matches(patterns, i, Tail(text, carried) + more) <==> Matches(patterns, i, text + more)
  {
    var n := |text| - |Tail(text, carried)|;
    assert text[n..] == Tail(text, carried);
    if i < |patterns| && patterns[i] != "" {
      var p := patterns[i];
      if Occurs(text + more, p) {
        var at :| 0 <= at <= |text + more| - |p| && OccursAt(text + more, p, at);
        OccursAcross(text, more, p, at);
        assert at + |p| > |text|;
        assert OccursAt(text[n..] + more, p, at - n);
      }
      if Occurs(text[n..] + more, p) {
        OccursIn(text[n..] + more, text[..n], "", p);
        assert text[..n] + (text[n..] + more) + "" == text + more;
      }
    }
  }

  lemma TailOfTail(text: string, more: string, n: nat)
    ensures Tail(Tail(text, n) + more, n) == Tail(text + more, n)
  {
  }

  method CarriedBytes(patterns: seq<string>) returns (carried: nat)
    ensures CarriesEnough(patterns, carried)
    ensures carried == 0 || exists i :: 0 <= i < |patterns| && |patterns[i]| == carried + 1
  {
    carried := 0;
    for i := 0 to |patterns|
      invariant forall j :: 0 <= j < i ==> |patterns[j]| <= carried + 1
      invariant carried == 0 || exists j :: 0 <= j < i && |patterns[j]| == carried + 1
    {
      if patterns[i] != "" && |patterns[i]| - 1 > carried {
        carried := |patterns[i]| - 1;
      }
    }
  }

  /** The first non-empty pattern that occurs in the window. */
  method FindPattern(window: string, patterns: seq<string>) returns (found: Option<nat>)
    ensures found.Some? ==> Matches(patterns, found.value, window)
                            && forall j :: 0 <= j < found.value ==> !Matches(patterns, j, window)
    ensures found.None? ==> !AnyMatches(patterns, window)
  {
    for i := 0 to |patterns|
      invariant forall j :: 0 <= j < i ==> !Matches(patterns, j, window)
    {
      if patterns[i] != "" && Occurs(window, patterns[i]) {
        return Some(i);
      }
    }
    found := None;
  }

  /**
   For every content, pattern list and sequence of reads: the digest and size
   are those of the whole content, a pattern is reported exactly when some
   non-empty pattern occurs in the whole content, and the reported one does.
   A read error, or a size other than the one fstat gave, reports nothing.
   */
  method HashAndScanFile(chunks: seq<Read>, readError: bool, statSize: nat, patterns: seq<string>,
                         hash: string -> Digest)
    returns (r: Option<Scanned>)
    ensures r.Some? <==> !readError && |Content(chunks)| == statSize
    ensures r.Some? ==> r.value.digest == hash(Content(chunks)) && r.value.size == |Content(chunks)|
    ensures r.Some? ==> (r.value.found.Some? <==> AnyMatches(patterns, Content(chunks)))
    ensures r.Some? && r.value.found.Some? ==> Matches(patterns, r.value.found.value, Content(chunks))
  {
    var carried := CarriedBytes(patterns);
    var hashed, window := "", "";
    var found: Option<nat> := None;
    var size := 0;
    for i := 0 to |chunks|
      invariant hashed == Content(chunks[..i]) && size == |hashed|
      invariant found.None? ==> window == Tail(hashed, carried) && !AnyMatches(patterns, hashed)
      invariant found.Some? ==> Matches(patterns, found.value, hashed)
    {
      assert chunks[..i + 1][..i] == chunks[..i];
      if chunks[i].Interrupted? {
        assert Content(chunks[..i + 1]) == hashed;
        continue;
      }
      var buf := chunks[i].bytes;
      assert Content(chunks[..i + 1]) == hashed + buf;
      if found.Some? {
        assert hashed + buf == "" + hashed + buf;
        OccursIn(hashed, "", buf, patterns[found.value]);
      } else {
        forall j: nat ensures Matches(patterns, j, window + buf) <==> Matches(patterns, j, hashed + buf) {
          TailSuffices(hashed, buf, patterns, carried, j);
        }
        TailOfTail(hashed, buf, carried);
        window := window + buf;
        found := FindPattern(window, patterns);
        if |window| > carried {
          window := window[|window| - carried..];
        }
      }
      hashed := hashed + buf;
      size := size + |buf|;
    }
    assert chunks[..|chunks|] == chunks;
    if readError || size != statSize {
      return None;
    }
    r := Some(Scanned(hash(hashed), size, found));
  }
}
