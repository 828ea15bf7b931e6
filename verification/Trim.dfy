/**
 Evicting the oldest entries of the disk cache, by one process or by many at
 once. An unlink that finds the entry already gone counts its bytes as freed.
 */
module Trim {
  import opened Paths

  datatype Entry = Entry(path: Path, size: nat, lruTime: int)

  /** Why an entry may stay: its upload is pending, or its unlink fails with something other than ENOENT. */
  datatype Limits = Limits(pinned: set<Path>, stuck: set<Path>)

  predicate Stays(e: Entry, limits: Limits) {
    e.path in limits.pinned || e.path in limits.stuck
  }

  function Bytes(entries: seq<Entry>): nat {
    if entries == [] then 0 else entries[0].size + Bytes(entries[1..])
  }

  ghost predicate OldestFirst(entries: seq<Entry>) {
    forall i, j :: 0 <= i < j < |entries| ==> entries[i].lruTime <= entries[j].lruTime
  }

  function InsertByAge(e: Entry, sorted: seq<Entry>): seq<Entry> {
    if sorted == [] || e.lruTime <= sorted[0].lruTime then [e] + sorted else [sorted[0]] + InsertByAge(e, sorted[1..])
  }

  lemma BytesCons(e: Entry, rest: seq<Entry>)
    ensures Bytes([e] + rest) == e.size + Bytes(rest)
  {
    assert ([e] + rest)[1..] == rest;
  }

  /** Nothing is lost or added. */
  lemma {:induction false} InsertKeepsAll(e: Entry, sorted: seq<Entry>)
    ensures multiset(InsertByAge(e, sorted)) == multiset(sorted) + multiset{e}
    ensures Bytes(InsertByAge(e, sorted)) == Bytes(sorted) + e.size
  {
    if sorted == [] || e.lruTime <= sorted[0].lruTime {
      BytesCons(e, sorted);
    } else {
      InsertKeepsAll(e, sorted[1..]);
      BytesCons(sorted[0], InsertByAge(e, sorted[1..]));
      assert sorted == [sorted[0]] + sorted[1..];
    }
  }

  lemma {:induction false} InsertKeepsOrder(e: Entry, sorted: seq<Entry>)
    requires OldestFirst(sorted)
    ensures OldestFirst(InsertByAge(e, sorted))
    ensures forall x :: x in InsertByAge(e, sorted) ==> x == e || x in sorted
  {
    if sorted != [] && e.lruTime > sorted[0].lruTime {
      InsertKeepsOrder(e, sorted[1..]);
      var rest := InsertByAge(e, sorted[1..]);
      forall i | 0 <= i < |rest| ensures sorted[0].lruTime <= rest[i].lruTime {
        assert rest[i] in rest;
      }
    }
  }

  method SortOldestFirst(entries: seq<Entry>) returns (sorted: seq<Entry>)
    ensures OldestFirst(sorted) && multiset(sorted) == multiset(entries) && Bytes(sorted) == Bytes(entries)
  {
    sorted := [];
    var i := |entries|;
    while i > 0
      invariant 0 <= i <= |entries|
      invariant OldestFirst(sorted) && multiset(sorted) == multiset(entries[i..])
                && Bytes(sorted) == Bytes(entries[i..])
    {
      i := i - 1;
      assert entries[i..] == [entries[i]] + entries[i + 1..];
      InsertKeepsOrder(entries[i], sorted);
      InsertKeepsAll(entries[i], sorted);
      BytesCons(entries[i], entries[i + 1..]);
      sorted := InsertByAge(entries[i], sorted);
    }
    assert entries[0..] == entries;
  }

  // ---- pins ------------------------------------------------------------------------

  function PathForKey(dir: Path, key: string): Path
    requires |key| >= 2
  {
    dir + "/" + key[..2] + "/" + key[2..]
  }

  /** An entry is pinned while the journal has a marker named after it. */
  predicate IsPendingUpload(entry: Path, journal: set<string>) {
    var name, shard := BaseName(entry), BaseName(DirName(entry));
    |shard| == 2 && name != "" && shard + name in journal
  }

  /** The journal pins exactly the entries of the keys it names. */
  lemma PinsJournalledKeys(dir: Path, key: string, journal: set<string>)
    requires dir != "" && |key| >= 3 && '/' !in key
    ensures IsPendingUpload(PathForKey(dir, key), journal) <==> key in journal
  {
    var shard := dir + "/" + key[..2];
    JoinedNames(dir, key[..2]);
    JoinedNames(shard, key[2..]);
    assert key[..2] + key[2..] == key;
  }

  /** The listed entries that are pinned. A journal that no daemon is alive to send pins nothing. */
  function Pins(listing: seq<Entry>, journal: set<string>, daemonAlive: bool): set<Path> {
    set e | e in listing && daemonAlive && IsPendingUpload(e.path, journal) :: e.path
  }

  // ---- what one trimmer evicts -----------------------------------------------------

  /** The entries a trimmer frees, going down the list while more than `target` bytes remain. */
  function Evicted(entries: seq<Entry>, total: int, target: nat, limits: Limits): seq<Entry>
    decreases |entries|
  {
    if entries == [] || total <= target then []
    else if Stays(entries[0], limits) then Evicted(entries[1..], total, target, limits)
    else [entries[0]] + Evicted(entries[1..], total - entries[0].size, target, limits)
  }

  /** The entries that could be evicted at all, oldest first. */
  function Evictable(entries: seq<Entry>, limits: Limits): seq<Entry> {
    if entries == [] then []
    else (if Stays(entries[0], limits) then [] else [entries[0]]) + Evictable(entries[1..], limits)
  }

  /** Those are the entries that are neither pinned nor stuck, as often as they are listed. */
  lemma {:induction false} EvictableExactly(entries: seq<Entry>, limits: Limits, e: Entry)
    ensures multiset(Evictable(entries, limits))[e] ==
            if e.path in limits.pinned || e.path in limits.stuck then 0 else multiset(entries)[e]
  {
    if entries != [] {
      assert entries == [entries[0]] + entries[1..];
      EvictableExactly(entries[1..], limits, e);
    }
  }

  /** And they are in the order they are listed in. */
  lemma {:induction false} EvictableOldestFirst(entries: seq<Entry>, limits: Limits)
    requires OldestFirst(entries)
    ensures OldestFirst(Evictable(entries, limits))
    ensures forall x :: x in Evictable(entries, limits) ==> x in entries
  {
    if entries != [] {
      EvictableOldestFirst(entries[1..], limits);
      var rest := Evictable(entries[1..], limits);
      forall i | 0 <= i < |rest| ensures entries[0].lruTime <= rest[i].lruTime {
        assert rest[i] in entries[1..];
      }
    }
  }

  /** Nothing pinned or stuck is freed. */
  lemma EvictedAreFree(entries: seq<Entry>, total: int, target: nat, limits: Limits)
    ensures PathsOf(Evicted(entries, total, target, limits)) !! limits.pinned + limits.stuck
  {
    var gone, all := Evicted(entries, total, target, limits), Evictable(entries, limits);
    EvictsOldestJustEnough(entries, total, target, limits);
    forall e | e in gone ensures e.path !in limits.pinned && e.path !in limits.stuck {
      EvictableExactly(entries, limits, e);
      assert e in all && multiset(all)[e] > 0;
    }
  }

  /** Eviction takes the oldest evictable entries, no more than needed and no fewer than possible. */
  lemma {:induction false} EvictsOldestJustEnough(entries: seq<Entry>, total: int, target: nat, limits: Limits)
    ensures var gone, all := Evicted(entries, total, target, limits), Evictable(entries, limits);
            && gone <= all
            && (total - Bytes(gone) <= target || gone == all)
            && (forall n :: 0 <= n < |gone| ==> total - Bytes(gone[..n]) > target)
    decreases |entries|
  {
    if entries != [] && total > target {
      var e := entries[0];
      if Stays(e, limits) {
        EvictsOldestJustEnough(entries[1..], total, target, limits);
      } else {
        EvictsOldestJustEnough(entries[1..], total - e.size, target, limits);
        var rest := Evicted(entries[1..], total - e.size, target, limits);
        assert ([e] + rest)[1..] == rest;
        forall n | 0 <= n < |[e] + rest| ensures total - Bytes(([e] + rest)[..n]) > target {
          if n > 0 {
            assert ([e] + rest)[..n][1..] == rest[..n - 1];
          }
        }
      }
    }
  }

  function PathsOf(entries: seq<Entry>): set<Path> {
    set e | e in entries :: e.path
  }

  lemma PendingStays(entries: seq<Entry>, present: set<Path>, total: int, target: nat,
                     journal: set<string>, daemonAlive: bool, stuck: set<Path>)
    ensures var gone := Evicted(entries, total, target, Limits(Pins(entries, journal, daemonAlive), stuck));
            && present * stuck <= present - PathsOf(gone)
            && (daemonAlive ==>
                  forall p :: p in present && IsPendingUpload(p, journal) ==> p in present - PathsOf(gone))
  {
    var limits := Limits(Pins(entries, journal, daemonAlive), stuck);
    var gone := Evicted(entries, total, target, limits);
    EvictedAreFree(entries, total, target, limits);
    EvictsOldestJustEnough(entries, total, target, limits);
    forall e | e in gone && daemonAlive ensures !IsPendingUpload(e.path, journal) {
      EvictableExactly(entries, limits, e);
      assert e in Evictable(entries, limits) && e.path in PathsOf(gone);
      assert multiset(Evictable(entries, limits))[e] > 0 && e in multiset(entries);
    }
  }

  /** So the entry of a key with a marker in the journal stays. */
  lemma MarkedEntryStays(dir: Path, key: string, entries: seq<Entry>, present: set<Path>, total: int, target: nat,
                         journal: set<string>, stuck: set<Path>)
    requires dir != "" && |key| >= 3 && '/' !in key && key in journal && PathForKey(dir, key) in present
    ensures var gone := Evicted(entries, total, target, Limits(Pins(entries, journal, true), stuck));
            PathForKey(dir, key) in present - PathsOf(gone)
  {
    PinsJournalledKeys(dir, key, journal);
    PendingStays(entries, present, total, target, journal, true, stuck);
  }

  lemma PlanStep(entries: seq<Entry>, i: nat, total: int, target: nat, limits: Limits, done: seq<Entry>)
    requires i < |entries| && total > target
    ensures Bytes(entries[i..]) == entries[i].size + Bytes(entries[i + 1..])
    ensures done + Evicted(entries[i..], total, target, limits) ==
            if Stays(entries[i], limits) then done + Evicted(entries[i + 1..], total, target, limits)
            else done + [entries[i]] + Evicted(entries[i + 1..], total - entries[i].size, target, limits)
  {
    assert entries[i..][1..] == entries[i + 1..];
  }

  lemma FreedAppend(done: seq<Entry>, e: Entry)
    ensures Bytes(done + [e]) == Bytes(done) + e.size && PathsOf(done + [e]) == PathsOf(done) + {e.path}
  {
    BytesAppend(done, e);
  }

  /**
   One trim. Over the high-water mark, the entries freed are exactly the
   plan's, and `total` ends as the exact number of bytes left of the listing.
   While a daemon is alive, the entry of a key with a marker in the journal stays.
   */
  method TrimGlobal(listing: seq<Entry>, present: set<Path>, highWater: nat, target: nat,
                    journal: set<string>, daemonAlive: bool, stuck: set<Path>)
    returns (left: set<Path>, total: nat, ghost sorted: seq<Entry>)
    ensures OldestFirst(sorted) && multiset(sorted) == multiset(listing)
    ensures Bytes(listing) <= highWater ==> left == present && total == Bytes(listing)
    ensures Bytes(listing) > highWater ==>
              var gone := Evicted(sorted, Bytes(listing), target, Limits(Pins(sorted, journal, daemonAlive), stuck));
              left == present - PathsOf(gone) && total == Bytes(listing) - Bytes(gone)
    ensures left <= present && present * stuck <= left
    ensures daemonAlive ==> forall p :: p in present && IsPendingUpload(p, journal) ==> p in left
  {
    total := Sum(listing);
    left := present;
    var entries := SortOldestFirst(listing);
    sorted := entries;
    if total <= highWater {
      return;
    }
    left, total := FreeOldest(entries, present, total, target, journal, daemonAlive, stuck);
    PendingStays(entries, present, Bytes(listing), target, journal, daemonAlive, stuck);
  }

  /** The unlink is not tried, or fails. */
  method IsKept(entries: seq<Entry>, i: nat, journal: set<string>, daemonAlive: bool, stuck: set<Path>)
    returns (kept: bool)
    requires i < |entries|
    ensures kept == Stays(entries[i], Limits(Pins(entries, journal, daemonAlive), stuck))
  {
    assert entries[i] in entries;
    kept := (daemonAlive && IsPendingUpload(entries[i].path, journal)) || entries[i].path in stuck;
  }

  /** Goes down the list while more than `target` bytes remain. */
  method FreeOldest(entries: seq<Entry>, present: set<Path>, bytes: nat, target: nat,
                    journal: set<string>, daemonAlive: bool, stuck: set<Path>) returns (left: set<Path>, total: nat)
    requires bytes == Bytes(entries)
    ensures var gone := Evicted(entries, bytes, target, Limits(Pins(entries, journal, daemonAlive), stuck));
            left == present - PathsOf(gone) && total == bytes - Bytes(gone)
  {
    left, total := present, bytes;
    ghost var limits := Limits(Pins(entries, journal, daemonAlive), stuck);
    ghost var plan := Evicted(entries, bytes, target, limits);
    ghost var done: seq<Entry> := [];
    var i := 0;
    assert entries[0..] == entries && done + plan == plan;
    while i < |entries| && total > target
      invariant 0 <= i <= |entries| && total >= Bytes(entries[i..])
      invariant done + Evicted(entries[i..], total, target, limits) == plan
      invariant left == present - PathsOf(done) && total == bytes - Bytes(done)
    {
      var e := entries[i];
      PlanStep(entries, i, total, target, limits, done);
      var kept := IsKept(entries, i, journal, daemonAlive, stuck);
      if !kept {
        // removed here, or already removed by another process: freed either way
        left := left - {e.path};
        total := total - e.size;
        FreedAppend(done, e);
        done := done + [e];
      }
      i := i + 1;
    }
    assert done == plan;
  }

  method Sum(entries: seq<Entry>) returns (total: nat)
    ensures total == Bytes(entries)
  {
    total := 0;
    var i := |entries|;
    while i > 0
      invariant 0 <= i <= |entries| && total == Bytes(entries[i..])
    {
      i := i - 1;
      assert entries[i..][1..] == entries[i + 1..];
      total := total + entries[i].size;
    }
    assert entries[0..] == entries;
  }

  lemma {:induction false} BytesAppend(entries: seq<Entry>, e: Entry)
    ensures Bytes(entries + [e]) == Bytes(entries) + e.size
  {
    if entries == [] {
      assert ([e])[1..] == [];
    } else {
      assert (entries + [e])[1..] == entries[1..] + [e];
      BytesAppend(entries[1..], e);
    }
  }

  // ---- many trimmers at once -------------------------------------------------------

  /** One trimmer's place in the list and its own running total. */
  datatype Trimmer = Trimmer(next: nat, total: int)

  datatype Race = Race(present: set<Path>, trimmers: seq<Trimmer>)

  predicate Busy(t: Trimmer, entries: seq<Entry>, target: nat) {
    t.next < |entries| && t.total > target
  }

  /** Trimmer `who` handles its next entry; the unlink is the only thing the others can see. */
  function StepRace(r: Race, who: nat, entries: seq<Entry>, target: nat, limits: Limits): Race
    requires who < |r.trimmers|
  {
    var t := r.trimmers[who];
    if !Busy(t, entries, target) then r
    else
      var e := entries[t.next];
      if Stays(e, limits) then r.(trimmers := r.trimmers[who := Trimmer(t.next + 1, t.total)])
      else Race(r.present - {e.path}, r.trimmers[who := Trimmer(t.next + 1, t.total - e.size)])
  }

  function RunRace(r: Race, schedule: seq<nat>, entries: seq<Entry>, target: nat, limits: Limits): Race
    requires forall i :: 0 <= i < |schedule| ==> schedule[i] < |r.trimmers|
    decreases |schedule|
  {
    if schedule == [] then r
    else RunRace(StepRace(r, schedule[0], entries, target, limits), schedule[1..], entries, target, limits)
  }

  /**
   A trimmer is on the one path every trimmer of this listing takes: what it freed and
   what it will free is the plan.
   */
  ghost predicate OnPlan(t: Trimmer, gone: seq<Entry>, entries: seq<Entry>, plan: seq<Entry>, target: nat,
                         limits: Limits) {
    t.next <= |entries| && gone + Evicted(entries[t.next..], t.total, target, limits) == plan
  }

  /** What is gone from the disk is what the trimmers freed between them, all of it in the plan. */
  ghost predicate RaceOk(r: Race, gone: seq<seq<Entry>>, start: set<Path>, entries: seq<Entry>, plan: seq<Entry>,
                         target: nat, limits: Limits)
  {
    && |gone| == |r.trimmers|
    && (forall i :: 0 <= i < |gone| ==> OnPlan(r.trimmers[i], gone[i], entries, plan, target, limits))
    && (forall p :: p in r.present <==> p in start && forall i :: 0 <= i < |gone| ==> p !in PathsOf(gone[i]))
  }

  lemma StepRaceOk(r: Race, gone: seq<seq<Entry>>, who: nat, start: set<Path>, entries: seq<Entry>, plan: seq<Entry>,
                   target: nat, limits: Limits) returns (gone': seq<seq<Entry>>)
    requires RaceOk(r, gone, start, entries, plan, target, limits) && who < |r.trimmers|
    ensures RaceOk(StepRace(r, who, entries, target, limits), gone', start, entries, plan, target, limits)
    ensures |StepRace(r, who, entries, target, limits).trimmers| == |r.trimmers|
  {
    var t := r.trimmers[who];
    gone' := gone;
    if Busy(t, entries, target) {
      var e := entries[t.next];
      assert entries[t.next..][1..] == entries[t.next + 1..];
      if !Stays(e, limits) {
        gone' := gone[who := gone[who] + [e]];
        assert PathsOf(gone'[who]) == PathsOf(gone[who]) + {e.path};
        var rest := Evicted(entries[t.next + 1..], t.total - e.size, target, limits);
        assert gone[who] + ([e] + rest) == gone[who] + [e] + rest;
        var r' := StepRace(r, who, entries, target, limits);
        forall p ensures p in r'.present <==> p in start && forall i :: 0 <= i < |gone'| ==> p !in PathsOf(gone'[i]) {
          if p in start && forall i :: 0 <= i < |gone'| ==> p !in PathsOf(gone'[i]) {
            forall i | 0 <= i < |gone| ensures p !in PathsOf(gone[i]) {
              assert p !in PathsOf(gone'[i]);
            }
            assert p !in PathsOf(gone'[who]);
          }
        }
      }
    }
  }

  lemma {:induction false} RaceStaysOk(r: Race, gone: seq<seq<Entry>>, schedule: seq<nat>, start: set<Path>,
                                       entries: seq<Entry>,
                                       plan: seq<Entry>, target: nat, limits: Limits) returns (gone': seq<seq<Entry>>)
    requires RaceOk(r, gone, start, entries, plan, target, limits)
    requires forall i :: 0 <= i < |schedule| ==> schedule[i] < |r.trimmers|
    ensures RaceOk(RunRace(r, schedule, entries, target, limits), gone', start, entries, plan, target, limits)
    decreases |schedule|
  {
    gone' := gone;
    if schedule != [] {
      gone' := StepRaceOk(r, gone, schedule[0], start, entries, plan, target, limits);
      gone' := RaceStaysOk(StepRace(r, schedule[0], entries, target, limits),
                           gone', schedule[1..], start, entries, plan,
                           target, limits);
    }
  }

  /**
   Any number of trimmers that listed the same entries, interleaved unlink by
   unlink: nothing outside one trimmer's plan is ever removed, and once any of
   them has finished, exactly that plan is gone.
   */
  lemma ConcurrentTrimming(n: nat, schedule: seq<nat>, start: set<Path>, entries: seq<Entry>, target: nat,
                           limits: Limits)
    requires forall i :: 0 <= i < |schedule| ==> schedule[i] < n
    ensures var plan := Evicted(entries, Bytes(entries), target, limits);
            var begin := Race(start, seq(n, _ => Trimmer(0, Bytes(entries))));
            var r := RunRace(begin, schedule, entries, target, limits);
            && start - PathsOf(plan) <= r.present
            && start * (limits.pinned + limits.stuck) <= r.present
            && ((exists i :: 0 <= i < |r.trimmers| && !Busy(r.trimmers[i], entries, target)) ==>
                  r.present == start - PathsOf(plan))
  {
    var plan := Evicted(entries, Bytes(entries), target, limits);
    var begin := Race(start, seq(n, _ => Trimmer(0, Bytes(entries))));
    var none: seq<seq<Entry>> := seq(n, _ => []);
    assert entries[0..] == entries;
    forall i | 0 <= i < n ensures OnPlan(begin.trimmers[i], none[i], entries, plan, target, limits) {
      assert none[i] + plan == plan;
    }
    EvictedAreFree(entries, Bytes(entries), target, limits);
    var gone := RaceStaysOk(begin, none, schedule, start, entries, plan, target, limits);
    var r := RunRace(begin, schedule, entries, target, limits);
    forall i | 0 <= i < |gone| ensures PathsOf(gone[i]) <= PathsOf(plan) {
      assert OnPlan(r.trimmers[i], gone[i], entries, plan, target, limits);
      assert gone[i] <= plan;
    }
    forall i | 0 <= i < |r.trimmers| && !Busy(r.trimmers[i], entries, target)
      ensures r.present == start - PathsOf(plan) {
      assert OnPlan(r.trimmers[i], gone[i], entries, plan, target, limits);
      assert gone[i] == plan;
    }
  }
}
