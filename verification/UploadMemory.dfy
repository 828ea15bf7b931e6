/** What the daemon keeps in memory for uploads, over every run: all of it is counted, and within the cap. */
module UploadMemory {
  import opened Common
  import opened UploadQueueModel
  import opened UploadRuns

  /** The blob that a worker has of a key. */
  function InHand(s: Sys, k: Key): Option<Blob> {
    if FlightOf(s, k).Some? then FlightOf(s, k).value.item.blob else None
  }

  /** Sizes of the blobs that only a worker still has. */
  ghost function OnlyInHand(s: Sys): map<Key, nat> {
    map k | k in s.q.flightId && InHand(s, k).Some? && Lookup(s.q.ledger.held, k) != InHand(s, k)
      :: InHand(s, k).value.Size()
  }

  /** The bytes of every blob in memory: held for later, or in a worker's hands and held no more. */
  ghost function InMemory(s: Sys): nat {
    Total(HeldSizes(s.q.ledger.held)) + Total(OnlyInHand(s))
  }

  // ---- every blob in a worker's hands is pinned ------------------------------------

  /** It is counted where it is held, or on the pin. */
  predicate Covered(l: Ledger, k: Key, blob: Option<Blob>) {
    blob.Some? ==>
      k in l.pins && l.pins[k].blob == blob.value && (l.pins[k].countedOutsideHeld || Lookup(l.held, k) == blob)
  }

  ghost predicate AllCovered(s: Sys) {
    forall k: Key :: Covered(s.q.ledger, k, InHand(s, k))
  }

  /** Nothing about another key. */
  ghost predicate SameElsewhere(l: Ledger, l': Ledger, k: Key) {
    forall j: Key :: j != k ==> Lookup(l'.held, j) == Lookup(l.held, j) && Lookup(l'.pins, j) == Lookup(l.pins, j)
  }

  lemma DropCovers(l: Ledger, k: Key, blob: Option<Blob>)
    requires Covered(l, k, blob)
    ensures Covered(DropHeld(l, k), k, blob) && SameElsewhere(l, DropHeld(l, k), k)
  {
  }

  lemma HoldCovers(l: Ledger, k: Key, blob: Option<Blob>, newer: Option<Blob>)
    requires Covered(l, k, blob)
    ensures Covered(Hold(l, k, newer), k, blob) && SameElsewhere(l, Hold(l, k, newer), k)
  {
    DropCovers(l, k, blob);
  }

  lemma LandElsewhere(l: Ledger, k: Key)
    ensures SameElsewhere(l, ReleasePin(l, k), k) && SameElsewhere(l, DropHeld(ReleasePin(l, k), k), k)
  {
  }

  /** A step that leaves every other key's flight and ledger alone. */
  lemma CoveredAfter(s: Sys, s': Sys, k: Key)
    requires AllCovered(s) && SameElsewhere(s.q.ledger, s'.q.ledger, k)
    requires forall j: Key :: j != k ==> FlightOf(s', j) == FlightOf(s, j)
    requires Covered(s'.q.ledger, k, InHand(s', k))
    ensures AllCovered(s')
  {
    forall j: Key ensures Covered(s'.q.ledger, j, InHand(s', j)) {
      assert Covered(s.q.ledger, j, InHand(s, j));
      if j != k {
        assert Lookup(s'.q.ledger.held, j) == Lookup(s.q.ledger.held, j);
        assert Lookup(s'.q.ledger.pins, j) == Lookup(s.q.ledger.pins, j);
      }
    }
  }

  lemma CoveredStill(s: Sys, s': Sys)
    requires AllCovered(s) && s'.q.ledger == s.q.ledger && s'.q.flightId == s.q.flightId && s'.flights == s.flights
    ensures AllCovered(s')
  {
    forall k: Key ensures Covered(s'.q.ledger, k, InHand(s', k)) {
      assert Covered(s.q.ledger, k, InHand(s, k));
    }
  }

  // ---- each step -------------------------------------------------------------------

  lemma AcceptCovers(s: Sys, s': Sys, k: Key, blob: Option<Blob>, journal: bool)
    requires AllCovered(s) && s'.q == Accept(s.q, k, blob, journal) && s'.flights == s.flights
    ensures AllCovered(s')
  {
    AcceptKeepsFlights(s.q, k, blob, journal);
    assert Covered(s.q.ledger, k, InHand(s, k));
    HoldCovers(s.q.ledger, k, InHand(s, k), blob);
    CoveredAfter(s, s', k);
  }

  lemma RefuseCovers(s: Sys, p: nat, k: Key, bytes: string)
    requires AllCovered(s)
    ensures AllCovered(RefuseStore(s, p, k, bytes))
  {
    var s' := RefuseStore(s, p, k, bytes);
    assert Covered(s.q.ledger, k, InHand(s, k));
    DropCovers(s.q.ledger, k, InHand(s, k));
    assert s'.q.flightId == s.q.flightId && s'.flights == s.flights;
    CoveredAfter(s, s', k);
  }

  lemma TakeCovers(s: Sys, now: int)
    requires Inv(s) && AllCovered(s)
    ensures AllCovered(TakeNext(s, now))
  {
    var i := FirstReady(s.q, 0, now);
    if i < |s.q.order| {
      var k, s' := s.q.order[i], TakeNext(s, now);
      assert KeyOk(k, View(s, k));
      TakeFrame(s, now);
      TakeShows(s, now);
      forall j: Key | j != k ensures FlightOf(s', j) == FlightOf(s, j) {
        assert View(s', j) == View(s, j);
      }
      assert s'.q.ledger == PinFor(s.q.ledger, s.q.waiting[k]);
      assert Lookup(s.q.ledger.held, k) == s.q.waiting[k].blob;
      CoveredAfter(s, s', k);
    }
  }

  lemma StartCovers(s: Sys, p: nat)
    requires KeysOk(s) && FlightsOk(s) && AllCovered(s) && p in s.puts && s.puts[p].key !in s.q.inFlight
    ensures AllCovered(StartSync(s, p))
  {
    var s', k := StartSync(s, p), s.puts[p].key;
    SyncIsLaunch(s, p);
    LaunchQueue(s, p);
    forall j: Key | j != k ensures FlightOf(s', j) == FlightOf(s, j) {
      FlightsApart(s, s.q.nextFlight, j);
    }
    CoveredAfter(s, s', k);
  }

  lemma ResumeCovers(s: Sys, p: nat)
    requires Inv(s) && AllCovered(s) && p in s.puts
    ensures AllCovered(ResumePut(s, p))
  {
    TakeBackFrame(s, p);
    var (s1, overtaken) := TakeBack(s, p);
    SameKeys(s, s1);
    CoveredStill(s, s1);
    if overtaken {
      CoveredStill(s1, s1.(puts := s1.puts - {p}));
    } else if s1.puts[p].key in s1.q.inFlight {
      CoveredStill(s1, Watch(s1, p));
    } else {
      StartCovers(s1, p);
    }
  }

  /** A flight's progress changes its value and not what the worker holds. */
  lemma ProgressCovers(s: Sys, s': Sys, f: nat)
    requires FlightsOk(s) && AllCovered(s) && f in s.flights && f in s'.flights && s'.q == s.q
    requires s'.flights == s.flights[f := s'.flights[f]] && s'.flights[f].item == s.flights[f].item
    ensures AllCovered(s')
  {
    forall k: Key ensures InHand(s', k) == InHand(s, k) {
    }
    forall k: Key ensures Covered(s'.q.ledger, k, InHand(s', k)) {
      assert Covered(s.q.ledger, k, InHand(s, k));
    }
  }

  /** The flight is over: its pin is gone, and what is held for its key stays or goes. */
  ghost predicate Landed(s: Sys, s': Sys, f: nat, k: Key) {
    && s'.flights == s.flights - {f} && s'.q.flightId == s.q.flightId - {k}
    && (|| s'.q.ledger == ReleasePin(s.q.ledger, k)
        || s'.q.ledger == DropHeld(ReleasePin(s.q.ledger, k), k))
  }

  lemma FinishLands(s: Sys, f: nat, fl: Flight)
    ensures Landed(s, FinishFlight(s, f, fl), f, fl.item.key)
  {
  }

  lemma RetryLands(s: Sys, f: nat, fl: Flight, retryAt: int)
    ensures Landed(s, RetryFlight(s, f, fl, retryAt), f, fl.item.key)
  {
  }

  lemma RetireLands(s: Sys, f: nat, retryAt: int)
    requires f in s.flights
    ensures Landed(s, Next(s, Retire(f, retryAt)), f, s.flights[f].item.key)
  {
    RetireIs(s, f, retryAt);
    if Retries(s.flights[f]) {
      RetryLands(s, f, s.flights[f], retryAt);
    } else {
      FinishLands(s, f, s.flights[f]);
    }
  }

  lemma LandedCovers(s: Sys, s': Sys, f: nat)
    requires Inv(s) && AllCovered(s) && f in s.flights && Landed(s, s', f, s.flights[f].item.key)
    ensures AllCovered(s')
  {
    var k := s.flights[f].item.key;
    LandElsewhere(s.q.ledger, k);
    forall j: Key | j != k ensures FlightOf(s', j) == FlightOf(s, j) {
      FlightsApart(s, f, j);
    }
    CoveredAfter(s, s', k);
  }

  lemma RetireCovers(s: Sys, f: nat, retryAt: int)
    requires Inv(s) && AllCovered(s) && f in s.flights
    ensures AllCovered(Next(s, Retire(f, retryAt)))
  {
    RetireLands(s, f, retryAt);
    LandedCovers(s, Next(s, Retire(f, retryAt)), f);
  }

  lemma StoreCovers(s: Sys, p: nat, k: Key, blob: Blob)
    requires AllCovered(s) && Enabled(s, StoreMemory(p, k, blob))
    ensures AllCovered(Next(s, StoreMemory(p, k, blob)))
  {
    if Refuses(s.q, k, Some(blob)) {
      RefuseCovers(s, p, k, blob.bytes);
    } else {
      AcceptCovers(s, Next(s, StoreMemory(p, k, blob)), k, Some(blob), false);
    }
  }

  /** A store to disk or a marker queued again. */
  lemma DiskStoreCovers(s: Sys, step: Step)
    requires AllCovered(s) && (step.StoreDisk? || step.Recover?) && Enabled(s, step)
    ensures AllCovered(Next(s, step))
  {
    AcceptCovers(s, Next(s, step), step.key, None, step.StoreDisk?);
  }

  lemma LoadOrSendCovers(s: Sys, step: Step)
    requires FlightsOk(s) && AllCovered(s) && (step.Load? || step.Send?) && Enabled(s, step)
    ensures AllCovered(Next(s, step))
  {
    ProgressCovers(s, Next(s, step), step.flight);
  }

  lemma DiskCovers(s: Sys, step: Step)
    requires AllCovered(s) && (step.DiskWrite? || step.DiskEvict?)
    ensures AllCovered(Next(s, step))
  {
    CoveredStill(s, Next(s, step));
  }

  lemma StepCovers(s: Sys, step: Step)
    requires Inv(s) && AllCovered(s) && Enabled(s, step)
    ensures AllCovered(Next(s, step))
  {
    match step
    case StoreDisk(_) => DiskStoreCovers(s, step);
    case StoreMemory(p, k, blob) => StoreCovers(s, p, k, blob);
    case Recover(_) => DiskStoreCovers(s, step);
    case Resume(p) => ResumeCovers(s, p);
    case Take(now) => TakeCovers(s, now);
    case Load(_) => LoadOrSendCovers(s, step);
    case Send(_, _, _) => LoadOrSendCovers(s, step);
    case Retire(f, retryAt) => RetireCovers(s, f, retryAt);
    case DiskWrite(_, _) => DiskCovers(s, step);
    case DiskEvict(_) => DiskCovers(s, step);
    case Crash =>
  }

  // ---- the accounts of a run -------------------------------------------------------

  lemma ResumeAccounted(s: Sys, p: nat)
    requires Accounted(s.q) && p in s.puts
    ensures Accounted(ResumePut(s, p).q) && ResumePut(s, p).q.maxHeldBytes == s.q.maxHeldBytes
  {
    var (s1, overtaken) := TakeBack(s, p);
    assert Accounted(s1.q) && s1.q.maxHeldBytes == s.q.maxHeldBytes;
    if !overtaken && s1.puts[p].key !in s1.q.inFlight {
      SyncIsLaunch(s1, p);
      LaunchQueue(s1, p);
    }
  }

  lemma FinishedAccounted(s: Sys, f: nat, fl: Flight)
    requires Accounted(s.q)
    ensures var s' := FinishFlight(s, f, fl); Accounted(s'.q) && s'.q.maxHeldBytes == s.q.maxHeldBytes
  {
    ApplyAccounted(s.q, CallFinish(fl.item));
  }

  lemma RetriedAccounted(s: Sys, f: nat, fl: Flight, retryAt: int)
    requires Accounted(s.q)
    ensures var s' := RetryFlight(s, f, fl, retryAt); Accounted(s'.q) && s'.q.maxHeldBytes == s.q.maxHeldBytes
  {
    ApplyAccounted(s.q, CallRequeue(fl.item.(attempts := fl.item.attempts + 1, notBefore := retryAt)));
  }

  lemma RetireAccounted(s: Sys, f: nat, retryAt: int)
    requires Accounted(s.q) && f in s.flights
    ensures var s' := Next(s, Retire(f, retryAt)); Accounted(s'.q) && s'.q.maxHeldBytes == s.q.maxHeldBytes
  {
    RetireIs(s, f, retryAt);
    if Retries(s.flights[f]) {
      RetriedAccounted(s, f, s.flights[f], retryAt);
    } else {
      FinishedAccounted(s, f, s.flights[f]);
    }
  }

  lemma StepAccounted(s: Sys, step: Step)
    requires Accounted(s.q) && Enabled(s, step)
    ensures Accounted(Next(s, step).q) && Next(s, step).q.maxHeldBytes == s.q.maxHeldBytes
  {
    match step
    case StoreDisk(k) => EnqueueAccounted(s.q, k, None, true);
    case StoreMemory(p, k, blob) => EnqueueAccounted(s.q, k, Some(blob), false);
    case Recover(k) => EnqueueAccounted(s.q, k, None, false);
    case Resume(p) => ResumeAccounted(s, p);
    case Take(now) => TakeReadyAccounted(s.q, now);
    case Retire(f, retryAt) => RetireAccounted(s, f, retryAt);
    case Crash => EmptyIsAccounted(s.q.maxHeldBytes, s.q.journal);
    case _ =>
  }

  lemma {:induction false} RunAccounted(s: Sys, steps: seq<Step>)
    requires Accounted(s.q) && IsRun(s, steps)
    ensures Accounted(After(s, steps).q) && After(s, steps).q.maxHeldBytes == s.q.maxHeldBytes
    decreases |steps|
  {
    if steps != [] {
      StepAccounted(s, steps[0]);
      RunAccounted(Next(s, steps[0]), steps[1..]);
    }
  }

  lemma {:induction false} RunCovers(s: Sys, steps: seq<Step>)
    requires Inv(s) && AllCovered(s) && IsRun(s, steps) && IsDisciplined(s, steps)
    ensures AllCovered(After(s, steps))
    decreases |steps|
  {
    if steps != [] {
      StepKeeps(s, steps[0]);
      StepCovers(s, steps[0]);
      RunCovers(Next(s, steps[0]), steps[1..]);
    }
  }

  // ---- nothing in memory is left out -----------------------------------------------

  lemma {:induction false} TotalAtMost<K>(m: map<K, nat>, n: map<K, nat>)
    requires forall k :: k in m ==> k in n && m[k] <= n[k]
    ensures Total(m) <= Total(n)
    decreases |m|
  {
    if m != map[] {
      var k :| k in m;
      TotalRemove(m, k);
      TotalRemove(n, k);
      TotalAtMost(m - {k}, n - {k});
    }
  }

  lemma HandsAreCounted(s: Sys)
    requires AllCovered(s)
    ensures Total(OnlyInHand(s)) <= Total(PinnedOutside(s.q.ledger.pins))
  {
    forall k | k in OnlyInHand(s)
      ensures k in s.q.ledger.pins && OnlyInHand(s)[k] <= PinnedOutside(s.q.ledger.pins)[k]
    {
      assert Covered(s.q.ledger, k, InHand(s, k));
    }
    TotalAtMost(OnlyInHand(s), PinnedOutside(s.q.ledger.pins));
  }

  lemma CoveredIsCapped(s: Sys)
    requires Accounted(s.q) && AllCovered(s)
    ensures InMemory(s) <= s.q.ledger.heldBytes <= s.q.maxHeldBytes
  {
    HandsAreCounted(s);
  }

  lemma RunIsAccounted(maxHeldBytes: nat, steps: seq<Step>)
    requires IsRun(Init(maxHeldBytes), steps)
    ensures var s := After(Init(maxHeldBytes), steps); Accounted(s.q) && s.q.maxHeldBytes == maxHeldBytes
  {
    EmptyIsAccounted(maxHeldBytes, {});
    RunAccounted(Init(maxHeldBytes), steps);
  }

  lemma RunIsCovered(maxHeldBytes: nat, steps: seq<Step>)
    requires IsRun(Init(maxHeldBytes), steps) && IsDisciplined(Init(maxHeldBytes), steps)
    ensures AllCovered(After(Init(maxHeldBytes), steps))
  {
    InitKeeps(maxHeldBytes);
    RunCovers(Init(maxHeldBytes), steps);
  }

  /**
   In every run, the blobs in memory - those held for later and those that only a worker
   still has - never take more than the cap, and the counter misses none of them.
   */
  lemma MemoryIsCapped(maxHeldBytes: nat, steps: seq<Step>)
    requires IsRun(Init(maxHeldBytes), steps) && IsDisciplined(Init(maxHeldBytes), steps)
    ensures var s := After(Init(maxHeldBytes), steps);
            InMemory(s) <= s.q.ledger.heldBytes <= maxHeldBytes
  {
    RunIsAccounted(maxHeldBytes, steps);
    RunIsCovered(maxHeldBytes, steps);
    CoveredIsCapped(After(Init(maxHeldBytes), steps));
  }
}
