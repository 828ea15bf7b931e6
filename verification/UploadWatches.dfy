/**
 What a refused store waits for: the very flight that was going on when it was refused or
 looked again, and none that follows it.
 */
module UploadWatches {
  import opened Common
  import opened UploadQueueModel
  import opened UploadRuns

  /** By refusal, the flight of its key that was going on when the refusal was recorded. */
  type Watched = map<nat, nat>

  predicate Watches(s: Sys, p: nat)
    requires p in s.puts
  {
    var (s1, overtaken) := TakeBack(s, p);
    !overtaken && s1.puts[p].key in s1.q.inFlight
  }

  function NextWatched(s: Sys, step: Step, watched: Watched): Watched
    requires Enabled(s, step)
  {
    match step
    case StoreMemory(_, k, blob) =>
      if Refuses(s.q, k, Some(blob)) && k in s.q.flightId then watched[s.q.nextRefusal := s.q.flightId[k]] else watched
    case Resume(p) =>
      if Watches(s, p) && s.puts[p].key in s.q.flightId
      then watched[s.q.nextRefusal := s.q.flightId[s.puts[p].key]] else watched
    case Crash => map[]
    case _ => watched
  }

  ghost function WatchedOf(s: Sys, steps: seq<Step>, watched: Watched): Watched
    requires IsRun(s, steps)
    decreases |steps|
  {
    if steps == [] then watched else WatchedOf(Next(s, steps[0]), steps[1..], NextWatched(s, steps[0], watched))
  }

  // ---- every refusal names the flight it was recorded under ------------------------

  predicate WatchOk(r: Refusal, f: nat, flights: map<nat, Flight>, next: nat) {
    r.flightId == f < next && (f in flights ==> flights[f].item.key == r.key)
  }

  ghost predicate WatchesIn(refusals: map<nat, Refusal>, watched: Watched, flights: map<nat, Flight>, next: nat) {
    forall id :: id in refusals ==> id in watched && WatchOk(refusals[id], watched[id], flights, next)
  }

  ghost predicate WatchesOk(s: Sys, watched: Watched) {
    WatchesIn(s.q.refusals, watched, s.flights, s.q.nextFlight)
  }

  /** Flights only end, or begin under a new number; a flight keeps its key. */
  ghost predicate FlightsMove(flights: map<nat, Flight>, next: nat, flights': map<nat, Flight>, next': nat) {
    next <= next' &&
    forall f :: f in flights' && f < next ==> f in flights && flights'[f].item.key == flights[f].item.key
  }

  lemma FlightsMoved(refusals: map<nat, Refusal>, watched: Watched, flights: map<nat, Flight>, next: nat,
                     flights': map<nat, Flight>, next': nat)
    requires WatchesIn(refusals, watched, flights, next) && FlightsMove(flights, next, flights', next')
    ensures WatchesIn(refusals, watched, flights', next')
  {
  }

  lemma OvertakenWatches(refusals: map<nat, Refusal>, watched: Watched, flights: map<nat, Flight>, next: nat, k: Key)
    requires WatchesIn(refusals, watched, flights, next)
    ensures WatchesIn(Overtaken(refusals, k), watched, flights, next)
  {
  }

  lemma NewWatch(refusals: map<nat, Refusal>, watched: Watched, flights: map<nat, Flight>, next: nat,
                 id: nat, k: Key, f: nat)
    requires WatchesIn(refusals, watched, flights, next) && f < next && f in flights && flights[f].item.key == k
    ensures WatchesIn(refusals[id := Refusal(k, f, false)], watched[id := f], flights, next)
  {
  }

  /** The flight of a key in flight is one of the flights, and is of that key. */
  lemma FlightGoing(s: Sys, k: Key)
    requires Inv(s) && k in s.q.inFlight
    ensures k in s.q.flightId && s.q.flightId[k] in s.flights
    ensures s.flights[s.q.flightId[k]].item.key == k && s.q.flightId[k] < s.q.nextFlight
  {
    assert KeyOk(k, View(s, k));
  }

  // ---- each step -------------------------------------------------------------------

  lemma AcceptWatches(s: Sys, s': Sys, k: Key, blob: Option<Blob>, journal: bool, watched: Watched)
    requires WatchesOk(s, watched) && s'.q == Accept(s.q, k, blob, journal) && s'.flights == s.flights
    ensures WatchesOk(s', watched)
  {
    AcceptRefusals(s.q, k, blob, journal);
    AcceptKeepsFlights(s.q, k, blob, journal);
    OvertakenWatches(s.q.refusals, watched, s.flights, s.q.nextFlight, k);
  }

  lemma RefuseWatches(s: Sys, p: nat, k: Key, bytes: string, watched: Watched)
    requires Inv(s) && WatchesOk(s, watched)
    ensures WatchesOk(RefuseStore(s, p, k, bytes),
                      if k in s.q.flightId then watched[s.q.nextRefusal := s.q.flightId[k]] else watched)
  {
    if k in s.q.inFlight {
      FlightGoing(s, k);
      OvertakenWatches(s.q.refusals, watched, s.flights, s.q.nextFlight, k);
      NewWatch(Overtaken(s.q.refusals, k), watched, s.flights, s.q.nextFlight, s.q.nextRefusal, k, s.q.flightId[k]);
    }
  }

  lemma StoreWatches(s: Sys, p: nat, k: Key, blob: Blob, watched: Watched)
    requires Inv(s) && WatchesOk(s, watched) && Enabled(s, StoreMemory(p, k, blob))
    ensures WatchesOk(Next(s, StoreMemory(p, k, blob)), NextWatched(s, StoreMemory(p, k, blob), watched))
  {
    if Refuses(s.q, k, Some(blob)) {
      RefuseWatches(s, p, k, blob.bytes, watched);
    } else {
      AcceptWatches(s, Next(s, StoreMemory(p, k, blob)), k, Some(blob), false, watched);
    }
  }

  lemma TakeWatches(s: Sys, now: int, watched: Watched)
    requires Inv(s) && WatchesOk(s, watched)
    ensures WatchesOk(TakeNext(s, now), watched)
  {
    var i := FirstReady(s.q, 0, now);
    if i < |s.q.order| {
      var k, s' := s.q.order[i], TakeNext(s, now);
      assert KeyOk(k, View(s, k));
      TakeFrame(s, now);
      FlightsMoved(s.q.refusals, watched, s.flights, s.q.nextFlight, s'.flights, s'.q.nextFlight);
    }
  }

  lemma StartWatches(s: Sys, p: nat, watched: Watched)
    requires WatchesOk(s, watched) && p in s.puts && s.puts[p].key !in s.q.inFlight
    ensures WatchesOk(StartSync(s, p), watched)
  {
    var s' := StartSync(s, p);
    SyncIsLaunch(s, p);
    SyncRefusals(s, p);
    LaunchQueue(s, p);
    FlightsMoved(s.q.refusals, watched, s.flights, s.q.nextFlight, s'.flights, s'.q.nextFlight);
  }

  lemma WatchAgain(s: Sys, p: nat, watched: Watched)
    requires WatchesOk(s, watched) && p in s.puts && s.puts[p].key in s.q.flightId
    requires var k := s.puts[p].key;
             var f := s.q.flightId[k]; f < s.q.nextFlight && f in s.flights && s.flights[f].item.key == k
    ensures WatchesOk(Watch(s, p), watched[s.q.nextRefusal := s.q.flightId[s.puts[p].key]])
  {
    var k := s.puts[p].key;
    NewWatch(s.q.refusals, watched, s.flights, s.q.nextFlight, s.q.nextRefusal, k, s.q.flightId[k]);
  }

  lemma TakeBackWatches(s: Sys, p: nat, watched: Watched)
    requires PutsOk(s) && WatchesOk(s, watched) && p in s.puts
    ensures var (s1, overtaken) := TakeBack(s, p);
            WatchesOk(s1, watched) && WatchesOk(s1.(puts := s1.puts - {p}), watched)
  {
    TakeBackFrame(s, p);
  }

  lemma ResumeWatches(s: Sys, p: nat, watched: Watched)
    requires Inv(s) && WatchesOk(s, watched) && p in s.puts
    ensures WatchesOk(ResumePut(s, p), NextWatched(s, Resume(p), watched))
  {
    TakeBackFrame(s, p);
    TakeBackWatches(s, p, watched);
    var (s1, overtaken) := TakeBack(s, p);
    var k := s.puts[p].key;
    if !overtaken && k in s1.q.inFlight {
      FlightGoing(s, k);
      WatchAgain(s1, p, watched);
    } else if !overtaken {
      StartWatches(s1, p, watched);
    }
  }

  /** The end of a flight leaves the refusals alone. */
  ghost predicate OnlyEnds(s: Sys, s': Sys, f: nat) {
    s'.flights == s.flights - {f} && s'.q.refusals == s.q.refusals && s'.q.nextFlight == s.q.nextFlight
  }

  lemma FinishOnlyEnds(s: Sys, f: nat, fl: Flight)
    ensures OnlyEnds(s, FinishFlight(s, f, fl), f)
  {
  }

  lemma RetryOnlyEnds(s: Sys, f: nat, fl: Flight, retryAt: int)
    ensures OnlyEnds(s, RetryFlight(s, f, fl, retryAt), f)
  {
  }

  lemma RetireWatches(s: Sys, f: nat, retryAt: int, watched: Watched)
    requires WatchesOk(s, watched) && f in s.flights
    ensures WatchesOk(Next(s, Retire(f, retryAt)), watched)
  {
    var s' := Next(s, Retire(f, retryAt));
    RetireIs(s, f, retryAt);
    if Retries(s.flights[f]) {
      RetryOnlyEnds(s, f, s.flights[f], retryAt);
    } else {
      FinishOnlyEnds(s, f, s.flights[f]);
    }
    FlightsMoved(s.q.refusals, watched, s.flights, s.q.nextFlight, s'.flights, s'.q.nextFlight);
  }

  lemma StepWatches(s: Sys, step: Step, watched: Watched)
    requires Inv(s) && WatchesOk(s, watched) && Enabled(s, step)
    ensures WatchesOk(Next(s, step), NextWatched(s, step, watched))
  {
    match step
    case StoreDisk(k) => AcceptWatches(s, Next(s, step), k, None, true, watched);
    case StoreMemory(p, k, blob) => StoreWatches(s, p, k, blob, watched);
    case Recover(k) => AcceptWatches(s, Next(s, step), k, None, false, watched);
    case Resume(p) => ResumeWatches(s, p, watched);
    case Take(now) => TakeWatches(s, now, watched);
    case Retire(f, retryAt) => RetireWatches(s, f, retryAt, watched);
    case _ =>
  }

  lemma {:induction false} RunWatches(s: Sys, steps: seq<Step>, watched: Watched)
    requires Inv(s) && IsRun(s, steps) && IsDisciplined(s, steps) && WatchesOk(s, watched)
    ensures Inv(After(s, steps)) && WatchesOk(After(s, steps), WatchedOf(s, steps, watched))
    decreases |steps|
  {
    if steps != [] {
      StepKeeps(s, steps[0]);
      StepWatches(s, steps[0], watched);
      RunWatches(Next(s, steps[0]), steps[1..], NextWatched(s, steps[0], watched));
    }
  }

  lemma WaitsForItsFlight(s: Sys, watched: Watched, id: nat)
    requires Inv(s) && WatchesOk(s, watched) && id in s.q.refusals
    ensures id in watched && (RefusalStillInFlight(s.q, id) <==> watched[id] in s.flights)
  {
    var r := s.q.refusals[id];
    assert KeyOk(r.key, View(s, r.key));
  }

  /**
   In every run a refused store that waits goes on waiting exactly while the flight it
   found is going on: not for a later flight of the key, however soon that begins.
   */
  lemma RefusalWaitsForOneFlight(maxHeldBytes: nat, steps: seq<Step>, p: nat)
    requires IsRun(Init(maxHeldBytes), steps) && IsDisciplined(Init(maxHeldBytes), steps)
    requires p in After(Init(maxHeldBytes), steps).puts && After(Init(maxHeldBytes), steps).puts[p].refusal.Some?
    ensures var s, watched := After(Init(maxHeldBytes), steps), WatchedOf(Init(maxHeldBytes), steps, map[]);
            var id := s.puts[p].refusal.value;
            id in watched && (RefusalStillInFlight(s.q, id) <==> watched[id] in s.flights)
  {
    InitKeeps(maxHeldBytes);
    RunWatches(Init(maxHeldBytes), steps, map[]);
    var s := After(Init(maxHeldBytes), steps);
    WaitsForItsFlight(s, WatchedOf(Init(maxHeldBytes), steps, map[]), s.puts[p].refusal.value);
  }
}
