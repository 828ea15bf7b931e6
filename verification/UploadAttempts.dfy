/**
 When an upload is given up. A failed send is tried again until the third, but the sends
 are counted per key and not per store: a store accepted while a retry of its key waits
 goes on from that retry's count.
 */
module UploadAttempts {
  import opened Common
  import opened UploadQueueModel
  import opened UploadRaces
  import opened UploadRuns

  /**
   Of what is queued for a key: how many failed sends the retry had that was waiting when
   it was accepted, how many sends of its own have failed since, and the time set for the
   next one.
   */
  datatype Tally = Tally(inherited: nat, own: nat, due: int)

  const NO_TALLY := Tally(0, 0, 0)

  /** A store is accepted, or a marker queued again: it takes the place of one that waits. */
  function Joining(waiting: bool, t: Tally): Tally {
    if waiting then Tally(t.inherited + t.own, 0, t.due) else NO_TALLY
  }

  /** A send that is over, by a worker, of what is still the newest accepted store. */
  predicate FailedSend(s: Sys, f: nat)
    requires f in s.flights
  {
    var fl := s.flights[f];
    && !fl.sync && fl.value.Some? && !fl.landed
    && fl.item.key !in s.q.superseded && Generation(s.q, fl.item.key) == fl.item.generation
  }

  function NextTally(s: Sys, step: Step, k: Key, t: Tally): Tally
    requires Enabled(s, step)
  {
    match step
    case StoreDisk(j) => if j == k then Joining(k in s.q.waiting, t) else t
    case StoreMemory(_, j, blob) => if j == k && !Refuses(s.q, j, Some(blob)) then Joining(k in s.q.waiting, t) else t
    case Recover(j) => if j == k then Joining(k in s.q.waiting, t) else t
    case Retire(f, retryAt) =>
      if s.flights[f].item.key != k then t
      else Tally(t.inherited, t.own + if FailedSend(s, f) then 1 else 0, if Retries(s.flights[f]) then retryAt else 0)
    case _ => t
  }

  ghost function TallyOf(s: Sys, steps: seq<Step>, k: Key, t: Tally): Tally
    requires IsRun(s, steps)
    decreases |steps|
  {
    if steps == [] then t else TallyOf(Next(s, steps[0]), steps[1..], k, NextTally(s, steps[0], k, t))
  }

  // ---- the count an item carries ---------------------------------------------------

  /** What is queued has the tally's count, and a store that waits for a flight to end starts from none. */
  predicate TallyOk(v: KeyView, t: Tally) {
    && (v.waiting.Some? ==>
          v.waiting.value.attempts == t.inherited + t.own < MAX_ATTEMPTS && v.waiting.value.notBefore == t.due)
    && (v.flying && v.flight.Some? && v.gen.Some? && !v.superseded ==>
          var f := v.flight.value;
          && (f.item.generation == v.gen.value && !f.sync ==> f.item.attempts == t.inherited + t.own < MAX_ATTEMPTS)
          && (f.item.generation != v.gen.value ==> t.inherited == 0 && t.own == 0))
  }

  lemma AcceptedTally(k: Key, v: KeyView, blob: Option<Blob>, journal: bool, src: Source, arrival: nat, t: Tally)
    requires KeyOk(k, v) && TallyOk(v, t)
    ensures TallyOk(AcceptedView(k, v, blob, journal, src, arrival), Joining(v.waiting.Some?, t))
  {
  }

  lemma RecoveredTally(k: Key, v: KeyView, t: Tally)
    requires KeyOk(k, v) && TallyOk(v, t)
    ensures TallyOk(RecoveredView(k, v), Joining(v.waiting.Some?, t))
  {
  }

  lemma RefusedTally(k: Key, v: KeyView, t: Tally)
    requires KeyOk(k, v) && TallyOk(v, t)
    ensures TallyOk(RefusedView(v), t)
  {
  }

  lemma TakenTally(k: Key, v: KeyView, t: Tally)
    requires KeyOk(k, v) && TallyOk(v, t) && v.waiting.Some?
    ensures TallyOk(TakenView(v), t)
  {
  }

  lemma SyncTally(k: Key, v: KeyView, put: Put, t: Tally)
    requires TallyOk(v, t)
    ensures TallyOk(SyncView(k, v, put), t)
  {
    assert TallyOk(LaunchView(k, v, put), t);
  }

  /** A flight that ends: its tally grows if it failed and nothing newer replaced what it sent. */
  function RetiredTally(v: KeyView, t: Tally, retryAt: int): Tally
    requires v.flight.Some?
  {
    var f := v.flight.value;
    var failed := !f.sync && f.value.Some? && !f.landed && !v.superseded && v.gen == Some(f.item.generation);
    Tally(t.inherited, t.own + if failed then 1 else 0, if Retries(f) then retryAt else 0)
  }

  /** What the end of its flight makes of a key. */
  function EndView(k: Key, v: KeyView, retryAt: int): KeyView
    requires v.flight.Some?
  {
    if Retries(v.flight.value) then RetriedView(v, retryAt) else FinishedView(k, v)
  }

  lemma EndTally(k: Key, v: KeyView, retryAt: int, t: Tally)
    requires KeyOk(k, v) && TallyOk(v, t) && v.flight.Some?
    ensures TallyOk(EndView(k, v, retryAt), RetiredTally(v, t, retryAt))
  {
  }

  /** A failed send of the newest accepted store is tried again unless it is the third. */
  lemma EndWaits(k: Key, v: KeyView, retryAt: int, t: Tally)
    requires KeyOk(k, v) && TallyOk(v, t) && v.flight.Some? && RetiredTally(v, t, retryAt).own == t.own + 1
    ensures EndView(k, v, retryAt).waiting.Some? <==> t.inherited + t.own + 1 < MAX_ATTEMPTS
  {
  }

  // ---- every step keeps the count --------------------------------------------------

  lemma AcceptTallies(s: Sys, j: Key, blob: Option<Blob>, journal: bool, src: Source, k: Key, t: Tally)
    requires Inv(s) && TallyOk(View(s, k), t)
    ensures TallyOk(View(AcceptStore(s, j, blob, journal, src), k), if j == k then Joining(k in s.q.waiting, t) else t)
  {
    assert KeyOk(k, View(s, k));
    if j == k {
      AcceptShows(s, k, blob, journal, src);
      AcceptedTally(k, View(s, k), blob, journal, src, s.h.arrivals, t);
    } else {
      AcceptElsewhere(s, j, blob, journal, src, k);
    }
  }

  lemma RefuseTallies(s: Sys, p: nat, j: Key, bytes: string, k: Key, t: Tally)
    requires Inv(s) && TallyOk(View(s, k), t)
    ensures TallyOk(View(RefuseStore(s, p, j, bytes), k), t)
  {
    assert KeyOk(k, View(s, k));
    if j == k {
      RefuseShows(s, p, k, bytes);
      RefusedTally(k, View(s, k), t);
    } else {
      RefuseElsewhere(s, p, j, bytes, k);
    }
  }

  lemma RecoverTallies(s: Sys, j: Key, k: Key, t: Tally)
    requires Inv(s) && TallyOk(View(s, k), t)
    ensures TallyOk(View(RecoverStore(s, j), k), if j == k then Joining(k in s.q.waiting, t) else t)
  {
    assert KeyOk(k, View(s, k));
    if j == k {
      RecoverShows(s, k);
      RecoveredTally(k, View(s, k), t);
    } else {
      RecoverElsewhere(s, j, k);
    }
  }

  lemma TakeTallies(s: Sys, now: int, k: Key, t: Tally)
    requires Inv(s) && TallyOk(View(s, k), t)
    ensures TallyOk(View(TakeNext(s, now), k), t)
  {
    var i := FirstReady(s.q, 0, now);
    if i < |s.q.order| {
      assert KeyOk(k, View(s, k)) && KeyOk(s.q.order[i], View(s, s.q.order[i]));
      TakeShows(s, now);
      if k == s.q.order[i] {
        TakenTally(k, View(s, k), t);
      }
    }
  }

  lemma StartTallies(s: Sys, p: nat, k: Key, t: Tally)
    requires KeysOk(s) && FlightsOk(s) && TallyOk(View(s, k), t) && p in s.puts && s.puts[p].key !in s.q.inFlight
    ensures TallyOk(View(StartSync(s, p), k), t)
  {
    assert KeyOk(k, View(s, k));
    if s.puts[p].key == k {
      SyncShows(s, p);
      SyncTally(k, View(s, k), s.puts[p], t);
    } else {
      SyncElsewhere(s, p, k);
    }
  }

  /** A refused store that is dropped or goes on waiting changes nothing that is known of a key. */
  lemma PutsUnseen(s: Sys, s': Sys, k: Key)
    requires s' == s.(q := s'.q, puts := s'.puts)
    requires s'.q == s.q.(refusals := s'.q.refusals, nextRefusal := s'.q.nextRefusal)
    ensures View(s', k) == View(s, k)
  {
  }

  lemma ResumeTallies(s: Sys, p: nat, k: Key, t: Tally)
    requires Inv(s) && TallyOk(View(s, k), t) && p in s.puts
    ensures TallyOk(View(ResumePut(s, p), k), t)
  {
    TakeBackFrame(s, p);
    var (s1, overtaken) := TakeBack(s, p);
    PutsUnseen(s, s1, k);
    if overtaken {
      PutsUnseen(s1, s1.(puts := s1.puts - {p}), k);
    } else if s1.puts[p].key in s1.q.inFlight {
      PutsUnseen(s1, Watch(s1, p), k);
    } else {
      SameKeys(s, s1);
      StartTallies(s1, p, k, t);
    }
  }

  lemma FlightShows(s: Sys, f: nat)
    requires FlightsOk(s) && f in s.flights
    ensures View(s, s.flights[f].item.key).flight == Some(s.flights[f])
  {
  }

  lemma EndShows(s: Sys, f: nat, retryAt: int)
    requires Inv(s) && f in s.flights
    ensures var k := s.flights[f].item.key;
            && View(s, k).flight == Some(s.flights[f])
            && View(Next(s, Retire(f, retryAt)), k) == EndView(k, View(s, k), retryAt)
  {
    FlightShows(s, f);
    RetireIs(s, f, retryAt);
    if Retries(s.flights[f]) {
      RetryShows(s, f, retryAt);
    } else {
      FinishShows(s, f);
    }
  }

  lemma EndElsewhere(s: Sys, f: nat, retryAt: int, j: Key)
    requires Inv(s) && f in s.flights && s.flights[f].item.key != j
    ensures View(Next(s, Retire(f, retryAt)), j) == View(s, j)
  {
    RetireIs(s, f, retryAt);
    if Retries(s.flights[f]) {
      RetryElsewhere(s, f, retryAt, j);
    } else {
      FinishElsewhere(s, f, j);
    }
  }

  /** The key and its view say the same of a failed send. */
  lemma RetiredIs(s: Sys, f: nat, retryAt: int, t: Tally)
    requires FlightsOk(s) && f in s.flights && KeyOk(s.flights[f].item.key, View(s, s.flights[f].item.key))
    ensures NextTally(s, Retire(f, retryAt), s.flights[f].item.key, t)
            == RetiredTally(View(s, s.flights[f].item.key), t, retryAt)
  {
  }

  lemma RetireTallies(s: Sys, f: nat, retryAt: int, k: Key, t: Tally)
    requires Inv(s) && TallyOk(View(s, k), t) && f in s.flights
    ensures TallyOk(View(Next(s, Retire(f, retryAt)), k), NextTally(s, Retire(f, retryAt), k, t))
  {
    assert KeyOk(k, View(s, k));
    if s.flights[f].item.key == k {
      EndShows(s, f, retryAt);
      EndTally(k, View(s, k), retryAt, t);
      RetiredIs(s, f, retryAt, t);
    } else {
      EndElsewhere(s, f, retryAt, k);
    }
  }

  lemma DiskTallies(s: Sys, step: Step, k: Key, t: Tally)
    requires TallyOk(View(s, k), t) && (step.DiskWrite? || step.DiskEvict?)
    ensures TallyOk(View(Next(s, step), k), t)
  {
    if step.key == k {
      DiskShows(s, step);
    } else {
      DiskElsewhere(s, step, k);
    }
  }

  lemma LoadTallies(s: Sys, f: nat, k: Key, t: Tally)
    requires Inv(s) && TallyOk(View(s, k), t) && Enabled(s, Load(f))
    ensures TallyOk(View(Next(s, Load(f)), k), t)
  {
    if s.flights[f].item.key == k {
      LoadShows(s, f);
    } else {
      LoadElsewhere(s, f, k);
    }
  }

  lemma SendTallies(s: Sys, f: nat, landed: bool, reported: bool, k: Key, t: Tally)
    requires Inv(s) && TallyOk(View(s, k), t) && Enabled(s, Send(f, landed, reported))
    ensures TallyOk(View(SendNow(s, f, landed, reported), k), t)
  {
    if s.flights[f].item.key == k {
      SendShows(s, f, landed, reported);
    } else {
      SendElsewhere(s, f, landed, reported, k);
    }
  }

  lemma StepTallies(s: Sys, step: Step, k: Key, t: Tally)
    requires Inv(s) && TallyOk(View(s, k), t) && Enabled(s, step)
    ensures TallyOk(View(Next(s, step), k), NextTally(s, step, k, t))
  {
    match step
    case StoreDisk(j) => AcceptTallies(s, j, None, true, OnDisk(s, j), k, t);
    case StoreMemory(p, j, blob) =>
      if Refuses(s.q, j, Some(blob)) {
        RefuseTallies(s, p, j, blob.bytes, k, t);
      } else {
        AcceptTallies(s, j, Some(blob), false, Memory(blob.bytes), k, t);
      }
    case Resume(p) => ResumeTallies(s, p, k, t);
    case Take(now) => TakeTallies(s, now, k, t);
    case Retire(f, retryAt) => RetireTallies(s, f, retryAt, k, t);
    case Recover(j) => RecoverTallies(s, j, k, t);
    case Load(f) => LoadTallies(s, f, k, t);
    case Send(f, landed, reported) => SendTallies(s, f, landed, reported, k, t);
    case DiskWrite(_, _) => DiskTallies(s, step, k, t);
    case DiskEvict(_) => DiskTallies(s, step, k, t);
    case Crash =>
  }

  lemma {:induction false} RunTallies(s: Sys, steps: seq<Step>, k: Key, t: Tally)
    requires Inv(s) && IsRun(s, steps) && IsDisciplined(s, steps) && TallyOk(View(s, k), t)
    ensures Inv(After(s, steps)) && TallyOk(View(After(s, steps), k), TallyOf(s, steps, k, t))
    decreases |steps|
  {
    if steps != [] {
      StepKeeps(s, steps[0]);
      StepTallies(s, steps[0], k, t);
      RunTallies(Next(s, steps[0]), steps[1..], k, NextTally(s, steps[0], k, t));
    }
  }

  // ---- when a store is given up ----------------------------------------------------

  /** The end of a flight gives its key up when it did not land, nothing newer came, and it is not tried again. */
  lemma GivesUpExactly(s: Sys, f: nat, retryAt: int)
    requires Inv(s) && f in s.flights
    ensures var fl, s' := s.flights[f], Next(s, Retire(f, retryAt));
            s'.abandoned ==
            if !fl.landed && fl.item.key !in s.q.superseded && Generation(s.q, fl.item.key) == fl.item.generation
               && (fl.sync || fl.value.None? || fl.item.attempts + 1 >= MAX_ATTEMPTS)
            then s.abandoned + {fl.item.key} else s.abandoned
  {
    var fl := s.flights[f];
    assert KeyOk(fl.item.key, View(s, fl.item.key));
    FlightShows(s, f);
    RetireIs(s, f, retryAt);
  }

  /**
   In every run, the end of a worker's flight gives its key up exactly when it failed, is of
   the newest accepted store, and either the disk entry was gone or this is the third failed
   send, counting those that the store inherited.
   */
  lemma GivenUpAtTheThird(maxHeldBytes: nat, steps: seq<Step>, f: nat, retryAt: int)
    requires IsRun(Init(maxHeldBytes), steps) && IsDisciplined(Init(maxHeldBytes), steps)
    requires f in After(Init(maxHeldBytes), steps).flights && !After(Init(maxHeldBytes), steps).flights[f].sync
    ensures var s := After(Init(maxHeldBytes), steps);
            var fl, k := s.flights[f], s.flights[f].item.key;
            var t := TallyOf(Init(maxHeldBytes), steps, k, NO_TALLY);
            Next(s, Retire(f, retryAt)).abandoned ==
            if !fl.landed && k !in s.q.superseded && Generation(s.q, k) == fl.item.generation
               && (fl.value.None? || t.inherited + t.own + 1 == MAX_ATTEMPTS)
            then s.abandoned + {k} else s.abandoned
  {
    InitKeeps(maxHeldBytes);
    var k := After(Init(maxHeldBytes), steps).flights[f].item.key;
    RunTallies(Init(maxHeldBytes), steps, k, NO_TALLY);
    var s := After(Init(maxHeldBytes), steps);
    assert KeyOk(k, View(s, k)) && View(s, k).flight == Some(s.flights[f]);
    GivesUpExactly(s, f, retryAt);
  }

  lemma RetryOrNot(s: Sys, f: nat, retryAt: int, t: Tally)
    requires Inv(s) && f in s.flights && TallyOk(View(s, s.flights[f].item.key), t) && FailedSend(s, f)
    ensures s.flights[f].item.key in Next(s, Retire(f, retryAt)).q.waiting <==>
            t.inherited + t.own + 1 < MAX_ATTEMPTS
  {
    var k := s.flights[f].item.key;
    assert KeyOk(k, View(s, k));
    RetiredIs(s, f, retryAt, t);
    EndShows(s, f, retryAt);
    EndWaits(k, View(s, k), retryAt, t);
  }

  /**
   A store whose sends fail is given up after three of its own if and only if no retry of its
   key was waiting when it was accepted; after fewer if one was.
   */
  lemma OwnSendsExactly(maxHeldBytes: nat, steps: seq<Step>, f: nat, retryAt: int)
    requires IsRun(Init(maxHeldBytes), steps) && IsDisciplined(Init(maxHeldBytes), steps)
    requires f in After(Init(maxHeldBytes), steps).flights && FailedSend(After(Init(maxHeldBytes), steps), f)
    ensures var s := After(Init(maxHeldBytes), steps);
            var k, s' := s.flights[f].item.key, Next(s, Retire(f, retryAt));
            var t := NextTally(s, Retire(f, retryAt), k, TallyOf(Init(maxHeldBytes), steps, k, NO_TALLY));
            && 1 <= t.own <= MAX_ATTEMPTS - t.inherited
            && s'.abandoned == (if t.own == MAX_ATTEMPTS - t.inherited then s.abandoned + {k} else s.abandoned)
            && (k in s'.q.waiting <==> t.own < MAX_ATTEMPTS - t.inherited)
  {
    GivenUpAtTheThird(maxHeldBytes, steps, f, retryAt);
    InitKeeps(maxHeldBytes);
    var k := After(Init(maxHeldBytes), steps).flights[f].item.key;
    RunTallies(Init(maxHeldBytes), steps, k, NO_TALLY);
    RetryOrNot(After(Init(maxHeldBytes), steps), f, retryAt, TallyOf(Init(maxHeldBytes), steps, k, NO_TALLY));
  }

  /** In every run, no worker takes an upload before the time that its last failed send set for it. */
  lemma RetryWaitsItsTime(maxHeldBytes: nat, steps: seq<Step>, now: int)
    requires IsRun(Init(maxHeldBytes), steps) && IsDisciplined(Init(maxHeldBytes), steps)
    ensures var taken := TakeReady(After(Init(maxHeldBytes), steps).q, now).1;
            taken.Some? ==> TallyOf(Init(maxHeldBytes), steps, taken.value.key, NO_TALLY).due <= now
  {
    var s := After(Init(maxHeldBytes), steps);
    var i := FirstReady(s.q, 0, now);
    if i < |s.q.order| {
      InitKeeps(maxHeldBytes);
      RunTallies(Init(maxHeldBytes), steps, s.q.order[i], NO_TALLY);
      assert KeyOk(s.q.order[i], View(s, s.q.order[i]));
    }
  }

  // ---- a store given up after one send ---------------------------------------------

  /** One key alone in the queue, its value in memory: `attempts` sends of it have failed. */
  datatype Trial = Trial(cap: nat, k: Key, blob: Blob, gen: nat, attempts: nat, next: nat, arrival: nat)

  function TrialItem(x: Trial): Item { Item(x.k, Some(x.blob), x.gen, x.attempts, 0) }

  function Rested(x: Trial): Sys {
    Init(x.cap).(q := Empty(x.cap, {}).(order := [x.k], waiting := map[x.k := TrialItem(x)],
                                        generation := map[x.k := x.gen], nextFlight := x.next,
                                        ledger := Ledger(map[x.k := x.blob], map[], x.blob.Size())),
                 counters := Counters(1, 0, 0, 0), latest := map[x.k := Memory(x.blob.bytes)],
                 h := History(x.arrival + 1, map[x.k := x.arrival], map[], map[x.k := Newest(x.arrival, None)],
                              map[], {}))
  }

  function Sending(x: Trial): Sys {
    var s := Rested(x);
    s.(q := s.q.(order := [], waiting := map[], inFlight := {x.k}, flightId := map[x.k := x.next],
                 nextFlight := x.next + 1,
                 ledger := Ledger(map[x.k := x.blob], map[x.k := Pin(x.blob, false)], x.blob.Size())),
       flights := map[x.next := Flight(TrialItem(x), false, x.arrival, Some(x.blob.bytes), false)])
  }

  function GivenUp(x: Trial): Sys {
    Rested(x).(q := Empty(x.cap, {}).(nextFlight := x.next + 1), counters := Counters(1, 0, 1, 0), abandoned := {x.k})
  }

  lemma TrialStarts(x: Trial)
    requires x.blob.Size() <= x.cap && x.gen == 1 && x.attempts == 0 && x.next == 1 && x.arrival == 0
    ensures Leads(Init(x.cap), StoreMemory(0, x.k, x.blob), Rested(x))
  {
    var q := Accept(Empty(x.cap, {}), x.k, Some(x.blob), false);
    assert q == Rested(x).q;
  }

  lemma TrialTaken(x: Trial)
    ensures Leads(Rested(x), Take(0), Sending(x))
  {
    var q := Rested(x).q;
    assert Ready(q, 0, 0) && FirstReady(q, 0, 0) == 0;
    assert q.order[..0] + q.order[1..] == [];
    assert q.waiting - {x.k} == map[];
    assert TakeAt(q, 0) == Sending(x).q;
  }

  lemma TrialFails(x: Trial)
    ensures Leads(Sending(x), Send(x.next, false, false), Sending(x))
  {
  }

  lemma TrialRetried(x: Trial)
    requires x.attempts + 1 < MAX_ATTEMPTS
    ensures Leads(Sending(x), Retire(x.next, 0), Rested(x.(attempts := x.attempts + 1, next := x.next + 1)))
  {
  }

  lemma TrialGivenUp(x: Trial)
    requires x.attempts + 1 == MAX_ATTEMPTS
    ensures Leads(Sending(x), Retire(x.next, 0), GivenUp(x))
  {
  }

  lemma QueueMerges(x: Trial, blob: Blob)
    requires blob.Size() <= x.cap
    ensures var q := Rested(x).q;
            && !Refuses(q, x.k, Some(blob))
            && Accept(q, x.k, Some(blob), false)
               == Rested(x.(blob := blob, gen := x.gen + 1, arrival := x.arrival + 1)).q
  {
    var q := Rested(x).q;
    assert Hold(q.ledger, x.k, Some(blob)) == Ledger(map[x.k := blob], map[], blob.Size());
    assert Overtaken(q.refusals, x.k) == map[];
    assert q.superseded - {x.k} == {};
  }

  /** A newer store of the key takes the waiting retry's place, and its count. */
  lemma TrialMerges(x: Trial, blob: Blob)
    requires blob.Size() <= x.cap
    ensures Leads(Rested(x), StoreMemory(0, x.k, blob),
                  Rested(x.(blob := blob, gen := x.gen + 1, arrival := x.arrival + 1)))
  {
    QueueMerges(x, blob);
  }

  function OneTry(next: nat): seq<Step> { [Take(0)] + [Send(next, false, false)] + [Retire(next, 0)] }

  lemma OneTryLeads(s: Sys, steps: seq<Step>, x: Trial, s': Sys)
    requires IsRun(s, steps) && After(s, steps) == Rested(x) && Leads(Sending(x), Retire(x.next, 0), s')
    ensures IsRun(s, steps + OneTry(x.next)) && After(s, steps + OneTry(x.next)) == s'
  {
    TrialTaken(x);
    TrialFails(x);
    var a, b, c := [Take(0)], [Send(x.next, false, false)], [Retire(x.next, 0)];
    Extend(s, steps, Take(0), Sending(x));
    Extend(s, steps + a, Send(x.next, false, false), Sending(x));
    Extend(s, steps + a + b, Retire(x.next, 0), s');
    assert steps + OneTry(x.next) == steps + a + b + c;
  }

  /** A store of `a` that fails twice, a store of `b`, and one failed send of it. */
  function MergedRun(k: Key, a: Blob, b: Blob): seq<Step> {
    [StoreMemory(0, k, a)] + OneTry(1) + OneTry(2) + [StoreMemory(0, k, b)] + OneTry(3)
  }

  /** The second store is given up after the one send it got. */
  lemma MergedStoreGivenUp(cap: nat, k: Key, a: Blob, b: Blob)
    requires a.Size() <= cap && b.Size() <= cap
    ensures IsRun(Init(cap), MergedRun(k, a, b))
    ensures var s := After(Init(cap), MergedRun(k, a, b));
            s.latest == map[k := Memory(b.bytes)] && s.abandoned == {k} && s.s3 == map[] && s.q.waiting == map[]
  {
    var x := Trial(cap, k, a, 1, 0, 1, 0);
    var x1 := x.(attempts := 1, next := 2);
    var x2 := x.(attempts := 2, next := 3);
    var y := x2.(blob := b, gen := 2, arrival := 1);
    var s, first := Init(cap), StoreMemory(0, k, a);
    TrialStarts(x);
    Extend(s, [], first, Rested(x));
    assert [] + [first] == [first];
    TrialRetried(x);
    OneTryLeads(s, [first], x, Rested(x1));
    TrialRetried(x1);
    OneTryLeads(s, [first] + OneTry(1), x1, Rested(x2));
    TrialMerges(x2, b);
    Extend(s, [first] + OneTry(1) + OneTry(2), StoreMemory(0, k, b), Rested(y));
    TrialGivenUp(y);
    OneTryLeads(s, [first] + OneTry(1) + OneTry(2) + [StoreMemory(0, k, b)], y, GivenUp(y));
  }
}
