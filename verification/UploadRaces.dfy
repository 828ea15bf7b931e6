/**
 What goes wrong when a refused store starts its own upload although its key is
 waiting, or although a store that arrived later has been accepted: from every
 state a run can reach, and in two short runs.
 */
module UploadRaces {
  import opened Common
  import opened UploadQueueModel
  import opened UploadRuns

  // ---- a waiting key: the counters stop balancing ----------------------------------

  /** No item has to wait any longer than this. */
  ghost function LastTime(items: map<Key, Item>): (t: int)
    ensures forall k :: k in items ==> items[k].notBefore <= t
  {
    if items == map[] then 0
    else
      var k :| k in items;
      var rest := LastTime(items - {k});
      assert forall j :: j in items && j != k ==> j in items - {k};
      if items[k].notBefore <= rest then rest else items[k].notBefore
  }

  /** A key is waiting and in flight at once, and every item may be taken. */
  ghost predicate CrowdedIn(order: seq<Key>, waiting: map<Key, Item>, inFlight: set<Key>, c: Counters, k: Key,
                            now: int) {
    && OrderOk(order, waiting) && ConservedIn(c, waiting.Keys, inFlight) && k in waiting && k in inFlight
    && (forall j :: j in waiting ==> waiting[j].key == j && waiting[j].notBefore <= now)
    && (forall j :: j in waiting && j != k ==> j !in inFlight)
  }

  ghost predicate Crowded(s: Sys, k: Key, now: int) {
    CrowdedIn(s.q.order, s.q.waiting, s.q.inFlight, s.counters, k, now)
  }

  lemma TakesFirst(s: Sys, k: Key, now: int)
    requires Crowded(s, k, now)
    ensures s.q.order != [] && s.q.order[0] in s.q.waiting
    ensures var j, t := s.q.order[0], TakeNext(s, now);
            && t.counters == s.counters && t.q.order == s.q.order[1..]
            && t.q.waiting == s.q.waiting - {j} && t.q.inFlight == s.q.inFlight + {j}
  {
    assert k in s.q.order;
    assert Ready(s.q, 0, now) && FirstReady(s.q, 0, now) == 0;
    assert s.q.order[..0] + s.q.order[1..] == s.q.order[1..];
  }

  /** Taking another key changes nothing about the crowded one. */
  lemma OtherTaken(order: seq<Key>, waiting: map<Key, Item>, inFlight: set<Key>, c: Counters, k: Key, now: int)
    requires CrowdedIn(order, waiting, inFlight, c, k, now) && order != [] && order[0] != k
    ensures CrowdedIn(order[1..], waiting - {order[0]}, inFlight + {order[0]}, c, k, now)
  {
    var j, waiting' := order[0], waiting - {order[0]};
    assert waiting'.Keys == waiting.Keys - {j} && j in order && j in waiting;
    forall i ensures i in order[1..] <==> i in waiting' {
      assert i in order <==> i == j || i in order[1..];
    }
  }

  /** Taking the key itself leaves one queued upload unaccounted for. */
  lemma KeyTaken(waiting: map<Key, Item>, inFlight: set<Key>, c: Counters, k: Key)
    requires ConservedIn(c, waiting.Keys, inFlight) && k in waiting && k in inFlight
    ensures !ConservedIn(c, (waiting - {k}).Keys, inFlight + {k})
  {
    assert (waiting - {k}).Keys == waiting.Keys - {k} && inFlight + {k} == inFlight;
  }

  /** Taking items until it is the key's turn. */
  lemma {:induction false} TakesUnbalance(s: Sys, k: Key, now: int) returns (steps: seq<Step>)
    requires Crowded(s, k, now)
    ensures IsRun(s, steps) && !Conserved(After(s, steps))
    decreases |s.q.order|
  {
    TakesFirst(s, k, now);
    var t := TakeNext(s, now);
    var rest: seq<Step> := [];
    if s.q.order[0] == k {
      KeyTaken(s.q.waiting, s.q.inFlight, s.counters, k);
    } else {
      OtherTaken(s.q.order, s.q.waiting, s.q.inFlight, s.counters, k, now);
      rest := TakesUnbalance(t, k, now);
    }
    steps := [Take(now)] + rest;
    assert steps[1..] == rest && Next(s, Take(now)) == t;
  }

  lemma SyncCrowds(s: Sys, p: nat)
    requires Inv(s) && p in s.puts && s.puts[p].key !in s.q.inFlight && s.puts[p].key in s.q.waiting
    ensures Crowded(StartSync(s, p), s.puts[p].key, LastTime(s.q.waiting))
  {
    SyncKeepsRest(s, p);
    LaunchQueue(s, p);
    forall j | j in s.q.waiting ensures s.q.waiting[j].key == j && j !in s.q.inFlight {
      assert WaitingOk(j, View(s, j)) by {
        assert KeyOk(j, View(s, j));
      }
    }
    assert StartSync(s, p).q == Launch(s, p).q;
  }

  lemma WaitingSyncUnbalances(s: Sys, p: nat) returns (steps: seq<Step>)
    requires Inv(s) && p in s.puts && s.puts[p].key !in s.q.inFlight && s.puts[p].key in s.q.waiting
    ensures IsRun(StartSync(s, p), steps) && !Conserved(After(StartSync(s, p), steps))
  {
    SyncCrowds(s, p);
    steps := TakesUnbalance(StartSync(s, p), s.puts[p].key, LastTime(s.q.waiting));
  }

  // ---- a stale store: the older value stays in S3 ----------------------------------

  /**
   S3 was last written by a store of `k` older than the newest accepted one, and
   nothing is left that would repair it.
   */
  predicate Overwritten(s: Sys, k: Key) {
    && k in s.h.stamp && k in s.h.sentBy && s.h.sentBy[k] < s.h.stamp[k]
    && k !in s.q.waiting && k !in s.q.inFlight
  }

  /** A flight sent and retired, with nothing in between. */
  lemma SentAndDone(s: Sys, f: nat)
    requires f in s.flights && s.flights[f].sync && s.flights[f].value.Some? && !Rewritten(s.q, s.flights[f].item)
    ensures var fl, steps := s.flights[f], [Send(f, true, true), Retire(f, 0)];
            && IsRun(s, steps)
            && var t := After(s, steps);
               && t.q == Finish(s.q, fl.item).0 && t.latest == s.latest && t.h.stamp == s.h.stamp
               && t.s3 == s.s3[fl.item.key := fl.value.value] && t.h.sentBy == s.h.sentBy[fl.item.key := fl.arrival]
  {
    var s2 := SendNow(s, f, true, true);
    var t := FinishFlight(s2, f, s2.flights[f]);
    var steps := [Send(f, true, true), Retire(f, 0)];
    assert steps[1..] == [Retire(f, 0)] && steps[1..][1..] == [];
    assert Next(s, steps[0]) == s2 && Next(s2, steps[1..][0]) == t;
    assert IsRun(t, []) && After(t, []) == t;
    assert IsRun(s2, steps[1..]) && After(s2, steps[1..]) == t;
  }

  lemma StaleSyncOverwrites(s: Sys, p: nat) returns (steps: seq<Step>)
    requires Inv(s) && p in s.puts && s.puts[p].key !in s.q.inFlight && s.puts[p].key !in s.q.waiting && Stale(s, p)
    ensures IsRun(StartSync(s, p), steps)
    ensures var t, k := After(StartSync(s, p), steps), s.puts[p].key;
            Overwritten(t, k) && k in t.s3 && t.s3[k] == s.puts[p].bytes && t.latest == s.latest
  {
    LaunchQueue(s, p);
    SentAndDone(StartSync(s, p), s.q.nextFlight);
    steps := [Send(s.q.nextFlight, true, true), Retire(s.q.nextFlight, 0)];
  }

  /**
   The condition is exact. From every state of a run, a refused store that
   resumes against the discipline can be followed by steps after which the
   counters do not balance, or an older store has overwritten the newest in S3.
   */
  lemma UndisciplinedResumeHarms(s: Sys, p: nat) returns (steps: seq<Step>)
    requires Inv(s) && p in s.puts && !Disciplined(s, Resume(p))
    ensures steps != [] && steps[0] == Resume(p) && IsRun(s, steps)
    ensures !Conserved(After(s, steps)) || Overwritten(After(s, steps), s.puts[p].key)
  {
    TakeBackKeeps(s, p);
    var (s1, overtaken) := TakeBack(s, p);
    var rest;
    if s1.puts[p].key in s1.q.waiting {
      rest := WaitingSyncUnbalances(s1, p);
    } else {
      rest := StaleSyncOverwrites(s1, p);
    }
    steps := [Resume(p)] + rest;
    assert steps[1..] == rest;
    assert Next(s, Resume(p)) == StartSync(s1, p);
  }

  // ---- two runs --------------------------------------------------------------------

  /** A key and two stores of it, the older too big for the queue. */
  datatype Race = Race(cap: nat, k: Key, big: Blob, small: Blob)

  predicate OnlyOlderIsRefused(r: Race) { r.big.Size() > r.cap >= r.small.Size() }

  /** `s` leads to `s'` by one enabled step. */
  ghost predicate Leads(s: Sys, step: Step, s': Sys) {
    Enabled(s, step) && Next(s, step) == s'
  }

  lemma {:induction false} Extend(s: Sys, steps: seq<Step>, step: Step, s': Sys)
    requires IsRun(s, steps) && Leads(After(s, steps), step, s')
    ensures IsRun(s, steps + [step]) && After(s, steps + [step]) == s'
    decreases |steps|
  {
    var more := steps + [step];
    if steps == [] {
      assert more[1..] == [];
      assert IsRun(Next(s, step), more[1..]);
    } else {
      assert more[0] == steps[0] && more[1..] == steps[1..] + [step];
      Extend(Next(s, steps[0]), steps[1..], step, s');
    }
  }

  /** A store too big for the queue was refused while its key was idle. */
  function RefusedIdle(r: Race): Sys {
    Init(r.cap).(puts := map[0 := Put(r.k, r.big.bytes, 0, None)],
                 h := History(1, map[], map[], map[r.k := Newest(0, Some(0))], map[], {}))
  }

  /** A later store of the key is queued before the refused one resumes. */
  function ThenQueued(r: Race): Sys {
    var q := Empty(r.cap, {}).(order := [r.k], waiting := map[r.k := Item(r.k, Some(r.small), 1, 0, 0)],
                               generation := map[r.k := 1],
                               ledger := Ledger(map[r.k := r.small], map[], r.small.Size()));
    RefusedIdle(r).(q := q, counters := Counters(1, 0, 0, 0), latest := map[r.k := Memory(r.small.bytes)],
                    h := History(2, map[r.k := 1], map[], map[r.k := Newest(1, None)], map[], {}))
  }

  /** The later store, being sent by a worker; the older one, being sent by its own thread. */
  function WorkerFlight(r: Race, landed: bool): Flight {
    Flight(Item(r.k, Some(r.small), 1, 0, 0), false, 1, Some(r.small.bytes), landed)
  }

  function SyncFlight(r: Race, gen: nat, landed: bool): Flight {
    Flight(Item(r.k, None, gen, 0, 0), true, 0, Some(r.big.bytes), landed)
  }

  lemma RaceStores(r: Race)
    requires OnlyOlderIsRefused(r)
    ensures Leads(Init(r.cap), StoreMemory(0, r.k, r.big), RefusedIdle(r))
    ensures Leads(RefusedIdle(r), StoreMemory(1, r.k, r.small), ThenQueued(r))
  {
  }

  // The later store is sent and done with before the refused one resumes.

  function Taken(r: Race, landed: bool): Sys {
    var s := ThenQueued(r);
    s.(q := s.q.(order := [], waiting := map[], inFlight := {r.k}, flightId := map[r.k := 1], nextFlight := 2,
                 ledger := Ledger(map[r.k := r.small], map[r.k := Pin(r.small, false)], r.small.Size())),
       flights := map[1 := WorkerFlight(r, landed)],
       s3 := if landed then map[r.k := r.small.bytes] else map[],
       h := s.h.(sentBy := if landed then map[r.k := 1] else map[]))
  }

  function LaterDone(r: Race): Sys {
    Taken(r, true).(q := Empty(r.cap, {}).(nextFlight := 2), flights := map[], counters := Counters(1, 1, 0, 0))
  }

  function OlderResumes(r: Race, landed: bool): Sys {
    var s := LaterDone(r);
    s.(q := s.q.(generation := map[r.k := 1], inFlight := {r.k}, flightId := map[r.k := 2], nextFlight := 3),
       flights := map[2 := SyncFlight(r, 1, landed)], puts := map[], counters := Counters(2, 1, 0, 0),
       s3 := if landed then map[r.k := r.big.bytes] else s.s3,
       h := s.h.(sentBy := if landed then map[r.k := 0] else s.h.sentBy))
  }

  function OlderLast(r: Race): Sys {
    OlderResumes(r, true).(q := Empty(r.cap, {}).(nextFlight := 3), flights := map[], counters := Counters(2, 2, 0, 0))
  }

  lemma LaterFirst(r: Race)
    ensures Leads(ThenQueued(r), Take(0), Taken(r, false))
  {
    var q := ThenQueued(r).q;
    assert Ready(q, 0, 0) && FirstReady(q, 0, 0) == 0;
    assert q.order[..0] + q.order[1..] == [];
  }

  lemma LaterSent(r: Race)
    ensures Leads(Taken(r, false), Send(1, true, true), Taken(r, true))
  {
  }

  lemma LaterEnds(r: Race)
    ensures Leads(Taken(r, true), Retire(1, 0), LaterDone(r))
  {
  }

  lemma OlderAfter(r: Race)
    ensures Leads(LaterDone(r), Resume(0), OlderResumes(r, false))
  {
  }

  lemma OlderSent(r: Race)
    ensures Leads(OlderResumes(r, false), Send(2, true, true), OlderResumes(r, true))
  {
  }

  lemma OlderEnds(r: Race)
    ensures Leads(OlderResumes(r, true), Retire(2, 0), OlderLast(r))
  {
  }

  function BothStored(r: Race): seq<Step> { [StoreMemory(0, r.k, r.big), StoreMemory(1, r.k, r.small)] }

  function LaterSentFirst(r: Race): seq<Step> { BothStored(r) + [Take(0)] + [Send(1, true, true)] + [Retire(1, 0)] }

  function StaleRun(r: Race): seq<Step> {
    LaterSentFirst(r) + [Resume(0)] + [Send(2, true, true)] + [Retire(2, 0)]
  }

  lemma BothStoredLeads(r: Race)
    requires OnlyOlderIsRefused(r)
    ensures IsRun(Init(r.cap), BothStored(r)) && After(Init(r.cap), BothStored(r)) == ThenQueued(r)
  {
    var s, first := Init(r.cap), StoreMemory(0, r.k, r.big);
    RaceStores(r);
    Extend(s, [], first, RefusedIdle(r));
    assert [] + [first] == [first];
    Extend(s, [first], StoreMemory(1, r.k, r.small), ThenQueued(r));
    assert [first] + [StoreMemory(1, r.k, r.small)] == BothStored(r);
  }

  lemma LaterSentFirstLeads(r: Race)
    requires OnlyOlderIsRefused(r)
    ensures IsRun(Init(r.cap), LaterSentFirst(r)) && After(Init(r.cap), LaterSentFirst(r)) == LaterDone(r)
  {
    var s, steps := Init(r.cap), BothStored(r);
    BothStoredLeads(r);
    LaterFirst(r);
    LaterSent(r);
    LaterEnds(r);
    Extend(s, steps, Take(0), Taken(r, false));
    Extend(s, steps + [Take(0)], Send(1, true, true), Taken(r, true));
    Extend(s, steps + [Take(0)] + [Send(1, true, true)], Retire(1, 0), LaterDone(r));
  }

  /** Everything has drained by successful uploads, and S3 holds the older of two stores. */
  predicate OlderWon(s: Sys, r: Race) {
    && AllSettled(s) && s.s3 == map[r.k := r.big.bytes] && s.latest == map[r.k := Memory(r.small.bytes)]
    && r.k in s.h.newest && s.h.newest[r.k].arrival == 1 && Overwritten(s, r.k) && !Uploaded(s, r.k)
  }

  /**
   A store too big for the queue is refused while its key is idle. A later
   store of the key is queued, sent and done with. Then the refused one starts
   its own upload, although nothing is waiting or in flight.
   */
  lemma StaleRunOverwritesTheNewest(r: Race)
    requires OnlyOlderIsRefused(r)
    ensures IsRun(Init(r.cap), StaleRun(r)) && OlderWon(After(Init(r.cap), StaleRun(r)), r)
  {
    var s, steps := Init(r.cap), LaterSentFirst(r);
    LaterSentFirstLeads(r);
    OlderAfter(r);
    OlderSent(r);
    OlderEnds(r);
    Extend(s, steps, Resume(0), OlderResumes(r, false));
    Extend(s, steps + [Resume(0)], Send(2, true, true), OlderResumes(r, true));
    Extend(s, steps + [Resume(0)] + [Send(2, true, true)], Retire(2, 0), OlderLast(r));
  }

  // The refused store resumes while the later one is still waiting.

  function SyncBesideQueued(r: Race): Sys {
    var s := ThenQueued(r);
    s.(q := s.q.(generation := map[r.k := 2], inFlight := {r.k}, flightId := map[r.k := 1], nextFlight := 2),
       flights := map[1 := SyncFlight(r, 2, false)], puts := map[], counters := Counters(2, 0, 0, 0))
  }

  /** Both are in flight at once. */
  function TwoFlights(r: Race): Sys {
    var s := SyncBesideQueued(r);
    s.(q := s.q.(order := [], waiting := map[], flightId := map[r.k := 2], nextFlight := 3,
                 ledger := Ledger(map[r.k := r.small], map[r.k := Pin(r.small, false)], r.small.Size())),
       flights := map[1 := SyncFlight(r, 2, false), 2 := WorkerFlight(r, false)])
  }

  lemma RaceSync(r: Race)
    ensures Leads(ThenQueued(r), Resume(0), SyncBesideQueued(r))
  {
  }

  lemma RaceTake(r: Race)
    ensures Leads(SyncBesideQueued(r), Take(0), TwoFlights(r)) && !Conserved(TwoFlights(r))
  {
    var q := SyncBesideQueued(r).q;
    assert Ready(q, 0, 0) && FirstReady(q, 0, 0) == 0;
    assert q.order[..0] + q.order[1..] == [];
  }

  /** The refused store starts its own upload while the later one is waiting: two uploads of one key, counted as one. */
  lemma WaitingRunUnbalances(r: Race)
    requires OnlyOlderIsRefused(r)
    ensures var steps := BothStored(r) + [Resume(0)] + [Take(0)];
            IsRun(Init(r.cap), steps) && !Conserved(After(Init(r.cap), steps))
  {
    var s, steps := Init(r.cap), BothStored(r);
    BothStoredLeads(r);
    RaceSync(r);
    RaceTake(r);
    Extend(s, steps, Resume(0), SyncBesideQueued(r));
    Extend(s, steps + [Resume(0)], Take(0), TwoFlights(r));
  }
}
